/** What each transaction leaves behind, field by field, and which step a document's status tells of. */
module IngestionEffects {
  import opened Common
  import opened Ingestion
  import opened IngestionInvariant
  import opened IngestionTheorems

  // ---- the worker's transactions -----------------------------------------------------------------

  /** A pending document whose back-off is over (or does not bind the delivery), or a run whose lease is. */
  ghost predicate Claimable(doc: Document, now: int, eager: bool) {
    || (doc.status == Pending && (eager || doc.nextAttempt.None? || doc.nextAttempt.value <= now))
    || (doc.status == Processing && doc.lease.Some? && doc.lease.value <= now)
  }

  /** A delivery takes the document for eleven minutes exactly when it is claimable with fewer than
      four attempts behind it; with four behind it the document fails, and otherwise nothing happens. */
  lemma {:induction false} ClaimEffects(s: State, d: DocumentId, t: Token, now: int, eager: bool)
    requires Inv(s) && t !in s.runs && d in s.documents
    ensures var doc, s' := s.documents[d], Apply(s, Claim(d, t, now, eager));
            && (Holds(s', t) <==> Claimable(doc, now, eager) && doc.attempts < 4)
            && (Holds(s', t) ==>
              s' == s.(documents := s.documents[d := Document(doc.collection, Processing, Some(t), Some(now + 660),
                                                              doc.nextAttempt, doc.lastEnqueued, doc.attempts + 1)],
                       runs := s.runs[t := Run(d, doc.attempts + 1)]))
            && (Claimable(doc, now, eager) && doc.attempts >= 4 ==>
              s' == s.(documents := s.documents[d := Document(doc.collection, Failed, None, None,
                                                              doc.nextAttempt, doc.lastEnqueued, doc.attempts)]))
            && (!Claimable(doc, now, eager) ==> s' == s)
  {
    assert DocumentOk(d, s.documents[d], s);
  }

  /** The rows of a document, one for every draft. */
  ghost predicate HasDrafts(chunks: map<ChunkId, ChunkRow>, d: DocumentId, drafts: seq<Draft>, first: ChunkId) {
    && (forall id :: id in chunks && chunks[id].document == d ==> first <= id < first + |drafts|)
    && (forall i: nat :: i < |drafts| ==> HoldsDraft(chunks, first + i, d, drafts[i]))
  }

  ghost predicate HoldsDraft(chunks: map<ChunkId, ChunkRow>, id: ChunkId, d: DocumentId, draft: Draft) {
    && id in chunks && chunks[id].document == d
    && chunks[id].index == draft.index && chunks[id].content == draft.content
  }

  ghost predicate SameElsewhere(before: map<ChunkId, ChunkRow>, after: map<ChunkId, ChunkRow>, d: DocumentId) {
    forall id ::
      && (id in before && before[id].document != d ==> id in after && after[id] == before[id])
      && (id in after && after[id].document != d ==> id in before && before[id] == after[id])
  }

  /** A store by the token holder makes the document READY with exactly its drafts for rows, under
      the next generation of its collection; without the token it changes nothing. */
  lemma {:induction false} StoreEffects(s: State, t: Token, drafts: seq<Draft>)
    requires Inv(s)
    ensures var s' := Apply(s, StoreChunks(t, drafts));
            if !Holds(s, t) then s' == s
            else
              var d := s.runs[t].document;
              var doc := s.documents[d];
              var c := doc.collection;
              && s'.documents == s.documents[d := Document(c, Ready, None, None, doc.nextAttempt, doc.lastEnqueued,
                                                           doc.attempts)]
              && HasDrafts(s'.chunks, d, drafts, s.nextChunk) && SameElsewhere(s.chunks, s'.chunks, d)
              && s'.collections == s.collections[c := Collection(s.collections[c].dataVersion,
                                                                 s.collections[c].sourceGeneration + 1)]
              && s'.extractions == s.extractions && s'.removals == s.removals && s'.runs == s.runs
  {
    hide HasDrafts, SameElsewhere, WithoutDocument, Drafted, ChunksOk, IndexesUnique, FactsOk;
    if Holds(s, t) {
      var d := s.runs[t].document;
      assert DocumentOk(d, s.documents[d], s);
      RowsReplaced(s, d, t, drafts);
    }
  }

  lemma {:induction false} RowsReplaced(s: State, d: DocumentId, t: Token, drafts: seq<Draft>)
    requires ChunksOk(s)
    ensures var chunks := WithoutDocument(s.chunks, d) + Drafted(d, t, drafts, s.nextChunk);
            HasDrafts(chunks, d, drafts, s.nextChunk) && SameElsewhere(s.chunks, chunks, d)
  {
    hide Drafted;
    var kept, rows := WithoutDocument(s.chunks, d), Drafted(d, t, drafts, s.nextChunk);
    forall i: nat | i < |drafts| ensures HoldsDraft(rows, s.nextChunk + i, d, drafts[i]) {
    }
    RowsJoin(s.chunks, kept, rows, d, drafts, s.nextChunk);
  }

  lemma {:induction false} RowsJoin(before: map<ChunkId, ChunkRow>, kept: map<ChunkId, ChunkRow>,
                                    rows: map<ChunkId, ChunkRow>, d: DocumentId, drafts: seq<Draft>, first: ChunkId)
    requires kept == WithoutDocument(before, d) && forall id :: id in before ==> id < first
    requires HasDrafts(rows, d, drafts, first)
    requires forall id :: id in rows ==> first <= id && rows[id].document == d
    ensures HasDrafts(kept + rows, d, drafts, first) && SameElsewhere(before, kept + rows, d)
  {
    var all := kept + rows;
    forall i: nat | i < |drafts| ensures HoldsDraft(all, first + i, d, drafts[i]) {
      assert HoldsDraft(rows, first + i, d, drafts[i]);
    }
  }

  /** What retrieval sees of the document then is one row per draft, nothing else. */
  lemma {:induction false} StoreShows(s: State, t: Token, drafts: seq<Draft>, id: ChunkId)
    requires Inv(s) && Holds(s, t)
    ensures var d := s.runs[t].document;
            var c := s.documents[d].collection;
            var row := VisibleRow(Apply(s, StoreChunks(t, drafts)), id, c);
            && (s.nextChunk <= id < s.nextChunk + |drafts| ==>
              row == Some(ChunkRow(d, drafts[id - s.nextChunk].index, drafts[id - s.nextChunk].content, Ingested(t))))
            && (row.Some? && row.value.document == d ==> s.nextChunk <= id < s.nextChunk + |drafts|)
  {
    hide ChunksOk;
    hide IndexesUnique;
    hide FactsOk;
    StoreEffects(s, t, drafts);
  }

  /** Failing the document needs the token and gives it up. */
  lemma {:induction false} MarkFailedEffects(s: State, t: Token)
    ensures var s' := Apply(s, MarkFailed(t));
            if !Holds(s, t) then s' == s
            else
              var d := s.runs[t].document;
              var doc := s.documents[d];
              s' == s.(documents := s.documents[d := Document(doc.collection, Failed, None, None,
                                                              doc.nextAttempt, doc.lastEnqueued, doc.attempts)])
  {
  }

  /** The wait before the next attempt: ten seconds, twenty, forty. */
  ghost predicate IsDelay(attempt: nat, delay: int) {
    && (attempt == 1 ==> delay == 10)
    && (attempt == 2 ==> delay == 20)
    && (attempt == 3 ==> delay == 40)
  }

  /** The delay doubles from ten seconds. */
  lemma {:induction false} DelayDoubles(attempt: nat)
    requires attempt >= 1
    ensures RetryDelay(attempt + 1) == 2 * RetryDelay(attempt)
    ensures IsDelay(attempt, RetryDelay(attempt))
  {
    assert Pow2(0) == 1 && Pow2(1) == 2 && Pow2(2) == 4;
  }

  /** An unavailable embedding provider hands the document back until the delay is over, and fails
      it after the fourth attempt. */
  lemma {:induction false} EmbeddingFailedEffects(s: State, t: Token, now: int)
    requires Inv(s) && Holds(s, t)
    ensures var d := s.runs[t].document;
            var doc, s' := s.documents[d], Apply(s, EmbeddingFailed(t, now));
            && 1 <= doc.attempts <= 4
            && if doc.attempts < 4 then
              exists delay :: IsDelay(doc.attempts, delay) && s' == s.(documents := s.documents[
                d := Document(doc.collection, Pending, None, None, Some(now + delay), doc.lastEnqueued, doc.attempts)])
            else s' == s.(documents := s.documents[
              d := Document(doc.collection, Failed, None, None, doc.nextAttempt, doc.lastEnqueued, doc.attempts)])
  {
    var d := s.runs[t].document;
    var doc := s.documents[d];
    assert DocumentOk(d, doc, s);
    DelayDoubles(doc.attempts);
    assert IsDelay(doc.attempts, RetryDelay(doc.attempts));
  }

  // ---- resets and removals -----------------------------------------------------------------------

  /** A retry of a FAILED document, or a sync of a changed page, makes it pending and due at once with
      no attempt behind it, under the next data version. */
  lemma {:induction false} ResetEffects(s: State, d: DocumentId)
    requires Inv(s)
    ensures Apply(s, RetryFailed(d))
         == if d in s.documents && s.documents[d].status == Failed then Apply(s, SyncUpdate(d)) else s
    ensures d !in s.documents ==> Apply(s, SyncUpdate(d)) == s
    ensures d in s.documents ==>
              var c := s.documents[d].collection;
              Apply(s, SyncUpdate(d)) == s.(
                documents := s.documents[d := Document(c, Pending, None, None, None, None, 0)],
                collections := s.collections[c := Collection(s.collections[c].dataVersion + 1,
                                                             s.collections[c].sourceGeneration)])
  {
    if d in s.documents {
      assert DocumentOk(d, s.documents[d], s);
    }
  }

  /** Reprocessing resets every target and no other document, under one new data version. */
  lemma {:induction false} ReprocessEffects(s: State, c: CollectionId, targets: set<DocumentId>, d: DocumentId)
    requires Inv(s) && Enabled(s, Reprocess(c, targets))
    ensures var s' := Apply(s, Reprocess(c, targets));
            && (d in s'.documents <==> d in s.documents)
            && (d in targets ==> s'.documents[d] == Document(c, Pending, None, None, None, None, 0))
            && (d in s.documents && d !in targets ==> s'.documents[d] == s.documents[d])
            && s'.chunks == s.chunks
            && s'.collections == if targets == {} then s.collections
                                 else s.collections[c := Collection(s.collections[c].dataVersion + 1,
                                                                    s.collections[c].sourceGeneration)]
  {
  }

  /** The sweep stamps what it picked and changes nothing else. */
  lemma {:induction false} RecoverEffects(s: State, now: int, picked: set<DocumentId>, d: DocumentId)
    ensures var s' := Apply(s, Recover(now, picked));
            && (d in s'.documents <==> d in s.documents)
            && (d in s.documents && d !in picked ==> s'.documents[d] == s.documents[d])
            && (d in s.documents && d in picked ==>
              var doc := s.documents[d];
              s'.documents[d] == Document(doc.collection, doc.status, doc.token, doc.lease, doc.nextAttempt, Some(now),
                                          doc.attempts))
            && s' == s.(documents := s'.documents)
  {
  }

  /** An upload is pending, due at once, with no attempt behind it. */
  lemma {:induction false} UploadEffects(s: State, d: DocumentId, c: CollectionId)
    ensures Apply(s, Upload(d, c)) == s.(documents := s.documents[d := Document(c, Pending, None, None, None, None, 0)])
  {
  }

  /** A deletion takes the document with its rows and extractions; its collection's data moves, and
      the generation only if there were rows. */
  lemma {:induction false} DeleteEffects(s: State, d: DocumentId)
    requires Inv(s) && d in s.documents
    ensures var s', c := Apply(s, DeleteDocument(d)), s.documents[d].collection;
            && s'.documents == s.documents - {d}
            && (forall id :: id in s'.chunks <==> id in s.chunks && s.chunks[id].document != d)
            && (forall id :: id in s'.chunks ==> s'.chunks[id] == s.chunks[id])
            && (forall e :: e in s'.extractions <==> e in s.extractions && s.extractions[e].document != d)
            && s'.collections == s.collections[c := Collection(
              s.collections[c].dataVersion + 1,
              s.collections[c].sourceGeneration
              + if forall id :: id in s.chunks ==> s.chunks[id].document != d then 0 else 1)]
  {
    assert DocumentOk(d, s.documents[d], s);
  }

  /** Removing vanished documents takes exactly them and their rows. */
  lemma {:induction false} RemoveVanishedEffects(s: State, vanished: seq<DocumentId>)
    ensures var s' := Apply(s, RemoveVanished(vanished));
            && (forall d :: d in s'.documents <==> d in s.documents && d !in vanished)
            && (forall d :: d in s'.documents ==> s'.documents[d] == s.documents[d])
            && (forall id :: id in s'.chunks <==>
              id in s.chunks && !(s.chunks[id].document in vanished && s.chunks[id].document in s.documents))
            && (forall id :: id in s'.chunks ==> s'.chunks[id] == s.chunks[id])
  {
    if vanished != [] {
      var n := |vanished| - 1;
      RemoveVanishedEffects(s, vanished[..n]);
      assert vanished == vanished[..n] + [vanished[n]];
      DeleteTakes(RemoveVanishedStep(s, vanished[..n]), vanished[n]);
    }
  }

  lemma {:induction false} DeleteTakes(s: State, gone: DocumentId)
    ensures var s' := DeleteStep(s, gone);
            && (forall d :: d in s'.documents <==> d in s.documents && d != gone)
            && (forall d :: d in s'.documents ==> s'.documents[d] == s.documents[d])
            && (forall id :: id in s'.chunks <==>
              id in s.chunks && !(s.chunks[id].document == gone && gone in s.documents))
            && (forall id :: id in s'.chunks ==> s'.chunks[id] == s.chunks[id])
  {
  }

  /** A wipe takes exactly the documents of the collection and their rows; the generation moves only
      if there were rows. */
  lemma {:induction false} WipeEffects(s: State, c: CollectionId)
    requires Inv(s) && c in s.collections
    ensures var s' := Apply(s, Wipe(c));
            && (forall d :: d in s'.documents <==> d in s.documents && s.documents[d].collection != c)
            && (forall d :: d in s'.documents ==> s'.documents[d] == s.documents[d])
            && (forall id :: id in s'.chunks <==> id in s.chunks && s.documents[s.chunks[id].document].collection != c)
            && (forall id :: id in s'.chunks ==> s'.chunks[id] == s.chunks[id])
            && s'.collections == s.collections[c := Collection(
              s.collections[c].dataVersion + 1,
              s.collections[c].sourceGeneration
              + if forall id :: id in s.chunks ==> s.documents[s.chunks[id].document].collection != c then 0 else 1)]
  {
    if Rows(s, c) == map[] {
      forall id | id in s.chunks ensures s.documents[s.chunks[id].document].collection != c {
        assert id !in Rows(s, c);
      }
    }
  }

  // ---- facts rows ----------------------------------------------------------------------------------

  /** The row a finished extraction writes: its text, after the document's other rows. */
  ghost predicate IsFactsRow(chunks: map<ChunkId, ChunkRow>, d: DocumentId, id: ChunkId, text: string) {
    && id in chunks && chunks[id].document == d && chunks[id].content == text
    && forall other :: other in chunks && other != id && chunks[other].document == d ==>
      chunks[other].index < chunks[id].index
  }

  /** Finishing an extraction replaces its facts row: the old one goes, and unless the text is empty a
      new one comes, last of the document; the extraction remembers exactly the new one. */
  lemma {:induction false} FinishExtractionEffects(s: State, e: ExtractionId, text: string)
    requires Inv(s) && e in s.extractions && s.extractions[e].document in s.documents
    ensures var s', x := Apply(s, FinishExtraction(e, Some(text))), s.extractions[e];
            && s'.documents == s.documents
            && (forall id :: id in s.chunks && !(Some(id) == x.factsChunk && s.chunks[id].document == x.document) ==>
              id in s'.chunks && s'.chunks[id] == s.chunks[id])
            && (forall id :: id in s'.chunks && id !in s.chunks ==> id == s.nextChunk && text != "")
            && (x.factsChunk.Some? && x.factsChunk.value in s'.chunks ==>
              s.chunks[x.factsChunk.value].document != x.document)
            && (text == "" ==> s'.extractions == s.extractions[e := Extraction(x.document, None)])
            && (text != "" ==>
              && IsFactsRow(s'.chunks, x.document, s.nextChunk, text)
              && s'.extractions == s.extractions[e := Extraction(x.document, Some(s.nextChunk))])
  {
    hide IndexesUnique, DocumentsOk;
    var x := s.extractions[e];
    assert x.factsChunk.Some? ==> NamesFacts(s, x.factsChunk.value);
  }

  /** Editing an extraction, or removing the row a deleted one left, takes that facts row and no other. */
  lemma {:induction false} FactsRowGoes(s: State, d: DocumentId, id: ChunkId)
    requires Inv(s) && (d, id) in s.removals
    ensures var s' := Apply(s, RemoveFacts(d, id));
            && s'.documents == s.documents
            && (forall other :: other in s'.chunks <==>
              other in s.chunks && !(other == id && s.chunks[other].document == d))
            && (forall other :: other in s'.chunks ==> s'.chunks[other] == s.chunks[other])
            && s'.removals == s.removals - {(d, id)}
  {
  }

  /** Editing an extraction takes its facts row, and the extraction forgets it. */
  lemma {:induction false} PatchExtractionEffects(s: State, e: ExtractionId)
    requires Inv(s) && e in s.extractions && s.extractions[e].document in s.documents
    ensures var s', x := Apply(s, PatchExtraction(e)), s.extractions[e];
            && s'.documents == s.documents
            && (forall id :: id in s'.chunks <==>
              id in s.chunks && !(Some(id) == x.factsChunk && s.chunks[id].document == x.document))
            && (forall id :: id in s'.chunks ==> s'.chunks[id] == s.chunks[id])
            && s'.extractions == s.extractions[e := Extraction(x.document, None)]
  {
    hide IndexesUnique, FactsOk;
    assert s.extractions[e].factsChunk == None ==>
        s.extractions[e := Extraction(s.extractions[e].document, None)] == s.extractions;
  }

  // ---- which step a status tells of --------------------------------------------------------------

  /** A step that changes what a document's row says its status is, or brings it or takes it away. */
  ghost predicate StatusChanges(s: State, s': State, d: DocumentId) {
    if d in s.documents && d in s'.documents then s.documents[d].status != s'.documents[d].status
    else d in s.documents || d in s'.documents
  }

  ghost predicate Stores(s: State, step: Step, d: DocumentId) {
    step.StoreChunks? && Holds(s, step.token) && s.runs[step.token].document == d
  }

  predicate ByWorker(step: Step) {
    step.Claim? || step.StoreChunks? || step.MarkFailed? || step.EmbeddingFailed?
  }

  ghost predicate ReadyOnlyByStore(s: State, step: Step, d: DocumentId) {
    var s' := Apply(s, step);
    && (Stores(s, step, d) ==>
        d in s'.documents && s'.documents[d].status == Ready && StatusChanges(s, s', d))
    && (d in s'.documents && s'.documents[d].status == Ready ==> Stores(s, step, d) || !StatusChanges(s, s', d))
  }

  lemma {:induction false} WorkerMakesReady(s: State, step: Step, d: DocumentId)
    requires Inv(s) && Enabled(s, step) && ByWorker(step)
    ensures ReadyOnlyByStore(s, step, d)
  {
    hide ChunksOk, IndexesUnique, FactsOk, WithoutDocument, Drafted;
    if d in s.documents {
      assert DocumentOk(d, s.documents[d], s);
    }
  }

  lemma {:induction false} OthersMakeNoneReady(s: State, step: Step, d: DocumentId)
    requires Inv(s) && Enabled(s, step) && !ByWorker(step)
    ensures ReadyOnlyByStore(s, step, d)
  {
    hide ChunksOk, IndexesUnique, FactsOk, WithoutDocument, HasChunks, NextIndexOf, DropChunk, DocumentsOk;
    if step.RemoveVanished? {
      RemoveVanishedEffects(s, step.vanished);
    }
  }

  /** Only the store of its token holder makes a document READY, and it always does. */
  lemma {:induction false} OnlyStoresMakeReady(s: State, step: Step, d: DocumentId)
    requires Inv(s) && Enabled(s, step)
    ensures ReadyOnlyByStore(s, step, d)
  {
    hide *;
    if ByWorker(step) {
      WorkerMakesReady(s, step, d);
    } else {
      OthersMakeNoneReady(s, step, d);
    }
  }

  /** The last status change before state n was at step k. */
  ghost predicate LastChange(states: seq<State>, k: nat, n: nat, d: DocumentId) {
    && k < n < |states|
    && StatusChanges(states[k], states[k + 1], d)
    && forall i: nat :: k < i < n ==> !StatusChanges(states[i], states[i + 1], d)
  }

  /** In every run from an empty database a document is READY exactly when the last step that changed
      its status was a store by the holder of its token. */
  lemma {:induction false} ReadyIff(states: seq<State>, steps: seq<Step>, n: nat, d: DocumentId,
                                    collections: map<CollectionId, Collection>)
    requires IsRun(states, steps) && states[0] == Empty(collections) && n <= |steps|
    ensures d in states[n].documents && states[n].documents[d].status == Ready <==>
              exists k: nat :: LastChange(states, k, n, d) && Stores(states[k], steps[k], d)
  {
    if n > 0 {
      ReadyIff(states, steps, n - 1, d, collections);
      InvAlways(states, steps, n - 1);
      OnlyStoresMakeReady(states[n - 1], steps[n - 1], d);
      ChangeGoesOn(states, n - 1, d);
    }
  }

  lemma {:induction false} ChangeGoesOn(states: seq<State>, n: nat, d: DocumentId)
    requires n + 1 < |states|
    ensures StatusChanges(states[n], states[n + 1], d) ==>
              forall k: nat {:trigger LastChange(states, k, n + 1, d)} :: LastChange(states, k, n + 1, d) <==> k == n
    ensures !StatusChanges(states[n], states[n + 1], d) ==>
              forall k: nat {:trigger LastChange(states, k, n + 1, d)} ::
                LastChange(states, k, n + 1, d) <==> LastChange(states, k, n, d)
  {
  }

  // ---- a reset gives four fresh attempts ---------------------------------------------------------

  /** A reset document is due at once: the sweep may pick it, and any delivery takes it. */
  lemma {:induction false} ResetIsDue(s: State, reset: Step, d: DocumentId, now: int, eager: bool)
    requires Inv(s) && Enabled(s, reset) && Resets(s, reset, d) && d in s.documents
    requires reset.RetryFailed? ==> s.documents[d].status == Failed
    requires d in Apply(s, reset).documents
    ensures var doc := Apply(s, reset).documents[d];
            Due(doc, now) && Unthrottled(doc, now) && Claimable(doc, now, eager) && doc.attempts == 0
  {
    if reset.RemoveVanished? {
      RemoveVanishedEffects(s, reset.vanished);
    }
  }

  /** After a reset, and until the next, a claim of a claimable document takes it exactly if fewer
      than four have. */
  lemma {:induction false} FreshAttempts(s: State, reset: Step, states: seq<State>, steps: seq<Step>, d: DocumentId,
                                         n: nat, t: Token, now: int, eager: bool)
    requires Inv(s) && Enabled(s, reset) && Resets(s, reset, d) && d in s.documents
    requires reset.RetryFailed? ==> s.documents[d].status == Failed
    requires states != [] && states[0] == Apply(s, reset) && d in states[0].documents
    requires IsRun(states, steps) && ResetFree(states, steps, d) && n <= |steps| && t !in states[n].runs
    ensures d in states[n].documents
    ensures Claimable(states[n].documents[d], now, eager) ==>
              (Holds(Apply(states[n], Claim(d, t, now, eager)), t) <==> ClaimCount(states, steps, d, n) < 4)
  {
    StepKeepsInv(s, reset);
    if reset.RemoveVanished? {
      RemoveVanishedEffects(s, reset.vanished);
    }
    BoundedAttempts(states, steps, d, n);
    InvAlways(states, steps, n);
    ClaimEffects(states[n], d, t, now, eager);
  }
}
