/** What every transaction keeps, whatever runs between the steps of a worker. */
module IngestionInvariant {
  import opened Common
  import opened Ingestion

  /** A document row is PROCESSING exactly while a run holds its token, and that run's own
      memory of the attempt number agrees with the row. */
  ghost predicate DocumentOk(d: DocumentId, doc: Document, s: State) {
    && doc.collection in s.collections
    && (doc.status == Processing <==> doc.token.Some?)
    && (doc.token.Some? ==> doc.lease.Some? && doc.attempts >= 1)
    && doc.attempts <= MAX_ATTEMPTS
    && (doc.status == Pending ==> doc.attempts < MAX_ATTEMPTS)
    && (doc.token.Some? ==> doc.token.value in s.runs && s.runs[doc.token.value] == Run(d, doc.attempts))
  }

  ghost predicate DocumentsOk(s: State) {
    forall d :: d in s.documents ==> DocumentOk(d, s.documents[d], s)
  }

  ghost predicate ChunksOk(s: State) {
    forall id :: id in s.chunks ==> id < s.nextChunk && s.chunks[id].document in s.documents
  }

  /** The unique constraint (document_id, chunk_index). */
  ghost predicate IndexesUnique(s: State) {
    forall id, id' :: id in s.chunks && id' in s.chunks && id != id' && s.chunks[id].document == s.chunks[id'].document
      ==> s.chunks[id].index != s.chunks[id'].index
  }

  /** A remembered facts chunk id never names a row some ingestion run wrote: ids are not
      reused, so a stale id names nothing. */
  ghost predicate NamesFacts(s: State, id: ChunkId) {
    id < s.nextChunk && (id in s.chunks ==> s.chunks[id].origin.Facts?)
  }

  ghost predicate FactsOk(s: State) {
    && (forall e ::
        e in s.extractions && s.extractions[e].factsChunk.Some?
        ==> NamesFacts(s, s.extractions[e].factsChunk.value))
    && (forall d, id :: (d, id) in s.removals ==> NamesFacts(s, id))
  }

  ghost predicate Inv(s: State) {
    DocumentsOk(s) && ChunksOk(s) && IndexesUnique(s) && FactsOk(s)
  }

  /** The empty deployment: collections only. */
  function Empty(collections: map<CollectionId, Collection>): State {
    State(collections, map[], map[], 0, map[], {}, map[])
  }

  lemma {:induction false} DeleteKeepsInv(s: State, d: DocumentId)
    requires Inv(s)
    ensures Inv(DeleteStep(s, d))
  {
  }

  lemma {:induction false} RemoveVanishedKeepsInv(s: State, vanished: seq<DocumentId>)
    requires Inv(s)
    ensures Inv(RemoveVanishedStep(s, vanished))
  {
    if vanished != [] {
      RemoveVanishedKeepsInv(s, vanished[..|vanished| - 1]);
      DeleteKeepsInv(RemoveVanishedStep(s, vanished[..|vanished| - 1]), vanished[|vanished| - 1]);
    }
  }

  lemma {:induction false} StoreKeepsInv(s: State, t: Token, drafts: seq<Draft>)
    requires Inv(s) && t in s.runs && DistinctIndexes(drafts)
    ensures Inv(StoreStep(s, t, drafts))
  {
  }

  lemma {:induction false} FinishExtractionKeepsInv(s: State, e: ExtractionId, text: Option<string>)
    requires Inv(s)
    ensures Inv(FinishExtractionStep(s, e, text))
  {
  }

  lemma {:induction false} WipeKeepsInv(s: State, c: CollectionId)
    requires Inv(s)
    ensures Inv(WipeStep(s, c))
  {
  }

  lemma {:induction false} ClaimKeepsInv(s: State, d: DocumentId, t: Token, now: int, eager: bool)
    requires Inv(s) && t !in s.runs
    ensures Inv(ClaimStep(s, d, t, now, eager))
  {
  }

  lemma {:induction false} EmbeddingFailedKeepsInv(s: State, t: Token, now: int)
    requires Inv(s) && t in s.runs
    ensures Inv(EmbeddingFailedStep(s, t, now))
  {
    if Holds(s, t) {
      assert DocumentOk(s.runs[t].document, s.documents[s.runs[t].document], s);
    }
  }

  lemma {:induction false} RecoverKeepsInv(s: State, now: int, picked: set<DocumentId>)
    requires Inv(s)
    ensures Inv(RecoverStep(s, now, picked))
  {
    var s' := RecoverStep(s, now, picked);
    forall d | d in s'.documents ensures DocumentOk(d, s'.documents[d], s') {
      assert DocumentOk(d, s.documents[d], s);
    }
  }

  lemma {:induction false} MarkFailedKeepsInv(s: State, t: Token)
    requires Inv(s)
    ensures Inv(MarkFailedStep(s, t))
  {
  }

  lemma {:induction false} RequeueKeepsInv(s: State, d: DocumentId)
    requires Inv(s)
    ensures Inv(RequeueStep(s, d))
  {
  }

  lemma {:induction false} ReprocessKeepsInv(s: State, c: CollectionId, targets: set<DocumentId>)
    requires Inv(s)
    ensures Inv(ReprocessStep(s, c, targets))
  {
  }

  lemma {:induction false} PatchExtractionKeepsInv(s: State, e: ExtractionId)
    requires Inv(s)
    ensures Inv(PatchExtractionStep(s, e))
  {
  }

  lemma {:induction false} DeleteExtractionKeepsInv(s: State, e: ExtractionId)
    requires Inv(s)
    ensures Inv(DeleteExtractionStep(s, e))
  {
  }

  lemma {:induction false} RemoveFactsKeepsInv(s: State, d: DocumentId, id: ChunkId)
    requires Inv(s)
    ensures Inv(RemoveFactsStep(s, d, id))
  {
  }

  lemma {:induction false} UploadKeepsInv(s: State, d: DocumentId, c: CollectionId)
    requires Inv(s) && d !in s.documents && c in s.collections
    ensures Inv(WithDocument(s, d, NewDocument(c)))
  {
  }

  lemma {:induction false} StepKeepsInv(s: State, step: Step)
    requires Inv(s) && Enabled(s, step)
    ensures Inv(Apply(s, step))
  {
    match step
    case Claim(d, t, now, eager) => ClaimKeepsInv(s, d, t, now, eager);
    case EmbeddingFailed(t, now) => EmbeddingFailedKeepsInv(s, t, now);
    case Recover(now, picked) => RecoverKeepsInv(s, now, picked);
    case StoreChunks(t, drafts) => StoreKeepsInv(s, t, drafts);
    case DeleteDocument(d) => DeleteKeepsInv(s, d);
    case RemoveVanished(vanished) => RemoveVanishedKeepsInv(s, vanished);
    case Wipe(c) => WipeKeepsInv(s, c);
    case FinishExtraction(e, text) => FinishExtractionKeepsInv(s, e, text);
    case Upload(d, c) => UploadKeepsInv(s, d, c);
    case MarkFailed(t) => MarkFailedKeepsInv(s, t);
    case RetryFailed(d) => RequeueKeepsInv(s, d);
    case SyncUpdate(d) => RequeueKeepsInv(s, d);
    case Reprocess(c, targets) => ReprocessKeepsInv(s, c, targets);
    case PatchExtraction(e) => PatchExtractionKeepsInv(s, e);
    case DeleteExtraction(e) => DeleteExtractionKeepsInv(s, e);
    case RemoveFacts(d, id) => RemoveFactsKeepsInv(s, d, id);
    case Publish(_) =>
    case StartExtraction(_, _) =>
  }

  /** The invariant holds in every state of every run. */
  lemma {:induction false} InvAlways(states: seq<State>, steps: seq<Step>, n: nat)
    requires IsRun(states, steps) && Inv(states[0]) && n <= |steps|
    ensures Inv(states[n])
  {
    if n > 0 {
      InvAlways(states, steps, n - 1);
      StepKeepsInv(states[n - 1], steps[n - 1]);
    }
  }

  lemma {:induction false} EmptyIsInv(collections: map<CollectionId, Collection>)
    ensures Inv(Empty(collections))
  {
  }
}
