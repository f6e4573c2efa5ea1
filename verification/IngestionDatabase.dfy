/** The transactions as they are written: rows read, checked and updated in place.  Each
    method leaves the tables in exactly the state the specification step names. */
module IngestionDatabase {
  import opened Common
  import opened Ingestion

  const RECOVERY_BATCH := 100

  lemma {:induction false} DraftedGrows(kept: map<ChunkId, ChunkRow>, d: DocumentId, t: Token, drafts: seq<Draft>,
                                        first: ChunkId, i: nat)
    requires i < |drafts|
    ensures kept + Drafted(d, t, drafts[..i + 1], first)
         == (kept + Drafted(d, t, drafts[..i], first))
              [first + i := ChunkRow(d, drafts[i].index, drafts[i].content, Ingested(t))]
  {
    assert drafts[..i + 1][..i] == drafts[..i];
  }

  class Database {
    var collections: map<CollectionId, Collection>
    var documents: map<DocumentId, Document>
    var chunks: map<ChunkId, ChunkRow>
    var nextChunk: ChunkId
    var extractions: map<ExtractionId, Extraction>
    var removals: set<(DocumentId, ChunkId)>
    var runs: map<Token, Run>

    ghost function Snapshot(): State
      reads this
    {
      State(collections, documents, chunks, nextChunk, extractions, removals, runs)
    }

    constructor (initial: map<CollectionId, Collection>)
      ensures Snapshot() == State(initial, map[], map[], 0, map[], {}, map[])
    {
      collections, documents, chunks, nextChunk := initial, map[], map[], 0;
      extractions, removals, runs := map[], {}, map[];
    }

    method Bump(c: CollectionId, dataVersion: nat, sourceGeneration: nat)
      modifies this`collections
      ensures collections == Bumped(old(collections), c, dataVersion, sourceGeneration)
    {
      if c in collections {
        var collection := collections[c];
        collections := collections[c := Collection(collection.dataVersion + dataVersion,
                                                   collection.sourceGeneration + sourceGeneration)];
      }
    }

    /** The opening transaction of a delivery; the attempt number when the worker may go on. */
    method ClaimDocument(d: DocumentId, token: Token, now: int, eager: bool) returns (attempt: Option<nat>)
      requires token !in runs
      modifies this
      ensures Snapshot() == Apply(old(Snapshot()), Claim(d, token, now, eager))
      ensures attempt.Some? <==> Holds(Snapshot(), token)
      ensures attempt.Some? ==> runs[token] == Run(d, attempt.value)
    {
      attempt := None;
      if d !in documents {
        return;
      }
      var document := documents[d];
      if document.status == Ready || document.status == Failed {
        return;
      }
      if document.status == Processing && document.lease.Some? && document.lease.value > now {
        return;
      }
      if document.status == Pending && document.nextAttempt.Some? && document.nextAttempt.value > now && !eager {
        return;
      }
      if document.attempts >= MAX_ATTEMPTS {
        document := document.(status := Failed);
        document := document.(token := None);
        document := document.(lease := None);
      } else {
        document := document.(token := Some(token));
        document := document.(lease := Some(now + LEASE_SECONDS));
        document := document.(attempts := document.attempts + 1);
        attempt := Some(document.attempts);
        document := document.(status := Processing);
        runs := runs[token := Run(d, document.attempts)];
      }
      documents := documents[d := document];
    }

    method InsertDrafts(d: DocumentId, token: Token, drafts: seq<Draft>)
      modifies this`chunks, this`nextChunk
      ensures chunks == old(chunks) + Drafted(d, token, drafts, old(nextChunk))
      ensures nextChunk == old(nextChunk) + |drafts|
    {
      ghost var kept := chunks;
      ghost var first := nextChunk;
      for i := 0 to |drafts|
        invariant nextChunk == first + i
        invariant chunks == kept + Drafted(d, token, drafts[..i], first)
      {
        DraftedGrows(kept, d, token, drafts, first, i);
        chunks := chunks[nextChunk := ChunkRow(d, drafts[i].index, drafts[i].content, Ingested(token))];
        nextChunk := nextChunk + 1;
      }
      assert drafts[..|drafts|] == drafts;
    }

    /** Fenced replacement of a document's chunks; false when the run no longer owns it. */
    method StoreChunks(token: Token, drafts: seq<Draft>) returns (stored: bool)
      requires token in runs
      modifies this
      ensures Snapshot() == Apply(old(Snapshot()), Step.StoreChunks(token, drafts))
      ensures stored == old(Holds(Snapshot(), token))
      ensures stored ==>
                var d := runs[token].document;
                && d in documents && documents[d].status == Ready
                && documents[d].token == None && documents[d].lease == None
    {
      var d := runs[token].document;
      if d !in documents || documents[d].token != Some(token) {
        return false;
      }
      chunks := WithoutDocument(chunks, d);
      InsertDrafts(d, token, drafts);
      var document := documents[d];
      document := document.(status := Ready);
      document := document.(token := None);
      document := document.(lease := None);
      documents := documents[d := document];
      Bump(document.collection, 0, 1);
      return true;
    }

    method MarkFailed(token: Token)
      requires token in runs
      modifies this
      ensures Snapshot() == Apply(old(Snapshot()), Step.MarkFailed(token))
    {
      var d := runs[token].document;
      if d !in documents || documents[d].token != Some(token) {
        return;
      }
      documents := documents[d := documents[d].(status := Failed, token := None, lease := None)];
    }

    /** An unavailable embedding provider: give up after the last attempt, else back off. */
    method EmbeddingFailed(token: Token, now: int)
      requires token in runs
      modifies this
      ensures Snapshot() == Apply(old(Snapshot()), Step.EmbeddingFailed(token, now))
    {
      var attempt := runs[token].attempt;
      if attempt >= MAX_ATTEMPTS {
        MarkFailed(token);
        return;
      }
      var delay := RetryDelay(attempt);
      var d := runs[token].document;
      if d !in documents || documents[d].token != Some(token) {
        return;
      }
      var document := documents[d];
      document := document.(status := Pending);
      document := document.(token := None);
      document := document.(lease := None);
      document := document.(nextAttempt := Some(now + delay));
      documents := documents[d := document];
    }

    /** One recovery sweep over the unlocked rows, oldest first: at most a batch is reserved,
        and a sweep that stops early left nothing due behind. */
    method RecoverIngestion(now: int, rows: seq<DocumentId>) returns (ids: seq<DocumentId>)
      modifies this
      ensures Snapshot() == Apply(old(Snapshot()), Recover(now, set d | d in ids))
      ensures Enabled(old(Snapshot()), Recover(now, set d | d in ids))
      ensures |ids| <= 100
      ensures |ids| < 100 ==>
                forall d ::
                  d in rows && d in old(documents) && Due(old(documents)[d], now)
                  && Unthrottled(old(documents)[d], now) ==>
                  d in ids
    {
      ids := [];
      var i := 0;
      while i < |rows| && |ids| < RECOVERY_BATCH
        invariant 0 <= i <= |rows| && |ids| <= RECOVERY_BATCH
        invariant forall d :: d in ids ==> d in documents && Due(documents[d], now) && Unthrottled(documents[d], now)
        invariant forall j ::
          0 <= j < i && rows[j] in documents && Due(documents[rows[j]], now)
          && Unthrottled(documents[rows[j]], now) ==>
          rows[j] in ids
      {
        var d := rows[i];
        if d in documents && Due(documents[d], now) && Unthrottled(documents[d], now) && d !in ids {
          ids := ids + [d];
        }
        i := i + 1;
      }
      var k := 0;
      while k < |ids|
        invariant 0 <= k <= |ids|
        invariant documents == RecoverStep(old(Snapshot()), now, set d | d in ids[..k]).documents
        invariant unchanged(this`collections) && unchanged(this`chunks) && unchanged(this`nextChunk)
        invariant unchanged(this`extractions) && unchanged(this`removals) && unchanged(this`runs)
      {
        assert ids[..k + 1] == ids[..k] + [ids[k]];
        assert ids[k] in ids;
        documents := documents[ids[k] := documents[ids[k]].(lastEnqueued := Some(now))];
        k := k + 1;
      }
      assert ids[..|ids|] == ids;
    }

    /** The row reset shared by retry and source sync. */
    method Requeue(d: DocumentId)
      modifies this
      ensures Snapshot() == RequeueStep(old(Snapshot()), d)
    {
      if d !in documents {
        return;
      }
      var document := documents[d];
      document := document.(status := Pending);
      document := document.(attempts := 0);
      document := document.(token := None);
      document := document.(lease := None);
      document := document.(nextAttempt := None);
      document := document.(lastEnqueued := None);
      documents := documents[d := document];
      Bump(document.collection, 1, 0);
    }

    /** Only a failed document can be retried. */
    method RetryFailedDocument(d: DocumentId) returns (accepted: bool)
      modifies this
      ensures Snapshot() == Apply(old(Snapshot()), RetryFailed(d))
      ensures accepted <==> d in old(documents) && old(documents)[d].status == Failed
    {
      if d !in documents || documents[d].status != Failed {
        return false;
      }
      Requeue(d);
      return true;
    }

    /** Back to pending, one row after another, under one data_version. */
    method ReprocessDocuments(c: CollectionId, targets: seq<DocumentId>)
      requires c in collections && forall d :: d in targets ==> InCollection(documents, d, c)
      modifies this
      ensures Snapshot() == ReprocessStep(old(Snapshot()), c, set d | d in targets)
    {
      ghost var all := set d | d in targets;
      if |targets| > 0 {
        assert targets[0] in all;
        Bump(c, 1, 0);
      }
      var k := 0;
      while k < |targets|
        invariant 0 <= k <= |targets|
        invariant documents.Keys == old(documents).Keys
        invariant forall d :: d in documents ==>
          documents[d] == if d in targets[..k] then Requeued(old(documents)[d]) else old(documents)[d]
        invariant collections == if |targets| > 0 then Bumped(old(collections), c, 1, 0) else old(collections)
        invariant unchanged(this`chunks) && unchanged(this`nextChunk)
        invariant unchanged(this`extractions) && unchanged(this`removals) && unchanged(this`runs)
      {
        assert targets[..k + 1] == targets[..k] + [targets[k]];
        assert targets[k] in targets;
        var d := targets[k];
        documents := documents[d := documents[d].(status := Pending, attempts := 0, token := None, lease := None,
                                                  nextAttempt := None, lastEnqueued := None)];
        k := k + 1;
      }
      assert targets[..|targets|] == targets;
      if |targets| == 0 {
        assert documents == old(documents);
      } else {
        assert documents == ReprocessStep(old(Snapshot()), c, all).documents;
      }
    }

    /** Delete with its chunks, stamping the generation only when there were chunks. */
    method DeleteDocument(d: DocumentId)
      modifies this
      ensures Snapshot() == DeleteStep(old(Snapshot()), d)
    {
      if d !in documents {
        return;
      }
      var c := documents[d].collection;
      var mine := set id | id in chunks && chunks[id].document == d;
      var hadChunks := mine != {};
      assert hadChunks <==> HasChunks(chunks, d) by {
        if HasChunks(chunks, d) {
          var id :| id in chunks && chunks[id].document == d;
          assert id in mine;
        }
      }
      Bump(c, 1, 0);
      if hadChunks {
        Bump(c, 0, 1);
      }
      documents := documents - {d};
      chunks := WithoutDocument(chunks, d);
      extractions := map e | e in extractions && extractions[e].document != d :: extractions[e];
    }

    /** Documents the source no longer lists, all in one transaction. */
    method RemoveVanished(vanished: seq<DocumentId>)
      modifies this
      ensures Snapshot() == RemoveVanishedStep(old(Snapshot()), vanished)
    {
      var k := 0;
      while k < |vanished|
        invariant 0 <= k <= |vanished|
        invariant Snapshot() == RemoveVanishedStep(old(Snapshot()), vanished[..k])
      {
        assert vanished[..k + 1][..k] == vanished[..k];
        DeleteDocument(vanished[k]);
        k := k + 1;
      }
      assert vanished[..|vanished|] == vanished;
    }

    /** The sandbox reset of a whole collection. */
    method WipeCollection(c: CollectionId)
      modifies this
      ensures Snapshot() == WipeStep(old(Snapshot()), c)
    {
      if c !in collections {
        return;
      }
      var hadChunks := Rows(State(collections, documents, chunks, nextChunk, extractions, removals, runs), c) != map[];
      Bump(c, 1, 0);
      if hadChunks {
        Bump(c, 0, 1);
      }
      chunks := map id | id in chunks && !InCollection(documents, chunks[id].document, c) :: chunks[id];
      extractions := map e | e in extractions && !InCollection(documents, extractions[e].document, c) :: extractions[e];
      documents := map d | d in documents && documents[d].collection != c :: documents[d];
    }

    /** The facts chunk is replaced inside the transaction that finishes the extraction. */
    method FinishExtraction(e: ExtractionId, text: Option<string>)
      modifies this
      ensures Snapshot() == FinishExtractionStep(old(Snapshot()), e, text)
    {
      if e !in extractions || extractions[e].document !in documents {
        return;
      }
      var x := extractions[e];
      if x.factsChunk.Some? {
        chunks := DropChunk(chunks, x.document, x.factsChunk.value);
        Bump(documents[x.document].collection, 0, 1);
      }
      extractions := extractions[e := x.(factsChunk := None)];
      if text.Some? && text.value != "" {
        InsertFacts(e, text.value);
      }
    }

    method InsertFacts(e: ExtractionId, text: string)
      requires e in extractions && extractions[e].document in documents
      modifies this`chunks, this`nextChunk, this`extractions, this`collections
      ensures chunks == old(chunks)[old(nextChunk) :=
                ChunkRow(old(extractions)[e].document,
                         NextIndexOf(old(chunks), old(extractions)[e].document, old(nextChunk)), text, Facts(e))]
      ensures nextChunk == old(nextChunk) + 1
      ensures extractions == old(extractions)[e := old(extractions)[e].(factsChunk := Some(old(nextChunk)))]
      ensures collections == Bumped(old(collections), documents[old(extractions)[e].document].collection, 0, 1)
    {
      var x := extractions[e];
      var nextIndex := NextIndexOf(chunks, x.document, nextChunk);
      chunks := chunks[nextChunk := ChunkRow(x.document, nextIndex, text, Facts(e))];
      extractions := extractions[e := x.(factsChunk := Some(nextChunk))];
      nextChunk := nextChunk + 1;
      Bump(documents[x.document].collection, 0, 1);
    }

    /** Removal of a facts chunk whose extraction row is already gone. */
    method RemoveFactsChunk(d: DocumentId, id: ChunkId)
      modifies this
      ensures Snapshot() == Apply(old(Snapshot()), RemoveFacts(d, id))
    {
      if d in documents {
        Bump(documents[d].collection, 0, 1);
      }
      if id in chunks && chunks[id].document == d {
        chunks := chunks - {id};
      }
      removals := removals - {(d, id)};
    }
  }
}
