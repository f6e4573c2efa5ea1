/** Safety of the ingestion protocol over whole runs: fencing, one-run chunk sets, truthful
    version stamps and bounded attempts. */
module IngestionTheorems {
  import opened Common
  import opened Ingestion
  import opened IngestionInvariant

  // ---- fencing --------------------------------------------------------------------------

  ghost predicate Superseded(s: State, t: Token) {
    t in s.runs && !Holds(s, t)
  }

  lemma {:induction false} RemoveVanishedSupersedes(s: State, vanished: seq<DocumentId>, t: Token)
    requires Superseded(s, t)
    ensures Superseded(RemoveVanishedStep(s, vanished), t) && RemoveVanishedStep(s, vanished).runs == s.runs
  {
    if vanished != [] {
      RemoveVanishedSupersedes(s, vanished[..|vanished| - 1], t);
    }
  }

  /** Tokens are drawn fresh, so a token that was replaced or cleared never comes back. */
  lemma {:induction false} SupersededStays(s: State, step: Step, t: Token)
    requires Enabled(s, step) && Superseded(s, t)
    ensures Superseded(Apply(s, step), t)
  {
    if step.RemoveVanished? {
      RemoveVanishedSupersedes(s, step.vanished, t);
    } else if WritesFacts(step) {
      FactsSupersede(s, step, t);
    } else {
      OtherSupersedes(s, step, t);
    }
  }

  predicate WritesFacts(step: Step) {
    || step.StartExtraction? || step.FinishExtraction? || step.PatchExtraction? || step.DeleteExtraction?
    || step.RemoveFacts?
  }

  lemma {:induction false} FactsSupersede(s: State, step: Step, t: Token)
    requires Enabled(s, step) && Superseded(s, t) && WritesFacts(step)
    ensures Superseded(Apply(s, step), t)
  {
  }

  lemma {:induction false} OtherSupersedes(s: State, step: Step, t: Token)
    requires Enabled(s, step) && Superseded(s, t) && !WritesFacts(step) && !step.RemoveVanished?
    ensures Superseded(Apply(s, step), t)
  {
  }

  lemma {:induction false} SupersededForever(states: seq<State>, steps: seq<Step>, i: nat, j: nat, t: Token)
    requires IsRun(states, steps) && i <= j <= |steps| && Superseded(states[i], t)
    ensures Superseded(states[j], t)
  {
    if i < j {
      SupersededForever(states, steps, i, j - 1, t);
      SupersededStays(states[j - 1], steps[j - 1], t);
    }
  }

  /** Write fencing: once a run has lost its document, nothing it does later has any effect. */
  lemma {:induction false} WriteFencing(states: seq<State>, steps: seq<Step>, i: nat, j: nat, t: Token)
    requires IsRun(states, steps) && i <= j <= |steps| && Superseded(states[i], t)
    ensures forall drafts :: StoreStep(states[j], t, drafts) == states[j]
    ensures MarkFailedStep(states[j], t) == states[j]
    ensures forall now :: EmbeddingFailedStep(states[j], t, now) == states[j]
  {
    SupersededForever(states, steps, i, j, t);
  }

  /** A redelivery takes a held document over exactly when its lease has run out, and the token
      changes hands then unless the attempts are used up. */
  lemma {:induction false} TakeoverNeedsExpiredLease(s: State, d: DocumentId, t: Token, now: int, eager: bool)
    requires Inv(s) && t !in s.runs && d in s.documents && s.documents[d].token.Some?
    ensures ClaimStep(s, d, t, now, eager) != s <==> s.documents[d].lease.value <= now
    ensures Holds(ClaimStep(s, d, t, now, eager), t) <==>
      s.documents[d].lease.value <= now
      && s.documents[d].attempts < MAX_ATTEMPTS
  {
    assert DocumentOk(d, s.documents[d], s);
    var s' := ClaimStep(s, d, t, now, eager);
    if ClaimActs(s.documents[d], now, eager) {
      assert s'.documents[d].token != s.documents[d].token;
    }
  }

  // ---- one run per chunk set --------------------------------------------------------------

  /** Row id, when ingestion wrote it for document d (its facts chunks left out). */
  function OwnRow(s: State, id: ChunkId, d: DocumentId): Option<ChunkRow> {
    if id in s.chunks && s.chunks[id].document == d && s.chunks[id].origin.Ingested? then Some(s.chunks[id]) else None
  }

  /** The rows of a document written by ingestion. */
  function OwnRows(s: State, d: DocumentId): map<ChunkId, ChunkRow> {
    map id | id in s.chunks && OwnRow(s, id, d).Some? :: s.chunks[id]
  }

  ghost predicate SameOwn(s: State, s': State, d: DocumentId) {
    forall id :: OwnRow(s', id, d) == OwnRow(s, id, d)
  }

  ghost predicate NoOwn(s: State, d: DocumentId) {
    forall id :: OwnRow(s, id, d) == None
  }

  /** Step k stored run t's complete draft list for d while t held d. */
  ghost predicate StoredAt(states: seq<State>, steps: seq<Step>, k: nat, d: DocumentId)
    requires |states| == |steps| + 1 && k < |steps|
  {
    steps[k].StoreChunks? && Holds(states[k], steps[k].token) && states[k].runs[steps[k].token].document == d
  }

  ghost function RowsStoredAt(states: seq<State>, steps: seq<Step>, k: nat, d: DocumentId): map<ChunkId, ChunkRow>
    requires |states| == |steps| + 1 && k < |steps| && StoredAt(states, steps, k, d)
  {
    Drafted(d, steps[k].token, steps[k].drafts, states[k].nextChunk)
  }

  lemma {:induction false} DeleteOwn(s: State, gone: DocumentId, d: DocumentId)
    ensures gone == d && d in s.documents ==> NoOwn(DeleteStep(s, gone), d)
    ensures !(gone == d && d in s.documents) ==> SameOwn(s, DeleteStep(s, gone), d)
  {
  }

  lemma {:induction false} RemoveVanishedOwn(s: State, vanished: seq<DocumentId>, d: DocumentId)
    ensures SameOwn(s, RemoveVanishedStep(s, vanished), d) || NoOwn(RemoveVanishedStep(s, vanished), d)
  {
    if vanished != [] {
      RemoveVanishedOwn(s, vanished[..|vanished| - 1], d);
      DeleteOwn(RemoveVanishedStep(s, vanished[..|vanished| - 1]), vanished[|vanished| - 1], d);
    }
  }

  lemma {:induction false} StoreOwn(s: State, t: Token, drafts: seq<Draft>)
    requires Inv(s) && Holds(s, t)
    ensures OwnRows(StoreStep(s, t, drafts), s.runs[t].document) == Drafted(s.runs[t].document, t, drafts, s.nextChunk)
  {
  }

  lemma {:induction false} StoreSpares(s: State, t: Token, drafts: seq<Draft>, d: DocumentId)
    requires Inv(s) && Holds(s, t) && s.runs[t].document != d
    ensures SameOwn(s, StoreStep(s, t, drafts), d)
  {
  }

  lemma {:induction false} WipeOwn(s: State, c: CollectionId, d: DocumentId)
    ensures SameOwn(s, WipeStep(s, c), d) || NoOwn(WipeStep(s, c), d)
  {
    if c in s.collections && InCollection(s.documents, d, c) {
      assert NoOwn(WipeStep(s, c), d);
    } else {
      assert SameOwn(s, WipeStep(s, c), d);
    }
  }

  lemma {:induction false} DroppedOwn(s: State, d: DocumentId, gone: DocumentId, id: ChunkId)
    requires NamesFacts(s, id)
    ensures SameOwn(s, s.(chunks := DropChunk(s.chunks, gone, id)), d)
  {
  }

  lemma {:induction false} FinishExtractionOwn(s: State, e: ExtractionId, text: Option<string>, d: DocumentId)
    requires Inv(s)
    ensures SameOwn(s, FinishExtractionStep(s, e, text), d)
  {
    if e in s.extractions && s.extractions[e].factsChunk.Some? {
      DroppedOwn(s, d, s.extractions[e].document, s.extractions[e].factsChunk.value);
    }
  }

  lemma {:induction false} PatchExtractionOwn(s: State, e: ExtractionId, d: DocumentId)
    requires Inv(s)
    ensures SameOwn(s, PatchExtractionStep(s, e), d)
  {
    if e in s.extractions && s.extractions[e].factsChunk.Some? {
      DroppedOwn(s, d, s.extractions[e].document, s.extractions[e].factsChunk.value);
    }
  }

  lemma {:induction false} StepOwn(s: State, step: Step, d: DocumentId)
    requires Inv(s) && Enabled(s, step)
    requires !(step.StoreChunks? && Holds(s, step.token) && s.runs[step.token].document == d)
    ensures SameOwn(s, Apply(s, step), d) || NoOwn(Apply(s, step), d)
  {
    match step
    case StoreChunks(t, drafts) =>
      if Holds(s, t) {
        StoreSpares(s, t, drafts, d);
      }
    case RemoveVanished(vanished) => RemoveVanishedOwn(s, vanished, d);
    case DeleteDocument(gone) => DeleteOwn(s, gone, d);
    case Wipe(c) => WipeOwn(s, c, d);
    case FinishExtraction(e, text) => FinishExtractionOwn(s, e, text, d);
    case PatchExtraction(e) => PatchExtractionOwn(s, e, d);
    case RemoveFacts(gone, id) => DroppedOwn(s, d, gone, id);
    case _ => assert Apply(s, step).chunks == s.chunks;
  }

  lemma {:induction false} SameOwnRows(s: State, s': State, d: DocumentId)
    requires SameOwn(s, s', d)
    ensures OwnRows(s', d) == OwnRows(s, d)
  {
    forall id
      ensures id in OwnRows(s, d) <==> id in OwnRows(s', d)
      ensures id in OwnRows(s, d) ==> OwnRows(s', d)[id] == OwnRows(s, d)[id]
    {
      assert OwnRow(s', id, d) == OwnRow(s, id, d);
    }
  }

  lemma {:induction false} NoOwnRows(s: State, d: DocumentId)
    requires NoOwn(s, d)
    ensures OwnRows(s, d) == map[]
  {
    forall id ensures id !in OwnRows(s, d) {
      assert OwnRow(s, id, d) == None;
    }
  }

  /** Never a mixture of two runs, never part of a run, never a duplicate: at any moment the
      ingested rows of a document are none, or exactly the complete draft list of one run,
      stored while that run held the document. */
  lemma {:induction false} OneRunPerDocument(states: seq<State>, steps: seq<Step>, n: nat, d: DocumentId,
                                             collections: map<CollectionId, Collection>)
    requires IsRun(states, steps) && states[0] == Empty(collections) && n <= |steps|
    ensures OwnRows(states[n], d) == map[] ||
            exists k :: 0 <= k < n && StoredAt(states, steps, k, d)
              && OwnRows(states[n], d) == RowsStoredAt(states, steps, k, d)
  {
    EmptyIsInv(collections);
    if n > 0 {
      OneRunPerDocument(states, steps, n - 1, d, collections);
      InvAlways(states, steps, n - 1);
      if StoredAt(states, steps, n - 1, d) {
        StoreOwn(states[n - 1], steps[n - 1].token, steps[n - 1].drafts);
        assert OwnRows(states[n], d) == RowsStoredAt(states, steps, n - 1, d);
      } else {
        StepOwn(states[n - 1], steps[n - 1], d);
        if SameOwn(states[n - 1], states[n], d) {
          SameOwnRows(states[n - 1], states[n], d);
        } else {
          NoOwnRows(states[n], d);
        }
      }
    }
  }

  // ---- version stamps -----------------------------------------------------------------------

  function RowOf(s: State, id: ChunkId, c: CollectionId): Option<ChunkRow> {
    if id in s.chunks && InCollection(s.documents, s.chunks[id].document, c) then Some(s.chunks[id]) else None
  }

  function VisibleRow(s: State, id: ChunkId, c: CollectionId): Option<ChunkRow> {
    if RowOf(s, id, c).Some? && s.documents[s.chunks[id].document].status == Ready then Some(s.chunks[id]) else None
  }

  /** What retrieval can see: the rows of READY documents. */
  function VisibleRows(s: State, c: CollectionId): map<ChunkId, ChunkRow> {
    map id | id in s.chunks && VisibleRow(s, id, c).Some? :: s.chunks[id]
  }

  ghost predicate SameRows(s: State, s': State, c: CollectionId) {
    forall id :: RowOf(s', id, c) == RowOf(s, id, c)
  }

  ghost predicate SameVisible(s: State, s': State, c: CollectionId) {
    forall id :: VisibleRow(s', id, c) == VisibleRow(s, id, c)
  }

  ghost predicate StampsMoveForward(s: State, s': State, c: CollectionId)
    requires c in s.collections
  {
    && c in s'.collections
    && s.collections[c].sourceGeneration <= s'.collections[c].sourceGeneration
    && s.collections[c].dataVersion <= s'.collections[c].dataVersion
    && (s.collections[c].sourceGeneration == s'.collections[c].sourceGeneration ==> SameRows(s, s', c))
    && (s.collections[c] == s'.collections[c] ==> SameVisible(s, s', c))
  }

  lemma {:induction false} StampsTransitive(s: State, s': State, s'': State, c: CollectionId)
    requires c in s.collections && StampsMoveForward(s, s', c) && StampsMoveForward(s', s'', c)
    ensures StampsMoveForward(s, s'', c)
  {
    if s.collections[c].sourceGeneration == s''.collections[c].sourceGeneration {
      forall id ensures RowOf(s'', id, c) == RowOf(s, id, c) {
        assert RowOf(s', id, c) == RowOf(s, id, c);
      }
      if s.collections[c] == s''.collections[c] {
        forall id ensures VisibleRow(s'', id, c) == VisibleRow(s, id, c) {
          assert VisibleRow(s', id, c) == VisibleRow(s, id, c);
        }
      }
    }
  }

  /** A transaction that touches one collection's rows leaves every other collection alone. */
  lemma {:induction false} DeleteStamps(s: State, d: DocumentId, c: CollectionId)
    requires Inv(s) && c in s.collections
    ensures StampsMoveForward(s, DeleteStep(s, d), c)
  {
    if d in s.documents {
      assert DocumentOk(d, s.documents[d], s);
      var s' := DeleteStep(s, d);
      if s.documents[d].collection != c || !HasChunks(s.chunks, d) {
        assert forall id :: id in s.chunks && s.chunks[id].document == d ==> RowOf(s, id, c) == None;
        assert SameRows(s, s', c);
        assert SameVisible(s, s', c);
      }
    }
  }

  lemma {:induction false} RemoveVanishedStamps(s: State, vanished: seq<DocumentId>, c: CollectionId)
    requires Inv(s) && c in s.collections
    ensures StampsMoveForward(s, RemoveVanishedStep(s, vanished), c)
  {
    if vanished != [] {
      var before := vanished[..|vanished| - 1];
      RemoveVanishedStamps(s, before, c);
      RemoveVanishedKeepsInv(s, before);
      DeleteStamps(RemoveVanishedStep(s, before), vanished[|vanished| - 1], c);
      StampsTransitive(s, RemoveVanishedStep(s, before), RemoveVanishedStep(s, vanished), c);
    }
  }

  lemma {:induction false} WipeStamps(s: State, gone: CollectionId, c: CollectionId)
    requires Inv(s) && c in s.collections
    ensures StampsMoveForward(s, WipeStep(s, gone), c)
  {
    var s' := WipeStep(s, gone);
    if gone != c {
      assert SameRows(s, s', c);
      assert SameVisible(s, s', c);
    } else if Rows(s, c) == map[] {
      forall id ensures RowOf(s, id, c) == None && RowOf(s', id, c) == None {
        assert id !in Rows(s, c);
      }
    }
  }

  /** A store is invisible from any other collection. */
  lemma {:induction false} StoreElsewhere(s: State, t: Token, drafts: seq<Draft>, c: CollectionId)
    requires Inv(s) && c in s.collections && Holds(s, t) && s.documents[s.runs[t].document].collection != c
    ensures SameRows(s, StoreStep(s, t, drafts), c) && SameVisible(s, StoreStep(s, t, drafts), c)
  {
    StoreRowsElsewhere(s, t, drafts, c);
    StoreShowsElsewhere(s, t, drafts, c);
  }

  lemma {:induction false} StoreRowsElsewhere(s: State, t: Token, drafts: seq<Draft>, c: CollectionId)
    requires Inv(s) && Holds(s, t) && s.documents[s.runs[t].document].collection != c
    ensures SameRows(s, StoreStep(s, t, drafts), c)
  {
    var d := s.runs[t].document;
    assert forall id :: id in s.chunks && s.chunks[id].document == d ==> RowOf(s, id, c) == None;
  }

  lemma {:induction false} StoreShowsElsewhere(s: State, t: Token, drafts: seq<Draft>, c: CollectionId)
    requires Inv(s) && Holds(s, t) && s.documents[s.runs[t].document].collection != c
    requires SameRows(s, StoreStep(s, t, drafts), c)
    ensures SameVisible(s, StoreStep(s, t, drafts), c)
  {
  }

  lemma {:induction false} StoreStamps(s: State, t: Token, drafts: seq<Draft>, c: CollectionId)
    requires Inv(s) && c in s.collections
    ensures StampsMoveForward(s, StoreStep(s, t, drafts), c)
  {
    if Holds(s, t) {
      assert DocumentOk(s.runs[t].document, s.documents[s.runs[t].document], s);
      if s.documents[s.runs[t].document].collection != c {
        StoreElsewhere(s, t, drafts, c);
      }
    }
  }

  /** Status changes that keep every chunk and every document's collection. */
  ghost predicate KeepsPlacement(s: State, s': State) {
    && s'.chunks == s.chunks
    && s.documents.Keys <= s'.documents.Keys
    && (forall d :: d in s.documents ==> s'.documents[d].collection == s.documents[d].collection)
  }

  lemma {:induction false} PlacementKeepsRows(s: State, s': State, c: CollectionId)
    requires ChunksOk(s) && KeepsPlacement(s, s')
    ensures SameRows(s, s', c)
    ensures (forall d ::
             InCollection(s.documents, d, c)
             ==> (s.documents[d].status == Ready <==> s'.documents[d].status == Ready))
              ==> SameVisible(s, s', c)
  {
  }

  lemma {:induction false} RequeueStamps(s: State, d: DocumentId, c: CollectionId)
    requires Inv(s) && c in s.collections
    ensures StampsMoveForward(s, RequeueStep(s, d), c)
  {
    PlacementKeepsRows(s, RequeueStep(s, d), c);
    if d in s.documents {
      assert DocumentOk(d, s.documents[d], s);
    }
  }

  lemma {:induction false} ReprocessStamps(s: State, gone: CollectionId, targets: set<DocumentId>, c: CollectionId)
    requires Inv(s) && c in s.collections && forall d :: d in targets ==> InCollection(s.documents, d, gone)
    ensures StampsMoveForward(s, ReprocessStep(s, gone, targets), c)
  {
    PlacementKeepsRows(s, ReprocessStep(s, gone, targets), c);
  }

  /** Dropping a facts chunk is a change to its document's collection alone. */
  lemma {:induction false} DroppedStamps(s: State, d: DocumentId, id: ChunkId, c: CollectionId)
    requires !InCollection(s.documents, d, c)
    ensures SameRows(s, s.(chunks := DropChunk(s.chunks, d, id)), c)
    ensures SameVisible(s, s.(chunks := DropChunk(s.chunks, d, id)), c)
  {
  }

  lemma {:induction false} FinishElsewhere(s: State, e: ExtractionId, text: Option<string>, c: CollectionId)
    requires Inv(s) && c in s.collections && e in s.extractions && s.extractions[e].document in s.documents
    requires s.documents[s.extractions[e].document].collection != c
    ensures StampsMoveForward(s, FinishExtractionStep(s, e, text), c)
  {
    var x := s.extractions[e];
    assert DocumentOk(x.document, s.documents[x.document], s);
    if x.factsChunk.Some? {
      DroppedStamps(s, x.document, x.factsChunk.value, c);
    }
    assert RowOf(FinishExtractionStep(s, e, text), s.nextChunk, c) == RowOf(s, s.nextChunk, c) == None;
  }

  lemma {:induction false} FinishExtractionStamps(s: State, e: ExtractionId, text: Option<string>, c: CollectionId)
    requires Inv(s) && c in s.collections
    ensures StampsMoveForward(s, FinishExtractionStep(s, e, text), c)
  {
    if e in s.extractions && s.extractions[e].document in s.documents {
      var x := s.extractions[e];
      assert DocumentOk(x.document, s.documents[x.document], s);
      if s.documents[x.document].collection != c {
        FinishElsewhere(s, e, text, c);
      }
    }
  }

  lemma {:induction false} PatchExtractionStamps(s: State, e: ExtractionId, c: CollectionId)
    requires Inv(s) && c in s.collections
    ensures StampsMoveForward(s, PatchExtractionStep(s, e), c)
  {
    if e in s.extractions && s.extractions[e].factsChunk.Some? && s.extractions[e].document in s.documents {
      var x := s.extractions[e];
      assert DocumentOk(x.document, s.documents[x.document], s);
      if s.documents[x.document].collection != c {
        DroppedStamps(s, x.document, x.factsChunk.value, c);
      }
    }
  }

  lemma {:induction false} RemoveFactsStamps(s: State, d: DocumentId, id: ChunkId, c: CollectionId)
    requires Inv(s) && c in s.collections
    ensures StampsMoveForward(s, RemoveFactsStep(s, d, id), c)
  {
    if d in s.documents {
      assert DocumentOk(d, s.documents[d], s);
    }
    if !InCollection(s.documents, d, c) {
      DroppedStamps(s, d, id, c);
    }
  }

  lemma {:induction false} RetryLikeStamps(s: State, d: DocumentId, doc: Document, c: CollectionId)
    requires Inv(s) && c in s.collections
    requires d in s.documents ==> doc.collection == s.documents[d].collection
    requires d in s.documents ==> (doc.status == Ready <==> s.documents[d].status == Ready)
    ensures StampsMoveForward(s, WithDocument(s, d, doc), c)
  {
    PlacementKeepsRows(s, WithDocument(s, d, doc), c);
  }

  lemma {:induction false} ClaimStamps(s: State, d: DocumentId, t: Token, now: int, eager: bool, c: CollectionId)
    requires Inv(s) && c in s.collections
    ensures StampsMoveForward(s, ClaimStep(s, d, t, now, eager), c)
  {
    if d in s.documents && ClaimActs(s.documents[d], now, eager) {
      RetryLikeStamps(s, d, ClaimStep(s, d, t, now, eager).documents[d], c);
    }
  }

  lemma {:induction false} WorkerFailureStamps(s: State, t: Token, now: int, c: CollectionId)
    requires Inv(s) && c in s.collections
    ensures StampsMoveForward(s, MarkFailedStep(s, t), c)
    ensures StampsMoveForward(s, EmbeddingFailedStep(s, t, now), c)
  {
    if Holds(s, t) {
      var d := s.runs[t].document;
      assert DocumentOk(d, s.documents[d], s);
      RetryLikeStamps(s, d, Finished(s.documents[d], Failed), c);
      RetryLikeStamps(s, d, BackedOff(s.documents[d], s.runs[t].attempt, now), c);
    }
  }

  /** Every transaction that changes the chunk rows of a collection moves its stamp. */
  lemma {:induction false} StepStamps(s: State, step: Step, c: CollectionId)
    requires Inv(s) && Enabled(s, step) && c in s.collections
    ensures StampsMoveForward(s, Apply(s, step), c)
  {
    match step
    case StoreChunks(t, drafts) => StoreStamps(s, t, drafts, c);
    case DeleteDocument(d) => DeleteStamps(s, d, c);
    case RemoveVanished(vanished) => RemoveVanishedStamps(s, vanished, c);
    case Wipe(gone) => WipeStamps(s, gone, c);
    case RetryFailed(d) => RequeueStamps(s, d, c);
    case SyncUpdate(d) => RequeueStamps(s, d, c);
    case Reprocess(gone, targets) => ReprocessStamps(s, gone, targets, c);
    case FinishExtraction(e, text) => FinishExtractionStamps(s, e, text, c);
    case PatchExtraction(e) => PatchExtractionStamps(s, e, c);
    case RemoveFacts(d, id) => RemoveFactsStamps(s, d, id, c);
    case Upload(d, into) => RetryLikeStamps(s, d, NewDocument(into), c);
    case Claim(d, t, now, eager) => ClaimStamps(s, d, t, now, eager, c);
    case MarkFailed(t) => WorkerFailureStamps(s, t, 0, c);
    case EmbeddingFailed(t, now) => WorkerFailureStamps(s, t, now, c);
    case Recover(_, _) => PlacementKeepsRows(s, Apply(s, step), c);
    case Publish(_) => PlacementKeepsRows(s, Apply(s, step), c);
    case StartExtraction(_, _) => PlacementKeepsRows(s, Apply(s, step), c);
    case DeleteExtraction(_) => PlacementKeepsRows(s, Apply(s, step), c);
  }

  lemma {:induction false} StampsAlongRun(states: seq<State>, steps: seq<Step>, i: nat, j: nat, c: CollectionId)
    requires IsRun(states, steps) && Inv(states[0]) && i <= j <= |steps| && c in states[i].collections
    ensures StampsMoveForward(states[i], states[j], c)
  {
    if i < j {
      StampsAlongRun(states, steps, i, j - 1, c);
      InvAlways(states, steps, j - 1);
      StepStamps(states[j - 1], steps[j - 1], c);
      StampsTransitive(states[i], states[j - 1], states[j], c);
    }
  }

  lemma {:induction false} SameRowsEqual(s: State, s': State, c: CollectionId)
    requires SameRows(s, s', c)
    ensures Rows(s', c) == Rows(s, c)
  {
    forall id
      ensures id in Rows(s, c) <==> id in Rows(s', c)
      ensures id in Rows(s, c) ==> Rows(s', c)[id] == Rows(s, c)[id]
    {
      assert RowOf(s', id, c) == RowOf(s, id, c);
    }
  }

  lemma {:induction false} SameVisibleEqual(s: State, s': State, c: CollectionId)
    requires SameVisible(s, s', c)
    ensures VisibleRows(s', c) == VisibleRows(s, c)
  {
    forall id
      ensures id in VisibleRows(s, c) <==> id in VisibleRows(s', c)
      ensures id in VisibleRows(s, c) ==> VisibleRows(s', c)[id] == VisibleRows(s, c)[id]
    {
      assert VisibleRow(s', id, c) == VisibleRow(s, id, c);
    }
  }

  /** The stamp is truthful: two states with one source_generation hold identical chunk rows,
      and so does every state in between; if data_version agrees too, retrieval saw the same
      rows throughout. */
  lemma {:induction false} StampSandwich(states: seq<State>, steps: seq<Step>, i: nat, j: nat, k: nat, c: CollectionId)
    requires IsRun(states, steps) && Inv(states[0]) && i <= j <= k <= |steps|
    requires c in states[i].collections && c in states[k].collections
    requires states[i].collections[c].sourceGeneration == states[k].collections[c].sourceGeneration
    ensures Rows(states[i], c) == Rows(states[j], c) == Rows(states[k], c)
    ensures states[i].collections[c] == states[k].collections[c] ==>
              VisibleRows(states[i], c) == VisibleRows(states[j], c) == VisibleRows(states[k], c)
  {
    StampsAlongRun(states, steps, i, j, c);
    StampsAlongRun(states, steps, j, k, c);
    SameRowsEqual(states[i], states[j], c);
    SameRowsEqual(states[j], states[k], c);
    if states[i].collections[c] == states[k].collections[c] {
      SameVisibleEqual(states[i], states[j], c);
      SameVisibleEqual(states[j], states[k], c);
    }
  }

  /** One earlier turn of a conversation, as the queries table remembers it. */
  datatype Turn = Turn(sourceGeneration: nat, fingerprint: string)

  /** The reset test of the context loader. */
  predicate ContextReset(turns: seq<Turn>, sourceGeneration: nat, fingerprint: string) {
    exists i :: 0 <= i < |turns|
      && (turns[i].sourceGeneration != sourceGeneration || turns[i].fingerprint != fingerprint)
  }

  /** A turn stamps itself when its context is loaded and retrieves later.  If the loader at
      state n does not reset, what each turn retrieved from is still exactly what is stored. */
  lemma {:induction false} StaleHistoryReset(states: seq<State>, steps: seq<Step>, n: nat, c: CollectionId,
                                             turns: seq<Turn>,
                          loaded: seq<nat>, retrieved: seq<nat>, fingerprint: string)
    requires IsRun(states, steps) && Inv(states[0]) && n <= |steps| && c in states[0].collections
    requires |turns| == |loaded| == |retrieved|
    requires forall q :: 0 <= q < |turns| ==> loaded[q] <= retrieved[q] <= n
    requires forall q :: 0 <= q < |turns| ==>
      (c in states[loaded[q]].collections && turns[q].sourceGeneration
       == states[loaded[q]].collections[c].sourceGeneration)
    requires c in states[n].collections
    requires !ContextReset(turns, states[n].collections[c].sourceGeneration, fingerprint)
    ensures forall q :: 0 <= q < |turns| ==>
      Rows(states[retrieved[q]], c) == Rows(states[n], c)
      && turns[q].fingerprint == fingerprint
  {
    forall q | 0 <= q < |turns|
      ensures Rows(states[retrieved[q]], c) == Rows(states[n], c) && turns[q].fingerprint == fingerprint
    {
      StampSandwich(states, steps, loaded[q], retrieved[q], n, c);
    }
  }

  // ---- the data_version fence ---------------------------------------------------------------

  ghost predicate StaysReady(s: State, s': State, d: DocumentId, c: CollectionId) {
    InCollection(s'.documents, d, c) && s'.documents[d].status == Ready && SameOwn(s, s', d)
  }

  /** Either data_version moved, or d, READY before, is READY after with the same rows. */
  ghost predicate Fenced(s: State, s': State, d: DocumentId, c: CollectionId)
    requires c in s.collections
  {
    && c in s'.collections
    && (s'.collections[c].dataVersion > s.collections[c].dataVersion
        || (s'.collections[c].dataVersion == s.collections[c].dataVersion && StaysReady(s, s', d, c)))
  }

  ghost predicate ReadyIn(s: State, d: DocumentId, c: CollectionId) {
    c in s.collections && InCollection(s.documents, d, c) && s.documents[d].status == Ready
  }

  lemma {:induction false} FencedTransitive(s: State, s': State, s'': State, d: DocumentId, c: CollectionId)
    requires c in s.collections && Fenced(s, s', d, c)
    requires c in s''.collections && s''.collections[c].dataVersion >= s'.collections[c].dataVersion
    requires ReadyIn(s', d, c) ==> Fenced(s', s'', d, c)
    ensures Fenced(s, s'', d, c)
  {
    if s''.collections[c].dataVersion == s.collections[c].dataVersion {
      forall id ensures OwnRow(s'', id, d) == OwnRow(s, id, d) {
        assert OwnRow(s', id, d) == OwnRow(s, id, d);
      }
    }
  }

  lemma {:induction false} DeleteFenced(s: State, gone: DocumentId, d: DocumentId, c: CollectionId)
    requires Inv(s) && ReadyIn(s, d, c)
    ensures Fenced(s, DeleteStep(s, gone), d, c)
  {
    DeleteOwn(s, gone, d);
  }

  lemma {:induction false} RemoveVanishedFenced(s: State, vanished: seq<DocumentId>, d: DocumentId, c: CollectionId)
    requires Inv(s) && ReadyIn(s, d, c)
    ensures Fenced(s, RemoveVanishedStep(s, vanished), d, c)
  {
    if vanished != [] {
      var before := RemoveVanishedStep(s, vanished[..|vanished| - 1]);
      RemoveVanishedFenced(s, vanished[..|vanished| - 1], d, c);
      RemoveVanishedKeepsInv(s, vanished[..|vanished| - 1]);
      if ReadyIn(before, d, c) {
        DeleteFenced(before, vanished[|vanished| - 1], d, c);
      }
      DeleteStamps(before, vanished[|vanished| - 1], c);
      FencedTransitive(s, before, RemoveVanishedStep(s, vanished), d, c);
    }
  }

  lemma {:induction false} WipeFenced(s: State, gone: CollectionId, d: DocumentId, c: CollectionId)
    requires Inv(s) && ReadyIn(s, d, c)
    ensures Fenced(s, WipeStep(s, gone), d, c)
  {
    if gone != c {
      assert SameOwn(s, WipeStep(s, gone), d);
    }
  }

  lemma {:induction false} StoreFenced(s: State, t: Token, drafts: seq<Draft>, d: DocumentId, c: CollectionId)
    requires Inv(s) && ReadyIn(s, d, c)
    ensures Fenced(s, StoreStep(s, t, drafts), d, c)
  {
    assert DocumentOk(d, s.documents[d], s);
    if Holds(s, t) {
      StoreSpares(s, t, drafts, d);
    }
  }

  /** Facts rows come and go without touching documents or ingested rows. */
  lemma {:induction false} FactsFenced(s: State, s': State, d: DocumentId, c: CollectionId)
    requires ReadyIn(s, d, c) && s'.documents == s.documents && SameOwn(s, s', d)
    requires c in s'.collections && s'.collections[c].dataVersion == s.collections[c].dataVersion
    ensures Fenced(s, s', d, c)
  {
  }

  /** A worker's step on another document. */
  lemma {:induction false} WorkerFenced(s: State, step: Step, d: DocumentId, c: CollectionId)
    requires Inv(s) && Enabled(s, step) && ReadyIn(s, d, c)
      && (step.Claim? || step.MarkFailed? || step.EmbeddingFailed?)
    ensures Fenced(s, Apply(s, step), d, c)
  {
    assert DocumentOk(d, s.documents[d], s);
    assert Apply(s, step).chunks == s.chunks && Apply(s, step).collections == s.collections;
  }

  lemma {:induction false} ResetFenced(s: State, step: Step, d: DocumentId, c: CollectionId)
    requires Inv(s) && Enabled(s, step) && ReadyIn(s, d, c)
      && (step.RetryFailed? || step.Reprocess? || step.SyncUpdate?)
    ensures Fenced(s, Apply(s, step), d, c)
  {
    assert DocumentOk(d, s.documents[d], s);
    assert Apply(s, step).chunks == s.chunks;
  }

  lemma {:induction false} OtherFenced(s: State, step: Step, d: DocumentId, c: CollectionId)
    requires Enabled(s, step) && ReadyIn(s, d, c)
    requires step.Upload? || step.Recover? || step.Publish? || step.StartExtraction? || step.DeleteExtraction?
    ensures Fenced(s, Apply(s, step), d, c)
  {
    assert Apply(s, step).chunks == s.chunks;
  }

  lemma {:induction false} FactsStepFenced(s: State, step: Step, d: DocumentId, c: CollectionId)
    requires Inv(s) && Enabled(s, step) && ReadyIn(s, d, c)
    requires step.FinishExtraction? || step.PatchExtraction? || step.RemoveFacts?
    ensures Fenced(s, Apply(s, step), d, c)
  {
    if step.FinishExtraction? {
      FinishExtractionOwn(s, step.extraction, step.text, d);
    } else if step.PatchExtraction? {
      PatchExtractionOwn(s, step.extraction, d);
    } else {
      DroppedOwn(s, d, step.document, step.chunk);
    }
    FactsFenced(s, Apply(s, step), d, c);
  }

  lemma {:induction false} StepFenced(s: State, step: Step, d: DocumentId, c: CollectionId)
    requires Inv(s) && Enabled(s, step) && ReadyIn(s, d, c)
    ensures Fenced(s, Apply(s, step), d, c)
  {
    hide Fenced;
    hide ReadyIn;
    match step
    case StoreChunks(t, drafts) => StoreFenced(s, t, drafts, d, c);
    case DeleteDocument(gone) => DeleteFenced(s, gone, d, c);
    case RemoveVanished(vanished) => RemoveVanishedFenced(s, vanished, d, c);
    case Wipe(gone) => WipeFenced(s, gone, d, c);
    case FinishExtraction(_, _) => FactsStepFenced(s, step, d, c);
    case PatchExtraction(_) => FactsStepFenced(s, step, d, c);
    case RemoveFacts(_, _) => FactsStepFenced(s, step, d, c);
    case Claim(_, _, _, _) => WorkerFenced(s, step, d, c);
    case MarkFailed(_) => WorkerFenced(s, step, d, c);
    case EmbeddingFailed(_, _) => WorkerFenced(s, step, d, c);
    case RetryFailed(_) => ResetFenced(s, step, d, c);
    case Reprocess(_, _) => ResetFenced(s, step, d, c);
    case SyncUpdate(_) => ResetFenced(s, step, d, c);
    case Upload(_, _) => OtherFenced(s, step, d, c);
    case Recover(_, _) => OtherFenced(s, step, d, c);
    case Publish(_) => OtherFenced(s, step, d, c);
    case StartExtraction(_, _) => OtherFenced(s, step, d, c);
    case DeleteExtraction(_) => OtherFenced(s, step, d, c);
  }

  lemma {:induction false} FencedAlongRun(states: seq<State>, steps: seq<Step>, i: nat, j: nat, d: DocumentId,
                                          c: CollectionId)
    requires IsRun(states, steps) && Inv(states[0]) && i <= j <= |steps| && ReadyIn(states[i], d, c)
    ensures Fenced(states[i], states[j], d, c)
  {
    if i < j {
      FencedAlongRun(states, steps, i, j - 1, d, c);
      InvAlways(states, steps, j - 1);
      StepStamps(states[j - 1], steps[j - 1], c);
      if ReadyIn(states[j - 1], d, c) {
        StepFenced(states[j - 1], steps[j - 1], d, c);
      }
      FencedTransitive(states[i], states[j - 1], states[j], d, c);
    }
  }

  /** The check a query makes before it is recorded: while data_version stands still, every
      document that was READY stays READY with exactly its ingested rows. */
  lemma {:induction false} DataVersionFence(states: seq<State>, steps: seq<Step>, i: nat, j: nat, c: CollectionId,
                                            d: DocumentId)
    requires IsRun(states, steps) && Inv(states[0]) && i <= j <= |steps| && ReadyIn(states[i], d, c)
    requires c in states[j].collections && states[i].collections[c].dataVersion == states[j].collections[c].dataVersion
    ensures ReadyIn(states[j], d, c) && OwnRows(states[j], d) == OwnRows(states[i], d)
  {
    FencedAlongRun(states, steps, i, j, d, c);
    SameOwnRows(states[i], states[j], d);
  }

  // ---- bounded attempts -----------------------------------------------------------------------

  /** The transactions that give a document a new life (or end it). */
  ghost predicate Resets(s: State, step: Step, d: DocumentId) {
    match step
    case RetryFailed(x) => x == d
    case SyncUpdate(x) => x == d
    case Reprocess(_, targets) => d in targets
    case DeleteDocument(x) => x == d
    case RemoveVanished(vanished) => d in vanished
    case Wipe(c) => InCollection(s.documents, d, c)
    case _ => false
  }

  ghost predicate ResetFree(states: seq<State>, steps: seq<Step>, d: DocumentId) {
    |states| == |steps| + 1 && forall i :: 0 <= i < |steps| ==> !Resets(states[i], steps[i], d)
  }

  /** Does this step claim d successfully? */
  predicate Claims(s: State, step: Step, d: DocumentId) {
    && step.Claim? && step.document == d && d in s.documents
    && ClaimActs(s.documents[d], step.now, step.eager) && s.documents[d].attempts < MAX_ATTEMPTS
  }

  ghost function ClaimCount(states: seq<State>, steps: seq<Step>, d: DocumentId, n: nat): nat
    requires |states| == |steps| + 1 && n <= |steps|
  {
    if n == 0 then 0
    else ClaimCount(states, steps, d, n - 1) + if Claims(states[n - 1], steps[n - 1], d) then 1 else 0
  }

  lemma {:induction false} RemoveVanishedOther(s: State, vanished: seq<DocumentId>, d: DocumentId)
    requires d !in vanished
    ensures d in RemoveVanishedStep(s, vanished).documents <==> d in s.documents
    ensures d in s.documents ==> RemoveVanishedStep(s, vanished).documents[d] == s.documents[d]
  {
    if vanished != [] {
      RemoveVanishedOther(s, vanished[..|vanished| - 1], d);
    }
  }

  /** The only steps that touch a document without resetting or claiming it leave its attempts
      and a terminal status alone. */
  lemma {:induction false} OtherKeepsProgress(s: State, step: Step, d: DocumentId)
    requires Inv(s) && Enabled(s, step) && d in s.documents && !Resets(s, step, d) && !step.Claim?
      && !step.RemoveVanished?
    ensures d in Apply(s, step).documents && Apply(s, step).documents[d].attempts == s.documents[d].attempts
    ensures s.documents[d].status in {Ready, Failed} ==> Apply(s, step).documents[d].status == s.documents[d].status
  {
    assert DocumentOk(d, s.documents[d], s);
  }

  /** Without a reset: attempts count the successful claims ... */
  lemma {:induction false} StepAttempts(s: State, step: Step, d: DocumentId)
    requires Inv(s) && Enabled(s, step) && d in s.documents && !Resets(s, step, d)
    ensures d in Apply(s, step).documents
    ensures Apply(s, step).documents[d].attempts == s.documents[d].attempts + if Claims(s, step, d) then 1 else 0
  {
    if step.RemoveVanished? {
      RemoveVanishedOther(s, step.vanished, d);
    } else if !step.Claim? {
      OtherKeepsProgress(s, step, d);
    }
  }

  /** ... and READY and FAILED are final. */
  lemma {:induction false} StepAbsorbs(s: State, step: Step, d: DocumentId)
    requires Inv(s) && Enabled(s, step) && d in s.documents && !Resets(s, step, d)
    requires d in Apply(s, step).documents && s.documents[d].status in {Ready, Failed}
    ensures Apply(s, step).documents[d].status == s.documents[d].status && !Claims(s, step, d)
  {
    if step.RemoveVanished? {
      RemoveVanishedOther(s, step.vanished, d);
    } else if !step.Claim? {
      OtherKeepsProgress(s, step, d);
    }
  }

  /** At most four claims can succeed between resets, and a terminal status is absorbing. */
  lemma {:induction false} BoundedAttempts(states: seq<State>, steps: seq<Step>, d: DocumentId, n: nat)
    requires IsRun(states, steps) && Inv(states[0]) && n <= |steps|
    requires d in states[0].documents && ResetFree(states, steps, d)
    ensures d in states[n].documents
    ensures states[n].documents[d].attempts == states[0].documents[d].attempts + ClaimCount(states, steps, d, n)
    ensures ClaimCount(states, steps, d, n) <= MAX_ATTEMPTS
    ensures states[0].documents[d].status in {Ready, Failed} ==>
              states[n].documents[d].status == states[0].documents[d].status && ClaimCount(states, steps, d, n) == 0
  {
    InvAlways(states, steps, n);
    if n > 0 {
      BoundedAttempts(states, steps, d, n - 1);
      InvAlways(states, steps, n - 1);
      StepAttempts(states[n - 1], steps[n - 1], d);
      if states[0].documents[d].status in {Ready, Failed} {
        StepAbsorbs(states[n - 1], steps[n - 1], d);
      }
    }
    assert DocumentOk(d, states[n].documents[d], states[n]);
  }

  /** A claim that exhausts the budget instead of running ends the document. */
  lemma {:induction false} ExhaustedClaimFails(s: State, d: DocumentId, t: Token, now: int, eager: bool)
    requires Inv(s) && t !in s.runs && d in s.documents && ClaimActs(s.documents[d], now, eager)
    ensures ClaimStep(s, d, t, now, eager).documents[d].status == Failed <==> s.documents[d].attempts == MAX_ATTEMPTS
    ensures s.documents[d].attempts == MAX_ATTEMPTS ==>
      s.documents[d].status == Processing
      && s.documents[d].lease.value <= now
  {
    assert DocumentOk(d, s.documents[d], s);
  }

  /** The recovery sweep republishes exactly the documents a delivery would act on, so no
      accepted upload is stranded and no delivery of a swept document is wasted. */
  lemma {:induction false} DueIsClaimable(s: State, d: DocumentId, t: Token, now: int)
    requires Inv(s) && t !in s.runs && d in s.documents
    ensures Due(s.documents[d], now) <==> ClaimStep(s, d, t, now, false) != s
  {
    assert DocumentOk(d, s.documents[d], s);
    var s' := ClaimStep(s, d, t, now, false);
    if ClaimActs(s.documents[d], now, false) {
      assert s'.documents[d].status != s.documents[d].status || s'.documents[d].token != s.documents[d].token;
    }
  }
}
