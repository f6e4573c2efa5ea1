/**
 The rows behind one DocQA deployment and every transaction that changes them.

 Each step is one committed database transaction: the locks it takes (Collection before
 Document) make it atomic.  A worker is known by the fencing token it drew when it claimed a
 document; between its steps anything else may run.  Clocks and fresh identifiers are
 parameters.
 */
module Ingestion {
  import opened Common

  type DocumentId = nat
  type CollectionId = nat
  type ChunkId = nat
  type ExtractionId = nat
  type Token = nat

  const MAX_ATTEMPTS := 4
  const LEASE_SECONDS := 660
  const RETRY_BASE_SECONDS := 10
  const ENQUEUE_THROTTLE_SECONDS := 60

  datatype Status = Pending | Processing | Ready | Failed

  datatype Document = Document(
    collection: CollectionId,
    status: Status,
    token: Option<Token>,
    lease: Option<int>,
    nextAttempt: Option<int>,
    lastEnqueued: Option<int>,
    attempts: nat)

  /** `data_version` and `source_generation` of a collection. */
  datatype Collection = Collection(dataVersion: nat, sourceGeneration: nat)

  datatype Draft = Draft(index: nat, content: string)

  /** Who wrote a row.  The table does not store it and no step reads it. */
  datatype Origin = Ingested(run: Token) | Facts(extraction: ExtractionId)

  datatype ChunkRow = ChunkRow(document: DocumentId, index: nat, content: string, origin: Origin)

  datatype Extraction = Extraction(document: DocumentId, factsChunk: Option<ChunkId>)

  /** What a worker remembers from its claim. */
  datatype Run = Run(document: DocumentId, attempt: nat)

  datatype State = State(
    collections: map<CollectionId, Collection>,
    documents: map<DocumentId, Document>,
    chunks: map<ChunkId, ChunkRow>,
    nextChunk: ChunkId,
    extractions: map<ExtractionId, Extraction>,
    // facts chunks whose extraction row is gone and whose removal has yet to run
    removals: set<(DocumentId, ChunkId)>,
    runs: map<Token, Run>)

  datatype Step =
    | Upload(document: DocumentId, collection: CollectionId)
    | Claim(document: DocumentId, token: Token, now: int, eager: bool)
    | StoreChunks(token: Token, drafts: seq<Draft>)
    | MarkFailed(token: Token)
    | EmbeddingFailed(token: Token, now: int)
    | Recover(now: int, picked: set<DocumentId>)
    | RetryFailed(document: DocumentId)
    | Reprocess(collection: CollectionId, targets: set<DocumentId>)
    | SyncUpdate(document: DocumentId)
    | DeleteDocument(document: DocumentId)
    | RemoveVanished(vanished: seq<DocumentId>)
    | Wipe(collection: CollectionId)
    | Publish(collection: CollectionId)
    | StartExtraction(extraction: ExtractionId, document: DocumentId)
    | FinishExtraction(extraction: ExtractionId, text: Option<string>)
    | PatchExtraction(extraction: ExtractionId)
    | DeleteExtraction(extraction: ExtractionId)
    | RemoveFacts(document: DocumentId, chunk: ChunkId)

  // ---- the rows a step looks at -------------------------------------------------------

  predicate Holds(s: State, t: Token) {
    && t in s.runs
    && s.runs[t].document in s.documents
    && s.documents[s.runs[t].document].token == Some(t)
  }

  predicate HasChunks(chunks: map<ChunkId, ChunkRow>, d: DocumentId) {
    exists id :: id in chunks && chunks[id].document == d
  }

  function WithoutDocument(chunks: map<ChunkId, ChunkRow>, d: DocumentId): map<ChunkId, ChunkRow> {
    map id | id in chunks && chunks[id].document != d :: chunks[id]
  }

  /** The rows a run inserts: one per draft, with consecutive fresh ids. */
  function Drafted(d: DocumentId, t: Token, drafts: seq<Draft>, first: ChunkId): (rows: map<ChunkId, ChunkRow>)
    ensures forall id :: id in rows <==> first <= id < first + |drafts|
    ensures forall id ::
      id in rows
      ==> rows[id] == ChunkRow(d, drafts[id - first].index, drafts[id - first].content, Ingested(t))
  {
    if drafts == [] then map[]
    else
      var n := |drafts| - 1;
      Drafted(d, t, drafts[..n], first)[first + n := ChunkRow(d, drafts[n].index, drafts[n].content, Ingested(t))]
  }

  /** One past the largest chunk_index of the document's rows with ids below the bound. */
  function NextIndexOf(chunks: map<ChunkId, ChunkRow>, d: DocumentId, below: ChunkId): (n: nat)
    ensures forall id :: id < below && id in chunks && chunks[id].document == d ==> chunks[id].index < n
    ensures n == 0 || exists id :: id < below && id in chunks && chunks[id].document == d && chunks[id].index == n - 1
  {
    if below == 0 then 0
    else
      var rest := NextIndexOf(chunks, d, below - 1);
      var id := below - 1;
      if id in chunks && chunks[id].document == d then Max(rest, chunks[id].index + 1) else rest
  }

  // ---- single-row transitions -----------------------------------------------------------

  /** Does a delivery of the task change this row, or return early? */
  predicate ClaimActs(doc: Document, now: int, eager: bool) {
    match doc.status
    case Ready => false
    case Failed => false
    case Processing => !(doc.lease.Some? && doc.lease.value > now)
    case Pending => !(doc.nextAttempt.Some? && doc.nextAttempt.value > now && !eager)
  }

  /** The recovery query's `due` clause. */
  predicate Due(doc: Document, now: int) {
    || (doc.status == Pending && (doc.nextAttempt == None || doc.nextAttempt.value <= now))
    || (doc.status == Processing && (doc.lease == None || doc.lease.value <= now))
  }

  predicate Unthrottled(doc: Document, now: int) {
    doc.lastEnqueued == None || doc.lastEnqueued.value <= now - ENQUEUE_THROTTLE_SECONDS
  }

  function Finished(doc: Document, status: Status): Document {
    doc.(status := status, token := None, lease := None)
  }

  function Claimed(doc: Document, t: Token, now: int): Document {
    doc.(status := Processing, token := Some(t), lease := Some(now + LEASE_SECONDS), attempts := doc.attempts + 1)
  }

  function Pow2(n: nat): nat {
    if n == 0 then 1 else 2 * Pow2(n - 1)
  }

  function RetryDelay(attempt: nat): nat {
    RETRY_BASE_SECONDS * Pow2(if attempt == 0 then 0 else attempt - 1)
  }

  function BackedOff(doc: Document, attempt: nat, now: int): Document {
    Finished(doc, Pending).(nextAttempt := Some(now + RetryDelay(attempt)))
  }

  function Requeued(doc: Document): Document {
    Document(doc.collection, Pending, None, None, None, None, 0)
  }

  function NewDocument(c: CollectionId): Document {
    Document(c, Pending, None, None, None, None, 0)
  }

  function Bumped(collections: map<CollectionId, Collection>, c: CollectionId, dv: nat, sg: nat)
    : map<CollectionId, Collection>
  {
    if c in collections
    then collections[c := Collection(collections[c].dataVersion + dv, collections[c].sourceGeneration + sg)]
    else collections
  }

  // ---- transactions -----------------------------------------------------------------------

  function WithDocument(s: State, d: DocumentId, doc: Document): State {
    s.(documents := s.documents[d := doc])
  }

  function ClaimStep(s: State, d: DocumentId, t: Token, now: int, eager: bool): State {
    if d !in s.documents || !ClaimActs(s.documents[d], now, eager) then s
    else
      var doc := s.documents[d];
      if doc.attempts >= MAX_ATTEMPTS then WithDocument(s, d, Finished(doc, Failed))
      else WithDocument(s, d, Claimed(doc, t, now)).(runs := s.runs[t := Run(d, doc.attempts + 1)])
  }

  function StoreStep(s: State, t: Token, drafts: seq<Draft>): State {
    if !Holds(s, t) then s
    else
      var d := s.runs[t].document;
      var doc := s.documents[d];
      s.(documents := s.documents[d := Finished(doc, Ready)],
         chunks := WithoutDocument(s.chunks, d) + Drafted(d, t, drafts, s.nextChunk),
         nextChunk := s.nextChunk + |drafts|,
         collections := Bumped(s.collections, doc.collection, 0, 1))
  }

  function MarkFailedStep(s: State, t: Token): State {
    if !Holds(s, t) then s
    else WithDocument(s, s.runs[t].document, Finished(s.documents[s.runs[t].document], Failed))
  }

  function EmbeddingFailedStep(s: State, t: Token, now: int): State {
    if t in s.runs && s.runs[t].attempt >= MAX_ATTEMPTS then MarkFailedStep(s, t)
    else if !Holds(s, t) then s
    else
      var run := s.runs[t];
      WithDocument(s, run.document, BackedOff(s.documents[run.document], run.attempt, now))
  }

  function RecoverStep(s: State, now: int, picked: set<DocumentId>): State {
    s.(documents := map d | d in s.documents ::
         if d in picked then s.documents[d].(lastEnqueued := Some(now)) else s.documents[d])
  }

  function RequeueStep(s: State, d: DocumentId): State {
    if d !in s.documents then s
    else WithDocument(s, d, Requeued(s.documents[d])).(
           collections := Bumped(s.collections, s.documents[d].collection, 1, 0))
  }

  function RetryStep(s: State, d: DocumentId): State {
    if d in s.documents && s.documents[d].status == Failed then RequeueStep(s, d) else s
  }

  function ReprocessStep(s: State, c: CollectionId, targets: set<DocumentId>): State {
    if targets == {} then s
    else s.(documents := map d | d in s.documents ::
              if d in targets then Requeued(s.documents[d]) else s.documents[d],
            collections := Bumped(s.collections, c, 1, 0))
  }

  function DeleteStep(s: State, d: DocumentId): State {
    if d !in s.documents then s
    else
      var sg := if HasChunks(s.chunks, d) then 1 else 0;
      s.(documents := s.documents - {d},
         chunks := WithoutDocument(s.chunks, d),
         extractions := map e | e in s.extractions && s.extractions[e].document != d :: s.extractions[e],
         collections := Bumped(s.collections, s.documents[d].collection, 1, sg))
  }

  function RemoveVanishedStep(s: State, vanished: seq<DocumentId>): State {
    if vanished == [] then s
    else DeleteStep(RemoveVanishedStep(s, vanished[..|vanished| - 1]), vanished[|vanished| - 1])
  }

  predicate InCollection(documents: map<DocumentId, Document>, d: DocumentId, c: CollectionId) {
    d in documents && documents[d].collection == c
  }

  /** The chunk rows of one collection. */
  function Rows(s: State, c: CollectionId): map<ChunkId, ChunkRow> {
    map id | id in s.chunks && InCollection(s.documents, s.chunks[id].document, c) :: s.chunks[id]
  }

  function WipeStep(s: State, c: CollectionId): State {
    if c !in s.collections then s
    else
      s.(documents := map d | d in s.documents && s.documents[d].collection != c :: s.documents[d],
         chunks := map id | id in s.chunks && !InCollection(s.documents, s.chunks[id].document, c) :: s.chunks[id],
         extractions := map e | e in s.extractions && !InCollection(s.documents, s.extractions[e].document, c) ::
           s.extractions[e],
         collections := Bumped(s.collections, c, 1, if Rows(s, c) != map[] then 1 else 0))
  }

  function DropChunk(chunks: map<ChunkId, ChunkRow>, d: DocumentId, id: ChunkId): map<ChunkId, ChunkRow> {
    if id in chunks && chunks[id].document == d then chunks - {id} else chunks
  }

  function FinishExtractionStep(s: State, e: ExtractionId, text: Option<string>): State {
    if e !in s.extractions || s.extractions[e].document !in s.documents then s
    else
      var x := s.extractions[e];
      var c := s.documents[x.document].collection;
      var dropped := if x.factsChunk.Some? then DropChunk(s.chunks, x.document, x.factsChunk.value) else s.chunks;
      var cleared := s.(
        chunks := dropped,
        extractions := s.extractions[e := x.(factsChunk := None)],
        collections := Bumped(s.collections, c, 0, if x.factsChunk.Some? then 1 else 0));
      if text.None? || text.value == "" then cleared
      else
        var row := ChunkRow(x.document, NextIndexOf(dropped, x.document, s.nextChunk), text.value, Facts(e));
        cleared.(
          chunks := dropped[s.nextChunk := row],
          nextChunk := s.nextChunk + 1,
          extractions := s.extractions[e := x.(factsChunk := Some(s.nextChunk))],
          collections := Bumped(cleared.collections, c, 0, 1))
  }

  function PatchExtractionStep(s: State, e: ExtractionId): State {
    if e !in s.extractions || s.extractions[e].factsChunk.None? || s.extractions[e].document !in s.documents then s
    else
      var x := s.extractions[e];
      s.(chunks := DropChunk(s.chunks, x.document, x.factsChunk.value),
         extractions := s.extractions[e := x.(factsChunk := None)],
         collections := Bumped(s.collections, s.documents[x.document].collection, 0, 1))
  }

  function DeleteExtractionStep(s: State, e: ExtractionId): State {
    if e !in s.extractions then s
    else
      var x := s.extractions[e];
      s.(extractions := s.extractions - {e},
         removals := if x.factsChunk.Some? then s.removals + {(x.document, x.factsChunk.value)} else s.removals)
  }

  function RemoveFactsStep(s: State, d: DocumentId, id: ChunkId): State {
    s.(chunks := DropChunk(s.chunks, d, id),
       collections := if d in s.documents then Bumped(s.collections, s.documents[d].collection, 0, 1)
         else s.collections,
       removals := s.removals - {(d, id)})
  }

  ghost predicate DistinctIndexes(drafts: seq<Draft>) {
    forall i, j :: 0 <= i < j < |drafts| ==> drafts[i].index != drafts[j].index
  }

  /** What the caller of a transaction guarantees: fresh identifiers, and lists it just read. */
  ghost predicate Enabled(s: State, step: Step) {
    match step
    case Upload(d, c) => d !in s.documents && c in s.collections
    case Claim(d, t, now, eager) => t !in s.runs
    case StoreChunks(t, drafts) => t in s.runs && DistinctIndexes(drafts)
    case MarkFailed(t) => t in s.runs
    case EmbeddingFailed(t, now) => t in s.runs
    case Recover(now, picked) =>
      forall d :: d in picked ==> d in s.documents && Due(s.documents[d], now) && Unthrottled(s.documents[d], now)
    case Reprocess(c, targets) =>
      c in s.collections && forall d :: d in targets ==> InCollection(s.documents, d, c)
    case StartExtraction(e, d) => e !in s.extractions && d in s.documents
    case RemoveFacts(d, id) => (d, id) in s.removals
    case _ => true
  }

  function Apply(s: State, step: Step): State {
    match step
    case Upload(d, c) => WithDocument(s, d, NewDocument(c))
    case Claim(d, t, now, eager) => ClaimStep(s, d, t, now, eager)
    case StoreChunks(t, drafts) => StoreStep(s, t, drafts)
    case MarkFailed(t) => MarkFailedStep(s, t)
    case EmbeddingFailed(t, now) => EmbeddingFailedStep(s, t, now)
    case Recover(now, picked) => RecoverStep(s, now, picked)
    case RetryFailed(d) => RetryStep(s, d)
    case Reprocess(c, targets) => ReprocessStep(s, c, targets)
    case SyncUpdate(d) => RequeueStep(s, d)
    case DeleteDocument(d) => DeleteStep(s, d)
    case RemoveVanished(vanished) => RemoveVanishedStep(s, vanished)
    case Wipe(c) => WipeStep(s, c)
    case Publish(c) => s.(collections := Bumped(s.collections, c, 1, 0))
    case StartExtraction(e, d) => s.(extractions := s.extractions[e := Extraction(d, None)])
    case FinishExtraction(e, text) => FinishExtractionStep(s, e, text)
    case PatchExtraction(e) => PatchExtractionStep(s, e)
    case DeleteExtraction(e) => DeleteExtractionStep(s, e)
    case RemoveFacts(d, id) => RemoveFactsStep(s, d, id)
  }

  /** An execution: any interleaving of the transactions above. */
  ghost predicate IsRun(states: seq<State>, steps: seq<Step>) {
    && |states| == |steps| + 1
    && forall i :: 0 <= i < |steps| ==> Enabled(states[i], steps[i]) && states[i + 1] == Apply(states[i], steps[i])
  }
}
