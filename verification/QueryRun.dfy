/**
 The event machine of one query: what the client is sent, and the one record that is kept,
 whatever the providers, the database and the client do.
 */
module QueryRun {
  import opened Common
  import opened Text
  import opened Stream
  import opened Resolution
  import Quotes

  datatype Failure = GenerationFailed | EmbeddingFailed | BudgetBlocked | InternalError | Cancelled

  datatype Outcome<T> = Returned(value: T) | Raised(failure: Failure)

  datatype Decision = Clarify(question: string) | Proceed

  /** One model stream: its text deltas, and how it broke off if it did. */
  datatype Reply = Reply(deltas: seq<string>, ending: Option<Failure>)

  datatype RecordResult = Recorded | SourceChanged | RecordFailed

  /** Everything the run cannot know: what each awaited call comes to, and after how many events
      the client goes away. */
  datatype World = World(
    conversation: bool,
    parent: bool,
    normalizer: Outcome<Decision>,
    retrieval: Outcome<bool>,                              // whether the passages pass the gate
    planning: Option<Outcome<seq<Option<Failure>>>>,       // None when planning is off; how each facet's search failed
    building: Option<Failure>,
    context: seq<Block>,
    first: Reply,
    second: Reply,
    finalize: string -> string,
    fold: char -> string,
    similar: Similarity,
    storage: RecordResult,
    patience: Option<nat>)

  datatype Event = Meta | Sources | Delta(text: string) | Done(answer: Option<string>, refused: bool)
    | Error(cause: Cause)

  datatype Cause = Provider | Budget | Changed | Unsaved

  datatype Kind = Answered | Refusal | Clarification | Incomplete

  datatype Record = Record(kind: Kind, answer: Option<string>)

  // ---- the order of events -----------------------------------------------------------------------------

  datatype Stage = Silent | Introduced | Sourced | Streaming | Closed | Broken

  function Next(stage: Stage, event: Event): Stage {
    match event
    case Meta => if stage == Silent then Introduced else Broken
    case Sources => if stage == Introduced then Sourced else Broken
    case Delta(_) => if stage == Sourced || stage == Streaming then Streaming else Broken
    case Done(_, _) => if stage in {Introduced, Sourced, Streaming} then Closed else Broken
    case Error(_) => if stage in {Silent, Introduced, Sourced, Streaming} then Closed else Broken
  }

  /** Meta, sources, deltas, then done or an error: each optional, in this order, and nothing
      after the terminal event. */
  function StageOf(events: seq<Event>): Stage {
    if events == [] then Silent else Next(StageOf(events[..|events| - 1]), events[|events| - 1])
  }

  /** All the text a client has been shown. */
  function DeltaText(events: seq<Event>): string {
    if events == [] then "" else Said(DeltaText(events[..|events| - 1]), events[|events| - 1])
  }

  function Said(before: string, event: Event): string {
    if event.Delta? then before + event.text else before
  }

  lemma {:induction false} EventsGrow(events: seq<Event>, event: Event)
    ensures StageOf(events + [event]) == Next(StageOf(events), event)
    ensures DeltaText(events + [event]) == Said(DeltaText(events), event)
  {
    assert (events + [event])[..|events|] == events;
  }

  /** Once broken or closed, always: so no prefix of an ordered run is out of order and a
      terminal event is the last. */
  lemma {:induction false} OrderOfPrefix(events: seq<Event>, n: nat)
    requires n <= |events| && StageOf(events) != Broken
    ensures StageOf(events[..n]) != Broken
    ensures n < |events| ==> StageOf(events[..n]) != Closed
    decreases |events| - n
  {
    if n < |events| {
      OrderOfPrefix(events, n + 1);
      assert events[..n + 1][..n] == events[..n];
    } else {
      assert events[..n] == events;
    }
  }

  /** What the grammar means: meta and sources come at most once, no delta before them, and
      nothing follows a done or an error. */
  lemma {:induction false} OrderMeans(events: seq<Event>, i: nat, j: nat)
    requires i < j < |events| && StageOf(events) != Broken
    ensures !events[i].Done? && !events[i].Error?
    ensures events[j] != Meta
    ensures events[j] == Sources ==> events[i] == Meta
    ensures events[i].Delta? ==> events[j].Delta? || events[j].Done? || events[j].Error?
  {
    OrderOfPrefix(events, i + 1);
    OrderOfPrefix(events, j);
    OrderOfPrefix(events, j + 1);
    assert events[..i + 1][..i] == events[..i] && events[..j + 1][..j] == events[..j];
    RankGrows(events, i + 1, j);
  }

  function Rank(stage: Stage): nat {
    match stage
    case Silent => 0
    case Introduced => 1
    case Sourced => 2
    case Streaming => 3
    case Closed => 4
    case Broken => 5
  }

  lemma {:induction false} RankGrows(events: seq<Event>, i: nat, j: nat)
    requires i <= j <= |events| && StageOf(events) != Broken
    ensures Rank(StageOf(events[..i])) <= Rank(StageOf(events[..j]))
    ensures i < j ==> Rank(StageOf(events[..j])) > 0
    ensures i < j && StageOf(events[..j]) != Streaming ==> Rank(StageOf(events[..i])) < Rank(StageOf(events[..j]))
  {
    if i < j {
      RankGrows(events, i, j - 1);
      OrderOfPrefix(events, j);
      assert events[..j][..j - 1] == events[..j - 1];
    }
  }

  // ---- what a run comes to ----------------------------------------------------------------------------------

  /** What the run holds at a moment: the attempt under way and the context blocks. */
  datatype Point = Point(attempt: Attempt, blocks: seq<Block>) {
    function Shown(): string {
      Concat(attempt.shown)
    }
  }

  /** How a path ends: with a record of its own, or with a failure, which the client is told of
      or which is raised. */
  datatype End = Going | Concluded(record: Record) | Interrupted(report: Option<Cause>)

  /** The events of a run whose client stays, each with the moment it is sent at; what is held
      after the last of them; and the end. */
  datatype Trace = Trace(events: seq<Event>, points: seq<Point>, now: Point, end: End)

  type Path = t: Trace | |t.points| == |t.events| witness Trace([], [], Point(NewAttempt(), []), Going)

  const START: Path := Trace([], [], Point(NewAttempt(), []), Going)

  function Sent(q: Path, event: Event): Path {
    q.(events := q.events + [event], points := q.points + [q.now])
  }

  /** The handlers report failures of the provider and of the budget; all others go on up. */
  function Handling(failure: Failure): Option<Cause> {
    match failure
    case GenerationFailed => Some(Provider)
    case BudgetBlocked => Some(Budget)
    case EmbeddingFailed => None
    case InternalError => None
    case Cancelled => None
  }

  function Fails(q: Path, failure: Failure): Path {
    q.(end := Interrupted(Handling(failure)))
  }

  function AfterNormalize(w: World): Path {
    if !(w.conversation && w.parent) then START
    else match w.normalizer
      case Raised(failure) => Fails(START, failure)
      case Returned(Proceed) => START
      case Returned(Clarify(question)) =>
        Sent(Sent(START, Meta), Sources).(end := Concluded(Record(Clarification, Some(question))))
  }

  function AfterRetrieve(w: World, q: Path): Path {
    if q.end != Going then q
    else match w.retrieval
      case Raised(EmbeddingFailed) => q.(end := Interrupted(Some(Provider)))
      case Raised(failure) => Fails(q, failure)
      case Returned(passed) => Sent(q, Meta).(end := if passed then Going else Concluded(Record(Refusal, None)))
  }

  /** A facet whose embedding fails is skipped. */
  function FacetFailure(facets: seq<Option<Failure>>, i: nat): Option<Failure>
    requires i <= |facets|
    decreases |facets| - i
  {
    if i == |facets| then None
    else if facets[i].Some? && facets[i] != Some(EmbeddingFailed) then facets[i]
    else FacetFailure(facets, i + 1)
  }

  /** A failure of the provider while planning is survived. */
  function PlanningFailure(w: World): Option<Failure> {
    match w.planning
    case None => None
    case Some(Raised(failure)) => if failure == GenerationFailed then None else Some(failure)
    case Some(Returned(facets)) => FacetFailure(facets, 0)
  }

  function AfterPrepare(w: World, q: Path): Path {
    if q.end != Going then q
    else if PlanningFailure(w).Some? then Fails(q, PlanningFailure(w).value)
    else if w.building.Some? then Fails(q, w.building.value)
    else Sent(q.(now := Point(q.now.attempt, w.context)), Sources)
  }

  /** What the buffers let through at a delta, and at the end of the stream. */
  function Visible(a: Attempt, text: string): string {
    TailFeed(a.tail, HeadFeed(a.head, text).1).1
  }

  function Rest(a: Attempt): string {
    var (tail, visible) := TailFeed(a.tail, HeadFlush(a.head).1);
    visible + TailFlush(tail).1
  }

  function Shows(q: Path, attempt: Attempt, visible: string): Path {
    var p := q.(now := Point(attempt, q.now.blocks));
    if visible == "" then p else Sent(p, Delta(visible))
  }

  function Fed(q: Path, text: string): Path {
    Shows(q, AttemptFeed(q.now.attempt, text), Visible(q.now.attempt, text))
  }

  function Streamed(q: Path, deltas: seq<string>): Path {
    if deltas == [] then q.(now := Point(NewAttempt(), q.now.blocks))
    else Fed(Streamed(q, deltas[..|deltas| - 1]), deltas[|deltas| - 1])
  }

  function Conversed(q: Path, reply: Reply): Path {
    var s := Streamed(q, reply.deltas);
    if reply.ending.Some? then Fails(s, reply.ending.value)
    else Shows(s, AttemptEnd(s.now.attempt), Rest(s.now.attempt))
  }

  function Tried(q: Path, reply: Reply): Path {
    var c := Conversed(q, reply);
    if c.end == Going && c.now.attempt.head.refused then c.(end := Concluded(Record(Refusal, None))) else c
  }

  /** Nothing to answer with, and nothing decided either. */
  predicate Empty(q: Path) {
    q.end == Going && IsBlank(q.now.Shown())
  }

  function Retried(w: World, q: Path): Path {
    var p := Tried(q, w.second);
    if Empty(p) then p.(end := Interrupted(Some(Provider))) else p
  }

  function AfterGenerate(w: World, q: Path): Path {
    if q.end != Going then q
    else
      var p := Tried(q, w.first);
      if Empty(p) then Retried(w, p) else p
  }

  function AfterAnswer(w: World, q: Path): Path {
    if q.end != Going then q
    else
      var answer := w.finalize(q.now.Shown());
      if ResolveRaises(q.now.attempt.tail.section, answer, q.now.blocks, w.fold, w.similar) then Fails(q, InternalError)
      else q.(end := Concluded(Record(Answered, Some(answer))))
  }

  /** The run of a client that stays. */
  function Unbroken(w: World): Path {
    AfterAnswer(w, AfterGenerate(w, AfterPrepare(w, AfterRetrieve(w, AfterNormalize(w)))))
  }

  /** Only a conversation insists on its record. */
  function Closing(w: World, record: Record): Event {
    if !w.conversation || w.storage == Recorded then Done(record.answer, record.kind == Refusal)
    else Error(if w.storage == SourceChanged then Changed else Unsaved)
  }

  /** What is sent once the record is written; a conversation hears its meta event first. */
  function Epilogue(w: World, q: Path): seq<Event> {
    match q.end
    case Going => []
    case Concluded(record) => [Closing(w, record)]
    case Interrupted(None) => []
    case Interrupted(Some(cause)) => (if w.conversation && q.events == [] then [Meta] else []) + [Error(cause)]
  }

  function Whole(w: World, q: Path): seq<Event> {
    q.events + Epilogue(w, q)
  }

  /** The client goes away within these events. */
  predicate Leaves(w: World, n: nat) {
    w.patience.Some? && 1 <= w.patience.value <= n
  }

  function Clip(w: World, events: seq<Event>): seq<Event> {
    if Leaves(w, |events|) then events[..w.patience.value] else events
  }

  /** Recording an unfinished answer resolves its quotes first; when that raises, nothing is
      recorded. */
  predicate Unrecordable(w: World, now: Point) {
    !IsBlank(now.Shown()) && ResolveRaises(now.attempt.tail.section, now.Shown(), now.blocks, w.fold, w.similar)
  }

  function Unfinished(now: Point): Record {
    Record(Incomplete, if IsBlank(now.Shown()) then None else Some(now.Shown()))
  }

  /** The moment an unfinished run is recorded at: when the client goes away before the run has
      ended, or where it fails. */
  function BrokenAt(w: World): Option<Point> {
    var q := Unbroken(w);
    if Leaves(w, |q.events|) then Some(q.points[w.patience.value - 1])
    else if q.end.Interrupted? then Some(q.now)
    else None
  }

  datatype Result = Result(events: seq<Event>, records: seq<Record>, raised: bool)

  /** All that is left of a run: what the client was sent, what was recorded, and whether the
      run raised. */
  function Final(w: World): Result {
    var q, broken := Unbroken(w), BrokenAt(w);
    if broken.Some? && Unrecordable(w, broken.value) then Result(Clip(w, q.events), [], true)
    else if Leaves(w, |q.events|) then Result(Clip(w, q.events), [Unfinished(broken.value)], true)
    else Result(Clip(w, Whole(w, q)), [if q.end.Concluded? then q.end.record else Unfinished(q.now)],
                Leaves(w, |Whole(w, q)|) || q.end == Interrupted(None))
  }

  // ---- later stages extend earlier ones ---------------------------------------------------------------------

  ghost predicate Extends(q: Path, p: Path) {
    q.events <= p.events && q.points <= p.points && (q.end != Going ==> p == q)
  }

  lemma {:induction false} ExtendsOn(q: Path, p: Path, r: Path)
    requires Extends(q, p) && Extends(p, r)
    ensures Extends(q, r)
  {
  }

  lemma {:induction false} StreamedExtends(q: Path, deltas: seq<string>, i: nat)
    requires q.end == Going && i <= |deltas|
    ensures Extends(Streamed(q, deltas[..i]), Streamed(q, deltas)) && Streamed(q, deltas).end == Going
    ensures Extends(q, Streamed(q, deltas))
  {
    if deltas == [] {
      assert deltas[..i] == deltas;
    } else if i == |deltas| {
      assert deltas[..i] == deltas;
      StreamedExtends(q, deltas[..|deltas| - 1], 0);
    } else {
      var before := deltas[..|deltas| - 1];
      StreamedExtends(q, before, i);
      assert before[..i] == deltas[..i];
      ExtendsOn(Streamed(q, deltas[..i]), Streamed(q, before), Streamed(q, deltas));
      ExtendsOn(q, Streamed(q, before), Streamed(q, deltas));
    }
  }

  lemma {:induction false} TriedExtends(q: Path, reply: Reply)
    requires q.end == Going
    ensures Extends(q, Tried(q, reply))
  {
    StreamedExtends(q, reply.deltas, 0);
  }

  lemma {:induction false} GenerateCases(w: World, q: Path)
    requires q.end == Going
    ensures Extends(q, Tried(q, w.first)) && Extends(Tried(q, w.first), AfterGenerate(w, q))
  {
    TriedExtends(q, w.first);
    if Empty(Tried(q, w.first)) {
      TriedExtends(Tried(q, w.first), w.second);
    }
  }

  lemma {:induction false} GenerateExtends(w: World, q: Path)
    ensures Extends(q, AfterGenerate(w, q))
  {
    if q.end == Going {
      GenerateCases(w, q);
      ExtendsOn(q, Tried(q, w.first), AfterGenerate(w, q));
    }
  }

  lemma {:induction false} AnswerExtends(w: World, q: Path)
    ensures Extends(q, AfterAnswer(w, q))
  {
  }

  lemma {:induction false} PrepareExtends(w: World, q: Path)
    ensures Extends(q, AfterPrepare(w, q))
  {
  }

  lemma {:induction false} RetrieveExtends(w: World, q: Path)
    ensures Extends(q, AfterRetrieve(w, q))
  {
  }

  lemma {:induction false} StagesExtend(w: World)
    ensures var a := AfterNormalize(w);
            var b := AfterRetrieve(w, a);
            var c := AfterPrepare(w, b);
            var d := AfterGenerate(w, c);
            Extends(a, Unbroken(w)) && Extends(b, Unbroken(w)) && Extends(c, Unbroken(w)) && Extends(d, Unbroken(w))
  {
    var a := AfterNormalize(w);
    var b := AfterRetrieve(w, a);
    var c := AfterPrepare(w, b);
    var d := AfterGenerate(w, c);
    RetrieveExtends(w, a);
    PrepareExtends(w, b);
    GenerateExtends(w, c);
    AnswerExtends(w, d);
    Chained(a, b, c, d, AfterAnswer(w, d));
  }

  lemma {:induction false} Chained(a: Path, b: Path, c: Path, d: Path, e: Path)
    requires Extends(a, b) && Extends(b, c) && Extends(c, d) && Extends(d, e)
    ensures Extends(a, e) && Extends(b, e) && Extends(c, e)
  {
    ExtendsOn(c, d, e);
    ExtendsOn(b, c, e);
    ExtendsOn(a, b, e);
  }

  // ---- one run, step by step --------------------------------------------------------------------------------

  /** What shows of a run while it goes on. */
  datatype Snap = Snap(events: seq<Event>, records: seq<Record>, now: Point)

  /** The stage that leads to q was left with a failure, and nothing is recorded yet: the client
      went away, or the failure is the one that ends q, or recording that end raised. */
  predicate Left(w: World, s: Snap, q: Path, failure: Failure) {
    if Leaves(w, |q.events|) then
      failure == Cancelled && s == Snap(Clip(w, q.events), [], q.points[w.patience.value - 1])
    else
      s == Snap(q.events, [], q.now) && q.end.Interrupted?
      && (Handling(failure) == q.end.report || (failure == InternalError && Unrecordable(w, q.now)))
  }

  /** The end of q is recorded and what follows was sent, up to where the client went away. */
  predicate Recounted(w: World, s: Snap, q: Path, failure: Option<Failure>) {
    && !Leaves(w, |q.events|) && q.end != Going
    && (q.end.Interrupted? ==> q.end.report.Some? && !Unrecordable(w, q.now))
    && s.events == Clip(w, Whole(w, q))
    && s.records == [if q.end.Concluded? then q.end.record else Unfinished(q.now)]
    && failure == if Leaves(w, |Whole(w, q)|) then Some(Cancelled) else None
  }

  lemma {:induction false} StreamedUnfolds(q: Path, deltas: seq<string>, i: nat)
    requires i < |deltas|
    ensures Streamed(q, deltas[..i + 1]) == Fed(Streamed(q, deltas[..i]), deltas[i])
  {
    assert deltas[..i + 1][..i] == deltas[..i];
  }

  lemma {:induction false} StreamedGrows(q: Path, deltas: seq<string>, i: nat)
    requires i < |deltas| && q.end == Going
    ensures Streamed(q, deltas[..i + 1]) == Fed(Streamed(q, deltas[..i]), deltas[i])
    ensures Extends(Streamed(q, deltas[..i + 1]), Streamed(q, deltas)) && Extends(q, Streamed(q, deltas[..i]))
    ensures Streamed(q, deltas[..i]).end == Going
  {
    StreamedUnfolds(q, deltas, i);
    StreamedExtends(q, deltas, i + 1);
    StreamedExtends(q, deltas[..i], 0);
  }

  class Run {
    const world: World
    var recordAttempted: bool
    var recorded: bool
    var metaEmitted: bool
    var blocks: seq<Block>
    var attempt: Attempt
    var events: seq<Event>
    var records: seq<Record>

    constructor (world: World)
      ensures this.world == world && At(START)
    {
      this.world := world;
      recordAttempted, recorded, metaEmitted := false, false, false;
      blocks, attempt, events, records := [], NewAttempt(), [], [];
    }

    function Snapshot(): Snap
      reads this
    {
      Snap(events, records, Point(attempt, blocks))
    }

    ghost predicate Valid()
      reads this
    {
      (recordAttempted <==> records != []) && (recorded <==> recordAttempted && world.storage == Recorded)
    }

    /** The run has come to where q is, nothing is recorded and the client is still there. */
    ghost predicate At(q: Path)
      reads this
    {
      && Valid() && Snapshot() == Snap(q.events, [], q.now)
      && (metaEmitted <==> q.events != []) && !Leaves(world, |q.events|)
    }

    /** A stage that leads to q has come this far: to q itself, to a failure on the way, or to a
        record. */
    ghost predicate Reached(q: Path, failure: Option<Failure>, finished: bool)
      reads this
    {
      if recordAttempted then Valid() && Recounted(world, Snapshot(), q, failure) && (failure.None? ==> finished)
      else if failure.None? then At(q) && q.end == Going && !finished
      else Valid() && Left(world, Snapshot(), q, failure.value) && (!Leaves(world, |q.events|) ==> At(q))
    }

    /** A stage that gave up or finished has done so for the whole run. */
    lemma {:induction false} Carries(q: Path, p: Path, failure: Option<Failure>, finished: bool)
      requires Reached(q, failure, finished) && Extends(q, p) && (failure.Some? || finished)
      ensures Reached(p, failure, finished)
    {
    }

    /** Sends an event; the client may be gone right after it. */
    method Yield(event: Event) returns (failure: Option<Failure>)
      modifies `events
      ensures events == old(events) + [event]
      ensures failure == if world.patience == Some(|events|) then Some(Cancelled) else None
    {
      events := events + [event];
      failure := if world.patience == Some(|events|) then Some(Cancelled) else None;
    }

    /** The first call records; later ones only tell whether it worked. */
    method RecordOnce(kind: Kind, answer: Option<string>) returns (result: Option<RecordResult>)
      requires Valid()
      modifies `recordAttempted, `recorded, `records
      ensures Valid() && recordAttempted
      ensures records == if old(recordAttempted) then old(records) else [Record(kind, answer)]
      ensures result == if old(recordAttempted) && world.storage != Recorded then None else Some(world.storage)
    {
      if recordAttempted {
        return if recorded then Some(Recorded) else None;
      }
      recordAttempted := true;
      records := records + [Record(kind, answer)];
      result := Some(world.storage);
      recorded := world.storage == Recorded;
    }

    /** Only a conversation insists on its record; sources that changed meanwhile are told apart
        from other failures. */
    method PersistenceError(result: Option<RecordResult>) returns (error: Option<Event>)
      ensures error.None? <==> !world.conversation || result == Some(Recorded)
      ensures error.Some? ==> error == Some(Error(if result == Some(SourceChanged) then Changed else Unsaved))
    {
      if !world.conversation || result == Some(Recorded) {
        return None;
      }
      error := Some(Error(if result == Some(SourceChanged) then Changed else Unsaved));
    }

    /** Records what has been shown so far, unless something is recorded already, or raises. */
    method RecordIncomplete() returns (failure: Option<Failure>)
      requires Valid()
      modifies `recordAttempted, `recorded, `records
      ensures Valid()
      ensures failure == if Unrecordable(world, Snapshot().now) then Some(InternalError) else None
      ensures records == if failure.Some? || old(recordAttempted) then old(records) else [Unfinished(Snapshot().now)]
    {
      var partial := Concat(attempt.shown);
      if !IsBlank(partial) && ResolveRaises(attempt.tail.section, partial, blocks, world.fold, world.similar) {
        return Some(InternalError);
      }
      var result := RecordOnce(Incomplete, if IsBlank(partial) then None else Some(partial));
      failure := None;
    }

    /** Closes a decided run: record, then done, or an error if a conversation lost its record. */
    method Conclude(kind: Kind, answer: Option<string>, ghost q: Path) returns (failure: Option<Failure>)
      requires At(q) && q.end == Concluded(Record(kind, answer))
      modifies `recordAttempted, `recorded, `records, `events
      ensures Reached(q, failure, true) && recordAttempted
    {
      var result := RecordOnce(kind, answer);
      var error := PersistenceError(result);
      if error.Some? {
        failure := Yield(error.value);
        return;
      }
      failure := Yield(Done(answer, kind == Refusal));
    }

    /** Records the unfinished answer and tells the client of the failure, introducing a
        conversation's events first. */
    method Fail(cause: Cause, ghost q: Path) returns (failure: Option<Failure>)
      requires At(q) && q.end == Interrupted(Some(cause))
      modifies `recordAttempted, `recorded, `records, `events, `metaEmitted
      ensures Reached(q, failure, true)
      ensures recordAttempted <==> !Unrecordable(world, q.now)
    {
      failure := RecordIncomplete();
      if failure.Some? {
        return;
      }
      if world.conversation && !metaEmitted {
        failure := Yield(Meta);
        if failure.Some? {
          return;
        }
        metaEmitted := true;
      }
      failure := Yield(Error(cause));
    }

    // -- the stages -----------------------------------------------------------------------------------------

    method Normalize() returns (failure: Option<Failure>, finished: bool)
      requires At(START)
      modifies `recordAttempted, `recorded, `records, `events, `metaEmitted
      ensures Reached(AfterNormalize(world), failure, finished)
    {
      finished := false;
      if !(world.conversation && world.parent) {
        return None, false;
      }
      if world.normalizer.Raised? {
        return Some(world.normalizer.failure), false;
      }
      match world.normalizer.value
      case Proceed => failure := None;
      case Clarify(question) =>
        failure := Yield(Meta);
        if failure.Some? {
          return;
        }
        metaEmitted := true;
        failure := Yield(Sources);
        if failure.Some? {
          return;
        }
        failure := Conclude(Clarification, Some(question), AfterNormalize(world));
        finished := true;
    }

    method Retrieve(ghost q: Path) returns (failure: Option<Failure>, finished: bool)
      requires At(q) && q == START
      modifies `recordAttempted, `recorded, `records, `events, `metaEmitted
      ensures Reached(AfterRetrieve(world, q), failure, finished)
    {
      finished := false;
      if world.retrieval == Raised(EmbeddingFailed) {
        failure := Fail(Provider, AfterRetrieve(world, q));
        finished := failure.None?;
        return;
      }
      if world.retrieval.Raised? {
        return Some(world.retrieval.failure), false;
      }
      failure := Yield(Meta);
      if failure.Some? {
        return;
      }
      metaEmitted := true;
      if !world.retrieval.value {
        failure := Conclude(Refusal, None, AfterRetrieve(world, q));
        finished := true;
      }
    }

    /** Planning may fail quietly, and so may the search for a facet; then the context is built
        and its sources are announced. */
    method Prepare(ghost q: Path) returns (failure: Option<Failure>)
      requires At(q) && q.end == Going && q.events == [Meta]
      modifies `events, `blocks
      ensures Reached(AfterPrepare(world, q), failure, false)
    {
      if world.planning.Some? && world.planning.value.Raised? && world.planning.value.failure != GenerationFailed {
        return Some(world.planning.value.failure);
      }
      if world.planning.Some? && world.planning.value.Returned? {
        var facets := world.planning.value.value;
        for i := 0 to |facets|
          invariant FacetFailure(facets, 0) == FacetFailure(facets, i)
        {
          if facets[i].Some? && facets[i] != Some(EmbeddingFailed) {
            return facets[i];
          }
        }
      }
      if world.building.Some? {
        return world.building;
      }
      blocks := world.context;
      failure := Yield(Sources);
    }

    /** Streams one reply through both buffers. */
    method Converse(reply: Reply, ghost q: Path) returns (failure: Option<Failure>)
      requires At(q) && q.end == Going && q.events != []
      modifies `events, `attempt
      ensures Reached(Conversed(q, reply), failure, false) && !recordAttempted
    {
      failure := Receive(reply.deltas, q);
      StreamedExtends(q, reply.deltas, 0);
      if failure.Some? {
        Carries(Streamed(q, reply.deltas), Conversed(q, reply), failure, false);
        return;
      }
      if reply.ending.Some? {
        return reply.ending;
      }
      failure := Flush(Streamed(q, reply.deltas));
    }

    method Receive(deltas: seq<string>, ghost q: Path) returns (failure: Option<Failure>)
      requires At(q) && q.end == Going && q.events != []
      modifies `events, `attempt
      ensures Reached(Streamed(q, deltas), failure, false) && !recordAttempted
    {
      attempt := NewAttempt();
      failure := None;
      ghost var p := Streamed(q, []);
      for i := 0 to |deltas|
        invariant failure.None? && At(p) && p.end == Going && p.events != [] && p == Streamed(q, deltas[..i])
      {
        StreamedGrows(q, deltas, i);
        failure := Feed(deltas[i], p);
        p := Fed(p, deltas[i]);
        if failure.Some? {
          Carries(p, Streamed(q, deltas), failure, false);
          return;
        }
      }
      assert deltas[..|deltas|] == deltas;
    }

    method Feed(text: string, ghost q: Path) returns (failure: Option<Failure>)
      requires At(q) && q.end == Going && q.events != []
      modifies `events, `attempt
      ensures Reached(Fed(q, text), failure, false) && !recordAttempted
    {
      var (head, passed) := HeadFeed(attempt.head, text);
      var (tail, visible) := TailFeed(attempt.tail, passed);
      failure := Present(head, tail, visible, q);
    }

    method Flush(ghost q: Path) returns (failure: Option<Failure>)
      requires At(q) && q.end == Going && q.events != []
      modifies `events, `attempt
      ensures Reached(Shows(q, AttemptEnd(q.now.attempt), Rest(q.now.attempt)), failure, false) && !recordAttempted
    {
      var (head, passed) := HeadFlush(attempt.head);
      var (tail, visible) := TailFeed(attempt.tail, passed);
      var (tail', rest) := TailFlush(tail);
      failure := Present(head, tail', visible + rest, q);
    }

    method Present(head: Head, tail: Tail, visible: string, ghost q: Path) returns (failure: Option<Failure>)
      requires At(q) && q.end == Going && q.events != []
      modifies `events, `attempt
      ensures Reached(Shows(q, Attempt(head, tail, Show(q.now.attempt.shown, visible)), visible), failure, false)
        && !recordAttempted
    {
      attempt := Attempt(head, tail, Show(attempt.shown, visible));
      if visible != "" {
        failure := Yield(Delta(visible));
      } else {
        failure := None;
      }
    }

    /** One attempt at an answer: a refusal or a failure of the provider settles the run. */
    method Try(reply: Reply, ghost q: Path) returns (failure: Option<Failure>, finished: bool)
      requires At(q) && q.end == Going && q.events != []
      modifies `recordAttempted, `recorded, `records, `events, `metaEmitted, `attempt
      ensures Reached(Tried(q, reply), failure, finished)
    {
      finished := false;
      failure := Converse(reply, q);
      if failure == Some(GenerationFailed) {
        failure := Fail(Provider, Tried(q, reply));
        finished := failure.None?;
        return;
      }
      if failure.Some? {
        return;
      }
      if attempt.head.refused {
        failure := Conclude(Refusal, None, Tried(q, reply));
        finished := true;
      }
    }

    /** The second attempt is made only after an empty first one, and is the last. */
    method Generate(ghost q: Path) returns (failure: Option<Failure>, finished: bool)
      requires At(q) && q.end == Going && q.events != []
      modifies `recordAttempted, `recorded, `records, `events, `metaEmitted, `attempt
      ensures Reached(AfterGenerate(world, q), failure, finished)
    {
      ghost var p := Tried(q, world.first);
      GenerateCases(world, q);
      failure, finished := Try(world.first, q);
      if failure.Some? || finished {
        Carries(p, AfterGenerate(world, q), failure, finished);
        return;
      }
      if IsBlank(Concat(attempt.shown)) {
        failure, finished := Retry(p);
      }
    }

    method Retry(ghost q: Path) returns (failure: Option<Failure>, finished: bool)
      requires At(q) && q.end == Going && q.events != []
      modifies `recordAttempted, `recorded, `records, `events, `metaEmitted, `attempt
      ensures Reached(Retried(world, q), failure, finished)
    {
      failure, finished := Try(world.second, q);
      if failure.Some? || finished {
        Carries(Tried(q, world.second), Retried(world, q), failure, finished);
        return;
      }
      if IsBlank(Concat(attempt.shown)) {
        failure := Fail(Provider, Retried(world, q));
        finished := failure.None?;
      }
    }

    /** The answer is finalised, its quotes resolved, and recorded before it is announced. */
    method Answer(ghost q: Path) returns (failure: Option<Failure>, finished: bool)
      requires At(q) && q.end == Going && q.events != []
      modifies `recordAttempted, `recorded, `records, `events
      ensures Reached(AfterAnswer(world, q), failure, finished)
      ensures failure.None? ==> finished
    {
      var raw := Concat(attempt.shown);
      var answer := world.finalize(raw);
      if ResolveRaises(attempt.tail.section, answer, blocks, world.fold, world.similar) {
        return Some(InternalError), false;
      }
      failure := Conclude(Answered, Some(answer), AfterAnswer(world, q));
      finished := true;
    }

    /** The body of the query, up to whatever it raises. */
    method Body() returns (failure: Option<Failure>)
      requires At(START)
      modifies this
      ensures Reached(Unbroken(world), failure, true)
    {
      var finished: bool;
      StagesExtend(world);
      ghost var q := AfterNormalize(world);
      failure, finished := Normalize();
      if failure.Some? || finished {
        Carries(q, Unbroken(world), failure, finished);
        return;
      }
      ghost var p := AfterRetrieve(world, q);
      failure, finished := Retrieve(q);
      if failure.Some? || finished {
        Carries(p, Unbroken(world), failure, finished);
        return;
      }
      q := AfterPrepare(world, p);
      failure := Prepare(p);
      if failure.Some? {
        Carries(q, Unbroken(world), failure, false);
        return;
      }
      p := AfterGenerate(world, q);
      failure, finished := Generate(q);
      if failure.Some? || finished {
        Carries(p, Unbroken(world), failure, finished);
        return;
      }
      GenerateExtends(world, q);
      failure, finished := Answer(p);
    }

    /** The handlers around the body: report and swallow, or record and raise again. */
    method Handle(raised: Failure) returns (failure: Option<Failure>)
      requires Reached(Unbroken(world), Some(raised), true)
      modifies this
      ensures Valid() && Result(events, records, failure.Some?) == Final(world)
      ensures !recordAttempted ==> failure.Some? && Unrecordable(world, Snapshot().now)
    {
      if raised == GenerationFailed {
        failure := Fail(Provider, Unbroken(world));
      } else if raised == BudgetBlocked {
        failure := Fail(Budget, Unbroken(world));
      } else {
        failure := RecordIncomplete();
        failure := if failure.Some? then failure else Some(raised);
      }
    }

    /** The body, its handlers, and the last resort after them. */
    method Execute() returns (failure: Option<Failure>)
      requires At(START)
      modifies this
      ensures Result(events, records, failure.Some?) == Final(world)
    {
      failure := Body();
      if failure.Some? {
        failure := Handle(failure.value);
      }
      if !recordAttempted {
        var raised := RecordIncomplete();
        failure := if raised.Some? then raised else failure;
      }
    }
  }

  /** One query, with its handlers and its client: it leaves exactly what `Final` says. */
  method RunQuery(world: World) returns (events: seq<Event>, records: seq<Record>, raised: bool)
    ensures Result(events, records, raised) == Final(world)
  {
    var run := new Run(world);
    var failure := run.Execute();
    events, records, raised := run.events, run.records, failure.Some?;
  }

  // ---- what every run keeps -----------------------------------------------------------------------------------

  predicate IsReply(w: World, reply: Reply) {
    reply == w.first || reply == w.second
  }

  ghost predicate ReachedBy(reply: Reply, attempt: Attempt, k: nat) {
    k <= |reply.deltas| && attempt == AttemptRun(reply.deltas[..k])
  }

  /** All of one reply so far, or to its end. */
  ghost predicate IsOf(reply: Reply, attempt: Attempt) {
    attempt == AttemptEnd(AttemptRun(reply.deltas)) || exists k: nat {:trigger ReachedBy(reply, attempt, k)} ::
      ReachedBy(reply, attempt, k)
  }

  /** An attempt that has shown anything is at one of the replies, with the context as its blocks. */
  ghost predicate Momentary(w: World, now: Point) {
    now.attempt.shown == [] || (now.blocks == w.context && (IsOf(w.first, now.attempt) || IsOf(w.second, now.attempt)))
  }

  /** The client has been shown what the attempt under way holds, after nothing but white space. */
  ghost predicate Telling(w: World, events: seq<Event>, now: Point) {
    Momentary(w, now) && exists before :: IsBlank(before) && DeltaText(events) == before + now.Shown()
  }

  ghost predicate TellsAt(w: World, events: seq<Event>, points: seq<Point>, k: nat)
    requires k < |events| == |points|
  {
    Telling(w, events[..k + 1], points[k])
  }

  /** In order, not closed, and telling at every moment. */
  ghost predicate Sound(w: World, q: Path) {
    && StageOf(q.events) in {Silent, Introduced, Sourced, Streaming}
    && (q.events == [] <==> StageOf(q.events) == Silent)
    && Telling(w, q.events, q.now)
    && (forall k: nat {:trigger TellsAt(w, q.events, q.points, k)} ::
        k < |q.events|
        ==> TellsAt(w, q.events, q.points, k))
  }

  lemma {:induction false} SendingKeepsSound(w: World, q: Path, event: Event, p: Path)
    requires Sound(w, q) && p == Sent(q.(now := p.now), event) && Telling(w, p.events, p.now)
    requires Next(StageOf(q.events), event) in {Introduced, Sourced, Streaming}
    ensures Sound(w, p)
  {
    hide Telling;
    hide DeltaText;
    EventsGrow(q.events, event);
    forall k: nat | k < |p.events| ensures TellsAt(w, p.events, p.points, k) {
      if k < |q.events| {
        assert TellsAt(w, q.events, q.points, k) && p.events[..k + 1] == q.events[..k + 1];
      } else {
        assert p.events[..k + 1] == p.events;
      }
    }
  }

  lemma {:induction false} MovingKeepsSound(w: World, q: Path, now: Point)
    requires Sound(w, q) && Telling(w, q.events, now)
    ensures Sound(w, q.(now := now))
  {
    hide Telling;
    hide StageOf;
  }

  /** Before any delta nothing has been shown. */
  lemma {:induction false} QuietTells(w: World, events: seq<Event>, now: Point)
    requires now.attempt.shown == [] && DeltaText(events) == ""
    ensures Telling(w, events, now)
  {
    var before := "";
    assert IsBlank(before) && before + now.Shown() == "";
  }

  /** Quiet until the sources are out. */
  ghost predicate Opening(w: World, q: Path, stage: Stage) {
    Sound(w, q) && StageOf(q.events) == stage && q.now.attempt == NewAttempt() && DeltaText(q.events) == ""
  }

  lemma {:induction false} StartIsQuiet(w: World)
    ensures Opening(w, START, Silent)
  {
    QuietTells(w, [], START.now);
  }

  lemma {:induction false} SendingIsQuiet(w: World, q: Path, event: Event, p: Path, stage: Stage)
    requires Opening(w, q, stage) && !event.Delta? && p == Sent(q.(now := p.now), event)
      && p.now.attempt == NewAttempt()
    requires Next(stage, event) in {Introduced, Sourced, Streaming}
    ensures Opening(w, p, Next(stage, event))
  {
    EventsGrow(q.events, event);
    QuietTells(w, p.events, p.now);
    SendingKeepsSound(w, q, event, p);
  }

  lemma {:induction false} NormalizeIsSound(w: World)
    ensures Sound(w, AfterNormalize(w)) && (AfterNormalize(w).end == Going ==> Opening(w, AfterNormalize(w), Silent))
    ensures AfterNormalize(w).end.Concluded? ==>
      AfterNormalize(w).end.record.kind == Clarification
      && AfterNormalize(w).events != []
  {
    StartIsQuiet(w);
    SendingIsQuiet(w, START, Meta, Sent(START, Meta), Silent);
    SendingIsQuiet(w, Sent(START, Meta), Sources, Sent(Sent(START, Meta), Sources), Introduced);
  }

  lemma {:induction false} RetrieveIsSound(w: World, q: Path)
    requires Opening(w, q, Silent) && q.end == Going
    ensures var p := AfterRetrieve(w, q); Sound(w, p) && (p.end == Going ==> Opening(w, p, Introduced))
    ensures var p := AfterRetrieve(w, q);
            p.end.Concluded? ==> p.end.record == Record(Refusal, None) && p.events != [] && p.now.Shown() == ""
  {
    SendingIsQuiet(w, q, Meta, Sent(q, Meta), Silent);
  }

  lemma {:induction false} PrepareIsSound(w: World, q: Path)
    requires Opening(w, q, Introduced) && q.end == Going
    ensures var p := AfterPrepare(w, q);
            Sound(w, p) && !p.end.Concluded? && (p.end == Going ==> Opening(w, p, Sourced) && p.now.blocks == w.context)
  {
    var p := q.(now := Point(q.now.attempt, w.context));
    SendingIsQuiet(w, q, Sources, Sent(p, Sources), Introduced);
  }

  // -- the attempts

  /** So far the client has been shown this, then the text of the attempt under way. */
  ghost predicate Speaking(w: World, q: Path, before: string) {
    && Sound(w, q) && StageOf(q.events) in {Sourced, Streaming} && q.now.blocks == w.context
    && IsBlank(before) && DeltaText(q.events) == before + q.now.Shown()
  }

  lemma {:induction false} ShowsSpeaks(w: World, q: Path, attempt: Attempt, visible: string, before: string)
    requires Speaking(w, q, before) && attempt.shown == Show(q.now.attempt.shown, visible)
    requires IsOf(w.first, attempt) || IsOf(w.second, attempt)
    ensures Speaking(w, Shows(q, attempt, visible), before)
  {
    hide Sound;
    var now := Point(attempt, q.now.blocks);
    ShowConcat(q.now.attempt.shown, visible);
    assert now.Shown() == q.now.Shown() + visible;
    if visible == "" {
      assert now.Shown() == q.now.Shown();
      MovingKeepsSound(w, q, now);
    } else {
      DeltaSpeaks(w, q, now, visible, before);
    }
  }

  lemma {:induction false} DeltaSpeaks(w: World, q: Path, now: Point, visible: string, before: string)
    requires Speaking(w, q, before) && Momentary(w, now) && now.blocks == w.context
      && now.Shown() == q.now.Shown() + visible
    ensures Speaking(w, Sent(q.(now := now), Delta(visible)), before)
  {
    hide Sound;
    var p := Sent(q.(now := now), Delta(visible));
    EventsGrow(q.events, Delta(visible));
    Associates(before, q.now.Shown(), visible);
    assert DeltaText(p.events) == before + now.Shown();
    SendingKeepsSound(w, q, Delta(visible), p);
  }

  /** Before an attempt only white space has been shown. */
  ghost predicate Ready(w: World, q: Path) {
    Sound(w, q) && StageOf(q.events) in {Sourced, Streaming} && q.now.blocks == w.context
      && IsBlank(DeltaText(q.events)) && q.end == Going
  }

  lemma {:induction false} FedSpeaks(w: World, p: Path, reply: Reply, k: nat, before: string)
    requires IsReply(w, reply) && k < |reply.deltas| && Speaking(w, p, before)
    requires p.now.attempt == AttemptRun(reply.deltas[..k])
    ensures Speaking(w, Fed(p, reply.deltas[k]), before)
    ensures Fed(p, reply.deltas[k]).now.attempt == AttemptRun(reply.deltas[..k + 1])
      && Fed(p, reply.deltas[k]).end == p.end
  {
    hide Sound;
    hide HeadFeed;
    hide TailFeed;
    assert reply.deltas[..k + 1][..k] == reply.deltas[..k];
    var attempt := AttemptFeed(p.now.attempt, reply.deltas[k]);
    assert ReachedBy(reply, attempt, k + 1);
    ShowsSpeaks(w, p, attempt, Visible(p.now.attempt, reply.deltas[k]), before);
  }

  ghost predicate SpeakingAt(w: World, p: Path, before: string, attempt: Attempt) {
    Speaking(w, p, before) && p.now.attempt == attempt && p.end == Going
  }

  lemma {:induction false} AttemptStarts(w: World, q: Path)
    requires Ready(w, q)
    ensures SpeakingAt(w, Streamed(q, []), DeltaText(q.events), AttemptRun([]))
  {
    var before, now := DeltaText(q.events), Point(NewAttempt(), q.now.blocks);
    assert before + "" == before;
    assert Telling(w, q.events, now);
    MovingKeepsSound(w, q, now);
  }

  lemma {:induction false} StreamedSpeaks(w: World, q: Path, reply: Reply, k: nat)
    requires Ready(w, q) && IsReply(w, reply) && k <= |reply.deltas|
    ensures SpeakingAt(w, Streamed(q, reply.deltas[..k]), DeltaText(q.events), AttemptRun(reply.deltas[..k]))
  {
    hide Sound;
    hide Fed;
    if k == 0 {
      AttemptStarts(w, q);
      assert reply.deltas[..k] == [];
    } else {
      StreamedSpeaks(w, q, reply, k - 1);
      StreamedUnfolds(q, reply.deltas, k - 1);
      SpeakingGoesOn(w, Streamed(q, reply.deltas[..k - 1]), reply, k - 1, DeltaText(q.events));
    }
  }

  lemma {:induction false} SpeakingGoesOn(w: World, p: Path, reply: Reply, k: nat, before: string)
    requires IsReply(w, reply) && k < |reply.deltas| && SpeakingAt(w, p, before, AttemptRun(reply.deltas[..k]))
    ensures SpeakingAt(w, Fed(p, reply.deltas[k]), before, AttemptRun(reply.deltas[..k + 1]))
  {
    FedSpeaks(w, p, reply, k, before);
  }

  lemma {:induction false} ConversedSpeaks(w: World, q: Path, reply: Reply)
    requires Ready(w, q) && IsReply(w, reply)
    ensures var p := Conversed(q, reply);
            && Speaking(w, p, DeltaText(q.events)) && !p.end.Concluded?
            && (p.end == Going ==> p.now.attempt == AttemptEnd(AttemptRun(reply.deltas)))
  {
    var deltas := reply.deltas;
    StreamedSpeaks(w, q, reply, |deltas|);
    assert deltas[..|deltas|] == deltas;
    var s := Streamed(q, deltas);
    if reply.ending.None? {
      ShowsSpeaks(w, s, AttemptEnd(s.now.attempt), Rest(s.now.attempt), DeltaText(q.events));
    }
  }

  /** An attempt that goes on is all of its reply and no refusal; a refusal has shown nothing. */
  lemma {:induction false} TriedSpeaks(w: World, q: Path, reply: Reply)
    requires Ready(w, q) && IsReply(w, reply)
    ensures var p := Tried(q, reply);
            && Speaking(w, p, DeltaText(q.events))
            && (p.end == Going ==> p.now.attempt == AttemptEnd(AttemptRun(reply.deltas)) && !p.now.attempt.head.refused)
            && (p.end.Concluded? ==> p.end.record == Record(Refusal, None) && IsBlank(DeltaText(p.events)))
  {
    ConversedSpeaks(w, q, reply);
    RefusalIsSilent(reply.deltas, DeltaText(q.events));
  }

  lemma {:induction false} RefusalIsSilent(deltas: seq<string>, before: string)
    ensures var a := AttemptEnd(AttemptRun(deltas)); a.head.refused ==> before + Concat(a.shown) == before
  {
    RefusalShowsNothing(deltas);
    assert before + "" == before;
  }

  lemma {:induction false} BlankJoin(a: string, b: string)
    requires IsBlank(a) && IsBlank(b)
    ensures IsBlank(a + b)
  {
  }

  /** What a generated path leaves behind it. */
  ghost predicate Generated(w: World, p: Path) {
    && Sound(w, p) && StageOf(p.events) in {Sourced, Streaming}
    && (p.end == Going ==> WholeReply(w, p.now.attempt))
    && (p.end.Concluded? ==> p.end.record == Record(Refusal, None) && IsBlank(DeltaText(p.events)))
  }

  /** The attempt is all of one reply, up to its end, and no refusal. */
  ghost predicate WholeReply(w: World, attempt: Attempt) {
    !attempt.head.refused
      && (attempt == AttemptEnd(AttemptRun(w.first.deltas)) || attempt == AttemptEnd(AttemptRun(w.second.deltas)))
  }

  lemma {:induction false} RetriedIsSound(w: World, q: Path)
    requires Ready(w, q)
    ensures Generated(w, Retried(w, q))
  {
    TriedSpeaks(w, q, w.second);
  }

  lemma {:induction false} GenerateIsSound(w: World, q: Path)
    requires Opening(w, q, Sourced) && q.end == Going && q.now.blocks == w.context
    ensures Generated(w, AfterGenerate(w, q))
  {
    TriedSpeaks(w, q, w.first);
    var p := Tried(q, w.first);
    if Empty(p) {
      BlankJoin(DeltaText(q.events), p.now.Shown());
      RetriedIsSound(w, p);
    }
  }

  /** What a record says about the events it came after. */
  ghost predicate Matches(w: World, p: Path, record: Record) {
    match record.kind
    case Answered => WholeReply(w, p.now.attempt) && record.answer == Some(w.finalize(p.now.Shown()))
    case Refusal => record.answer.None? && IsBlank(DeltaText(p.events))
    case Clarification => true
    case Incomplete => false
  }

  lemma {:induction false} UnbrokenIsSound(w: World)
    ensures var q := Unbroken(w);
            Sound(w, q) && q.end != Going && (q.end.Concluded? ==> q.events != [] && Matches(w, q, q.end.record))
  {
    var a := AfterNormalize(w);
    NormalizeIsSound(w);
    if a.end == Going {
      RetrieveIsSound(w, a);
      var b := AfterRetrieve(w, a);
      if b.end == Going {
        PrepareIsSound(w, b);
        var c := AfterPrepare(w, b);
        if c.end == Going {
          GenerateIsSound(w, c);
        }
      }
    }
  }

  // ---- what the client and the record say ------------------------------------------------------------------------

  lemma {:induction false} EventCloses(events: seq<Event>, last: Event)
    requires StageOf(events) in {Silent, Introduced, Sourced, Streaming}
      && (last.Error? || (last.Done? && StageOf(events) != Silent))
    ensures StageOf(events + [last]) == Closed && DeltaText(events + [last]) == DeltaText(events)
  {
    EventsGrow(events, last);
  }

  lemma {:induction false} ReportCloses(cause: Cause)
    ensures StageOf([Meta] + [Error(cause)]) == Closed && DeltaText([Meta] + [Error(cause)]) == ""
  {
    EventsGrow([], Meta);
    assert [] + [Meta] == [Meta];
    EventCloses([Meta], Error(cause));
  }

  lemma {:induction false} WholeCloses(w: World, q: Path)
    requires Sound(w, q) && q.end != Going && (q.end.Concluded? ==> q.events != [])
    ensures StageOf(Whole(w, q)) == if q.end == Interrupted(None) then StageOf(q.events) else Closed
    ensures DeltaText(Whole(w, q)) == DeltaText(q.events)
  {
    var events := q.events;
    match q.end
    case Going =>
    case Concluded(record) => EventCloses(events, Closing(w, record));
    case Interrupted(None) =>
      assert events + [] == events;
    case Interrupted(Some(cause)) =>
      EventCloses(events, Error(cause));
      ReportCloses(cause);
      assert [] + ([Meta] + [Error(cause)]) == [Meta] + [Error(cause)];
      assert events + ([] + [Error(cause)]) == events + [Error(cause)];
  }

  /** Where the client goes away, what it has been sent so far is a prefix. */
  lemma {:induction false} ClippedPrefix(events: seq<Event>, k: nat)
    requires k <= |events| && StageOf(events) != Broken
    ensures StageOf(events[..k]) != Broken && (k < |events| ==> StageOf(events[..k]) != Closed)
  {
    OrderOfPrefix(events, k);
  }

  /** Whatever happens, the events are in order, and a run that does not raise ends with its one
      terminal event. */
  lemma {:induction false} RunInOrder(w: World)
    ensures StageOf(Final(w).events) != Broken
    ensures !Final(w).raised ==> StageOf(Final(w).events) == Closed
  {
    var q := Unbroken(w);
    UnbrokenIsSound(w);
    WholeCloses(w, q);
    if Leaves(w, |q.events|) {
      ClippedPrefix(q.events, w.patience.value);
    }
    if Leaves(w, |Whole(w, q)|) {
      ClippedPrefix(Whole(w, q), w.patience.value);
    }
  }

  lemma {:induction false} NotDone(events: seq<Event>)
    requires StageOf(events) != Broken && StageOf(events) != Closed
    ensures events != [] ==> !events[|events| - 1].Done?
  {
  }

  ghost predicate EndsDone(events: seq<Event>) {
    events != [] && events[|events| - 1].Done?
  }

  lemma {:induction false} ClipNotDone(w: World, events: seq<Event>)
    requires StageOf(events) != Broken && !EndsDone(events)
    ensures !EndsDone(Clip(w, events))
  {
    if Leaves(w, |events|) {
      var k := w.patience.value;
      ClippedPrefix(events, k);
      if k < |events| {
        NotDone(events[..k]);
      } else {
        assert events[..k] == events;
      }
    }
  }

  /** Short of a record of its own a run has no done. */
  lemma {:induction false} UnendedNotDone(w: World)
    ensures var q := Unbroken(w);
            !EndsDone(Clip(w, q.events)) && (!q.end.Concluded? ==> !EndsDone(Clip(w, Whole(w, q))))
  {
    var q := Unbroken(w);
    UnbrokenIsSound(w);
    NotDone(q.events);
    ClipNotDone(w, q.events);
    if !q.end.Concluded? {
      WholeCloses(w, q);
      ClipNotDone(w, Whole(w, q));
    }
  }

  /** A done event comes after the record and agrees with it, and a conversation hears it only
      if the record was saved. */
  lemma {:induction false} DoneMeansRecorded(w: World)
    requires EndsDone(Final(w).events)
    ensures |Final(w).records| == 1 && (w.conversation ==> w.storage == Recorded)
    ensures var record, done := Final(w).records[0], Final(w).events[|Final(w).events| - 1];
            record.kind != Incomplete && record.answer == done.answer && (done.refused <==> record.kind == Refusal)
  {
    UnbrokenIsSound(w);
    UnendedNotDone(w);
  }

  lemma {:induction false} ClipKeepsText(w: World, events: seq<Event>, n: nat)
    requires n <= |events| && DeltaText(events[..n]) == DeltaText(events) && !Leaves(w, n)
    ensures DeltaText(Clip(w, events)) == DeltaText(events)
  {
    if Leaves(w, |events|) {
      TextGrows(events, n, w.patience.value);
      TextGrows(events, w.patience.value, |events|);
      assert events[..|events|] == events;
    }
  }

  /** The text shown is not changed by what follows the record. */
  lemma {:induction false} ClippedTells(w: World)
    ensures var q := Unbroken(w); !Leaves(w, |q.events|) ==> DeltaText(Clip(w, Whole(w, q))) == DeltaText(q.events)
  {
    var q := Unbroken(w);
    UnbrokenIsSound(w);
    WholeCloses(w, q);
    assert Whole(w, q)[..|q.events|] == q.events;
    if !Leaves(w, |q.events|) {
      ClipKeepsText(w, Whole(w, q), |q.events|);
    }
  }

  lemma {:induction false} TextGrows(events: seq<Event>, i: nat, j: nat)
    requires i <= j <= |events|
    ensures DeltaText(events[..i]) <= DeltaText(events[..j])
  {
    if i < j {
      TextGrows(events, i, j - 1);
      assert events[..j][..j - 1] == events[..j - 1];
    }
  }

  /** A refused run has shown nothing but white space. */
  lemma {:induction false} RefusalShowsBlank(w: World)
    requires Final(w).records != [] && Final(w).records[0].kind == Refusal
    ensures Final(w).records[0].answer.None? && IsBlank(DeltaText(Final(w).events))
  {
    UnbrokenIsSound(w);
    ClippedTells(w);
  }

  /** An answer is one whole reply, up to its quotes section, and exactly that was shown. */
  lemma {:induction false} AnswerIsWholeReply(w: World) returns (attempt: Attempt, before: string)
    requires Final(w).records != [] && Final(w).records[0].kind == Answered
    ensures WholeReply(w, attempt) && IsBlank(before) && DeltaText(Final(w).events) == before + Concat(attempt.shown)
    ensures Final(w).records[0].answer == Some(w.finalize(Concat(attempt.shown)))
  {
    UnbrokenIsSound(w);
    ClippedTells(w);
    var q := Unbroken(w);
    attempt := q.now.attempt;
    before :| IsBlank(before) && DeltaText(q.events) == before + q.now.Shown();
  }

  /** The moment a run broke off at tells what the client has been shown. */
  lemma {:induction false} BrokenTells(w: World)
    requires BrokenAt(w).Some?
    ensures Telling(w, Final(w).events, BrokenAt(w).value)
  {
    hide DeltaText, Unbroken;
    var q := Unbroken(w);
    UnbrokenIsSound(w);
    ClippedTells(w);
    if Leaves(w, |q.events|) {
      var k := w.patience.value - 1;
      assert TellsAt(w, q.events, q.points, k);
    }
  }

  /** Exactly the runs that break off are recorded as incomplete, with what was shown. */
  lemma {:induction false} IncompleteIsShown(w: World) returns (before: string, shown: string)
    requires Final(w).records != [] && Final(w).records[0].kind == Incomplete
    ensures IsBlank(before) && DeltaText(Final(w).events) == before + shown
    ensures Final(w).records[0].answer == if IsBlank(shown) then None else Some(shown)
  {
    UnbrokenIsSound(w);
    BrokenTells(w);
    shown := BrokenAt(w).value.Shown();
    before :| IsBlank(before) && DeltaText(Final(w).events) == before + shown;
  }

  // ---- runs without a record ----------------------------------------------------------------------------------------

  /** There is one record, except exactly when the run breaks off, by a failure or because the
      client is gone, at a moment whose quotes cannot be resolved; such a run raises. */
  lemma {:induction false} RecordMissingIff(w: World)
    ensures |Final(w).records| <= 1
    ensures Final(w).records == [] <==> BrokenAt(w).Some? && Unrecordable(w, BrokenAt(w).value)
    ensures Final(w).records == [] ==> Final(w).raised
    ensures BrokenAt(w).Some? ==> Telling(w, Final(w).events, BrokenAt(w).value)
  {
    if BrokenAt(w).Some? {
      BrokenTells(w);
    }
  }

  /** So every run over passages that fold character by character leaves exactly one. */
  lemma {:induction false} AlignedAlwaysRecords(w: World)
    requires Quotes.IsFold(w.fold) && StaysInside(w.similar) && AllAligned(w.context, w.fold)
    ensures |Final(w).records| == 1
  {
    RecordMissingIff(w);
    if BrokenAt(w).Some? {
      var now := BrokenAt(w).value;
      if now.attempt.shown != [] {
        AlignedNeverRaises(now.attempt.tail.section, now.Shown(), w.context, w.fold, w.similar);
      }
    }
  }

  /** Text that can be neither the refusal sentinel nor a marker line. */
  predicate Plainly(text: string) {
    && text != "" && !IsSpace(text[0]) && !IsSpace(text[|text| - 1])
    && !OfKind(text[0], Decoration) && Folded(text[0]) != 'q' && text[0] != 'N'
    && forall i :: 0 <= i < |text| ==> text[i] != '\n'
  }

  const HEADING := "\nQUOTES:"

  function Quoting(text: string, section: string): string {
    text + (HEADING + section)
  }

  lemma {:induction false} HeadingReads(s: string, n: nat)
    requires n + 8 < |s| && s[n..n + 8] == HEADING && s[n + 8] == '\n'
    ensures s[n] == '\n' && LineMatch(s, n + 1) == Some(n + 8)
  {
    var t := s[n..n + 8];
    assert t[0] == s[n] && t[1] == s[n + 1] && t[2] == s[n + 2] && t[3] == s[n + 3] && t[4] == s[n + 4];
    assert t[5] == s[n + 5] && t[6] == s[n + 6] && t[7] == s[n + 7];
    assert IsWord(s, n + 1, MARKER);
    assert s[n + 7] == ':';
  }

  lemma {:induction false} HeadingIsFirst(s: string, n: nat, i: nat)
    requires i <= n < |s| && (forall k :: 0 <= k < n ==> s[k] != '\n') && s[n] == '\n'
    requires LineMatch(s, n + 1).Some? && LineMatch(s, 0).None?
    ensures Search(s, i) == Some((n, LineMatch(s, n + 1).value))
    decreases n - i
  {
    hide LineMatch;
    if i < n {
      HeadingIsFirst(s, n, i + 1);
    }
  }

  lemma {:induction false} NoMarkerFirst(s: string)
    requires s != "" && !IsSpace(s[0]) && !OfKind(s[0], Decoration) && Folded(s[0]) != 'q'
    ensures LineMatch(s, 0).None?
  {
    assert !OfKind(s[0], Blanks);
    assert Skip(s, 0, Blanks) == 0 && Skip(s, 0, Decoration) == 0;
    WordStarts(s, 0);
  }

  lemma {:induction false} WordStarts(s: string, i: nat)
    requires i < |s| && Folded(s[i]) != 'q'
    ensures !IsWord(s, i, MARKER)
  {
    assert MARKER[0] == 'q' && s[i + 0] == s[i];
  }

  /** The splitter takes the heading out of one delta. */
  lemma {:induction false} HeadingTaken(text: string, section: string)
    requires Plainly(text) && section != "" && section[0] == '\n'
    ensures Search(Quoting(text, section), 0) == Some((|text|, |text| + 8))
  {
    var s, n := Quoting(text, section), |text|;
    assert s[n..n + 8] == HEADING && s[n + 8] == section[0];
    HeadingReads(s, n);
    assert s[0] == text[0];
    NoMarkerFirst(s);
    assert forall k :: 0 <= k < n ==> s[k] == text[k];
    HeadingIsFirst(s, n, 0);
  }

  lemma {:induction false} PassesWhole(text: string)
    requires text != "" && !IsSpace(text[0]) && text[0] != 'N'
    ensures HeadFeed(FreshHead(NO_ANSWER), text).1 == text
  {
    assert "" + text == text && NO_ANSWER[0] == 'N';
    CutCompares(text, NO_ANSWER);
  }

  lemma {:induction false} QuotingVisible(text: string, section: string)
    requires Plainly(text) && section != "" && section[0] == '\n'
    ensures TailFeed(FRESH_TAIL, Quoting(text, section)) == (Tail("", section, true), text)
  {
    var s := Quoting(text, section);
    HeadingTaken(text, section);
    QuotingParts(text, section);
    TailFeedFresh(s);
    assert RStrip(text) == text;
  }

  lemma {:induction false} TailFeedFresh(s: string)
    ensures TailFeed(FRESH_TAIL, s) == TakeAround(s, Search(s, 0), HOLD_BACK)
  {
    assert FRESH_TAIL.pending + s == s;
  }

  lemma {:induction false} QuotingParts(text: string, section: string)
    ensures var s := Quoting(text, section);
            |s| == |text| + 8 + |section| && s[..|text|] == text && s[|text| + 8..] == section
  {
  }

  /** After such a delta the answer is shown and the section is kept. */
  lemma {:induction false} QuotingShows(text: string, section: string)
    requires Plainly(text) && section != "" && section[0] == '\n'
    ensures var a := AttemptRun([Quoting(text, section)]); a.shown == [text] && a.tail.section == section
    ensures Visible(NewAttempt(), Quoting(text, section)) == text
  {
    var s := Quoting(text, section);
    var deltas := [s];
    assert deltas[..0] == [] && AttemptRun([]) == NewAttempt();
    assert AttemptRun(deltas) == AttemptFeed(NewAttempt(), s);
    assert s[0] == text[0];
    PassesWhole(s);
    QuotingVisible(text, section);
  }

  /** The stages before the answer all go well. */
  predicate Undisturbed(w: World) {
    !(w.conversation && w.parent) && w.retrieval == Returned(true) && PlanningFailure(w).None? && w.building.None?
  }

  lemma {:induction false} Prepared(w: World)
    requires Undisturbed(w)
    ensures var q := AfterPrepare(w, AfterRetrieve(w, AfterNormalize(w)));
            q.events == [Meta, Sources] && q.end == Going && q.now == Point(NewAttempt(), w.context)
  {
    assert AfterRetrieve(w, START).events == [] + [Meta] == [Meta];
    assert [Meta] + [Sources] == [Meta, Sources];
  }

  /** One delta, and then the provider breaks off. */
  lemma {:induction false} OneDelta(w: World, text: string, section: string)
    requires Undisturbed(w) && Plainly(text) && section != "" && section[0] == '\n'
    requires w.first == Reply([Quoting(text, section)], Some(GenerationFailed))
    ensures var q, a := Unbroken(w), AttemptRun(w.first.deltas);
            q.events == [Meta, Sources, Delta(text)] && q.end == Interrupted(Some(Provider))
              && q.now == Point(a, w.context)
  {
    Prepared(w);
    var q := AfterPrepare(w, AfterRetrieve(w, AfterNormalize(w)));
    var deltas := w.first.deltas;
    assert deltas[..0] == [] && AttemptRun([]) == NewAttempt();
    QuotingShows(text, section);
    assert Streamed(q, []) == q;
    assert Streamed(q, deltas) == Fed(q, deltas[0]);
    assert [Meta, Sources] + [Delta(text)] == [Meta, Sources, Delta(text)];
  }

  /** A family of runs without any record: the answer is shown, the provider breaks off, and
      nothing is kept, exactly when the section cannot be resolved against the answer. */
  lemma {:induction false} LosesRecord(w: World, text: string, section: string)
    requires Undisturbed(w) && w.patience.None? && Plainly(text) && section != "" && section[0] == '\n'
    requires w.first == Reply([Quoting(text, section)], Some(GenerationFailed))
    ensures Final(w).records == [] <==> ResolveRaises(section, text, w.context, w.fold, w.similar)
    ensures Final(w).records == [] ==> Final(w) == Result([Meta, Sources, Delta(text)], [], true)
  {
    OneDelta(w, text, section);
    QuotedMoment(w, text, section);
    var q := Unbroken(w);
    assert BrokenAt(w) == Some(q.now) && Clip(w, q.events) == q.events;
  }

  /** The first delta of a longer reply. */
  lemma {:induction false} FirstDelta(w: World, text: string, section: string) returns (s: Path)
    requires Undisturbed(w) && Plainly(text) && section != "" && section[0] == '\n'
    requires w.first.deltas != [] && w.first.deltas[0] == Quoting(text, section)
    ensures s.events == [Meta, Sources, Delta(text)] && s.now.blocks == w.context
    ensures |s.points| == 3 && s.points[2] == Point(AttemptRun([Quoting(text, section)]), w.context)
    ensures Extends(s, Unbroken(w))
  {
    Prepared(w);
    var q := AfterPrepare(w, AfterRetrieve(w, AfterNormalize(w)));
    var deltas := w.first.deltas;
    var delta := [deltas[0]];
    assert deltas[..1] == delta && delta[..0] == [] && AttemptRun([]) == NewAttempt();
    QuotingShows(text, section);
    s := Streamed(q, delta);
    assert Streamed(q, []) == q && s == Fed(q, deltas[0]);
    assert [Meta, Sources] + [Delta(text)] == [Meta, Sources, Delta(text)];
    FirstExtends(w, q);
  }

  lemma {:induction false} FirstExtends(w: World, q: Path)
    requires q == AfterPrepare(w, AfterRetrieve(w, AfterNormalize(w))) && q.end == Going && w.first.deltas != []
    ensures Extends(Streamed(q, w.first.deltas[..1]), Unbroken(w))
  {
    var s := Streamed(q, w.first.deltas[..1]);
    FirstInTried(q, w.first);
    GenerateCases(w, q);
    ExtendsOn(s, Tried(q, w.first), AfterGenerate(w, q));
    AnswerExtends(w, AfterGenerate(w, q));
    ExtendsOn(s, AfterGenerate(w, q), Unbroken(w));
  }

  lemma {:induction false} FirstInTried(q: Path, reply: Reply)
    requires q.end == Going && reply.deltas != []
    ensures Extends(Streamed(q, reply.deltas[..1]), Tried(q, reply))
  {
    var whole := Streamed(q, reply.deltas);
    StreamedExtends(q, reply.deltas, 1);
    StreamedExtends(q, reply.deltas[..1], 0);
    assert Extends(whole, Tried(q, reply));
    ExtendsOn(Streamed(q, reply.deltas[..1]), whole, Tried(q, reply));
  }

  /** It takes no failure of the provider: the client may just go away after that delta. */
  lemma {:induction false} LosesRecordWhenLeft(w: World, text: string, section: string)
    requires Undisturbed(w) && w.patience == Some(3) && Plainly(text) && section != "" && section[0] == '\n'
    requires w.first.deltas != [] && w.first.deltas[0] == Quoting(text, section)
    ensures Final(w).records == [] <==> ResolveRaises(section, text, w.context, w.fold, w.similar)
    ensures Final(w).events == [Meta, Sources, Delta(text)] && Final(w).raised
  {
    var s := FirstDelta(w, text, section);
    QuotedMoment(w, text, section);
    assert BrokenAt(w) == Some(s.points[2]) && Clip(w, Unbroken(w).events) == s.events;
  }

  lemma {:induction false} QuotedMoment(w: World, text: string, section: string)
    requires Plainly(text) && section != "" && section[0] == '\n'
    ensures Unrecordable(w, Point(AttemptRun([Quoting(text, section)]), w.context)) <==>
            ResolveRaises(section, text, w.context, w.fold, w.similar)
  {
    QuotingShows(text, section);
    assert [text][..0] == [] && Concat([text]) == "" + text == text;
    LastIsPrinted(text);
  }

  lemma {:induction false} LastIsPrinted(text: string)
    requires Plainly(text)
    ensures !IsBlank(text)
  {
    assert !IsSpace(text[0]);
  }

  /** One of them: the passage is a sharp s, and the model's only delta is
      "See [1].", a line "QUOTES:" and a line that quotes the passage in bold. */
  lemma {:induction false} SharpSLosesRecord(w: World)
    requires Undisturbed(w) && w.patience.None? && Quotes.IsFold(w.fold) && w.fold(0xDF as char) == "ss"
    requires w.context == [Block(1, [0xDF as char])]
    requires w.first == Reply([Quoting("See [1].", "\n[1] **" + [0xDF as char] + "**")], Some(GenerationFailed))
    ensures Final(w) == Result([Meta, Sources, Delta("See [1].")], [], true)
  {
    var content := [0xDF as char];
    Quotes.SharpSRaises(w.fold);
    Quotes.RaisingOverruns(Quotes.Starred(content), content, w.fold);
    SeeReads();
    SharpSection(content);
    QuotingAllRaises(1, content, "See [1].", w.context, w.fold, w.similar);
    LosesRecord(w, "See [1].", QuotingAll(1, content));
  }

  lemma {:induction false} SharpSection(content: string)
    requires content == [0xDF as char]
    ensures "\n[1] **" + content + "**" == QuotingAll(1, content)
  {
    assert Flat(content) == content;
    assert Numeral(1) == ['1'];
    assert Citation(1) == "[1]";
  }

  lemma {:induction false} SeeReads()
    ensures Plainly("See [1].") && Cites("See [1].", 1)
  {
    var s := "See [1].";
    assert s[4] == '[' && s[5] == '1' && s[6] == ']';
    assert DigitsEnd(s, 6) == 6;
    var one := s[5..6];
    assert one == "1" && one[..0] == "" && Number(one) == 1;
    assert CitesAt(s, 1, 4);
  }

  // ---- contexts over which a record can be lost -------------------------------------------------------------------

  ghost predicate Over(w: World, context: seq<Block>, fold: char -> string, similar: Similarity) {
    w == w.(context := context, fold := fold, similar := similar)
  }

  lemma {:induction false} CitationIsPlain(n: nat)
    ensures Plainly(Citation(n))
  {
    NumeralReads(n);
    var s := Citation(n);
    assert forall i :: 0 < i < |s| - 1 ==> s[i] == Numeral(n)[i - 1];
  }

  /** A run that does lose it. */
  function Losing(context: seq<Block>, fold: char -> string, similar: Similarity, n: nat, section: string): World {
    World(false, false, Returned(Proceed), Returned(true), None, None, context,
          Reply([Quoting(Citation(n), section)], Some(GenerationFailed)), Reply([], None),
          s => s, fold, similar, Recorded, None)
  }

  /** Whatever else the world does: over some context blocks a run can end without a record
      exactly when some numbered passage overruns its map, by itself or behind the similarity
      search. */
  lemma {:induction false} ContextLosesIff(context: seq<Block>, fold: char -> string, similar: Similarity)
    requires Quotes.IsFold(fold)
    ensures (exists w :: Over(w, context, fold, similar) && Final(w).records == [])
      <==> SomeOverruns(context, fold, similar)
  {
    if SomeOverruns(context, fold, similar) {
      var n, section := OverrunIsRaised(context, fold, similar);
      var w := Losing(context, fold, similar, n, section);
      CitationIsPlain(n);
      LosesRecord(w, Citation(n), section);
      assert Over(w, context, fold, similar);
    }
    forall w | Over(w, context, fold, similar) && Final(w).records == [] ensures SomeOverruns(context, fold, similar) {
      LossOverruns(w);
    }
  }

  lemma {:induction false} LossOverruns(w: World)
    requires Final(w).records == []
    ensures SomeOverruns(w.context, w.fold, w.similar)
  {
    RecordMissingIff(w);
    var now := BrokenAt(w).value;
    RaisingIsOverrun(now.attempt.tail.section, now.Shown(), now.blocks, w.fold, w.similar);
  }
}
