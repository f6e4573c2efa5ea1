/**
 What a query comes to, read off what the world does: which of its calls decide the run, what the
 client is sent, and what is recorded.  Nothing here looks at how the run gets there.
 */
module Outcomes {
  import opened Common
  import opened Text
  import opened Stream
  import opened Resolution
  import opened QueryRun

  // ---- what the world says ------------------------------------------------------------------------------------

  predicate FollowUp(w: World) {
    w.conversation && w.parent
  }

  /** The search is reached: either there is nothing to follow up on or the question stands. */
  predicate Retrieves(w: World) {
    FollowUp(w) ==> w.normalizer == Returned(Proceed)
  }

  predicate Survived(search: Option<Failure>) {
    search in {None, Some(EmbeddingFailed)}
  }

  /** Planning is off, failed at the provider, or found facets whose searches were survived. */
  predicate Plans(w: World) {
    match w.planning
    case None => true
    case Some(Raised(failure)) => failure == GenerationFailed
    case Some(Returned(facets)) => forall i :: 0 <= i < |facets| ==> Survived(facets[i])
  }

  /** The model is asked: the passages have passed the gate and nothing failed on the way. */
  predicate Asks(w: World) {
    Retrieves(w) && w.retrieval == Returned(true) && Plans(w) && w.building.None?
  }

  /** All of a reply as it passes the buffers, and what has passed when it breaks off. */
  function Said(reply: Reply): Attempt {
    if reply.ending.None? then AttemptEnd(AttemptRun(reply.deltas)) else AttemptRun(reply.deltas)
  }

  predicate Refuses(reply: Reply) {
    reply.ending.None? && NO_ANSWER <= LStrip(Concat(reply.deltas))
  }

  predicate Vacant(reply: Reply) {
    reply.ending.None? && !Refuses(reply) && IsBlank(Concat(Said(reply).shown))
  }

  predicate Speaks(reply: Reply) {
    reply.ending.None? && !Refuses(reply) && !IsBlank(Concat(Said(reply).shown))
  }

  /** The reply that decides: the second is asked for after a vacant first one. */
  function Decisive(w: World): Reply {
    if Vacant(w.first) then w.second else w.first
  }

  // ---- what the client is sent ----------------------------------------------------------------------------------

  function Deltas(shown: seq<string>): seq<Event> {
    if shown == [] then [] else Deltas(shown[..|shown| - 1]) + [Delta(shown[|shown| - 1])]
  }

  /** The sources and every piece of text that was let through. */
  function Told(w: World): seq<Event> {
    [Meta, Sources] + (if Vacant(w.first) then Deltas(Said(w.first).shown) else []) + Deltas(Said(Decisive(w)).shown)
  }

  /** Done, unless a conversation could not be saved. */
  function Terminal(w: World, answer: Option<string>, refused: bool): Event {
    if w.conversation && w.storage == SourceChanged then Error(Changed)
    else if w.conversation && w.storage == RecordFailed then Error(Unsaved)
    else Done(answer, refused)
  }

  /** A client that stays is sent all of it. */
  lemma {:induction false} StaysFinal(w: World)
    requires w.patience.None?
    ensures var q := Unbroken(w);
            match q.end
            case Going => true
            case Concluded(record) => Final(w) == Result(q.events + [Closing(w, record)], [record], false)
            case Interrupted(report) =>
              if Unrecordable(w, q.now) then Final(w) == Result(q.events, [], true)
              else Final(w) == Result(q.events + Epilogue(w, q), [Unfinished(q.now)], report.None?)
  {
    var q := Unbroken(w);
    assert q.events + [] == q.events;
  }

  lemma {:induction false} ClosingIsTerminal(w: World, record: Record)
    ensures Closing(w, record) == Terminal(w, record.answer, record.kind == Refusal)
  {
  }

  // ---- before the model is asked --------------------------------------------------------------------------------

  /** A clarification is introduced, recorded and ends the run. */
  lemma {:induction false} ClarifiedRun(w: World, question: string)
    requires w.patience.None? && FollowUp(w) && w.normalizer == Returned(Clarify(question))
    ensures Final(w)
      == Result([Meta, Sources, Terminal(w, Some(question), false)], [Record(Clarification, Some(question))], false)
  {
    StaysFinal(w);
    var record := Record(Clarification, Some(question));
    assert [] + [Meta] + [Sources] == [Meta, Sources];
    assert Unbroken(w).events == [Meta, Sources] && Unbroken(w).end == Concluded(record);
    ClosingIsTerminal(w, record);
  }

  /** Passages that fail the gate end in a refusal before anything else is asked of anybody. */
  lemma {:induction false} GatedRun(w: World)
    requires w.patience.None? && Retrieves(w) && w.retrieval == Returned(false)
    ensures Final(w) == Result([Meta, Terminal(w, None, true)], [Record(Refusal, None)], false)
  {
    StaysFinal(w);
    assert [] + [Meta] == [Meta];
    assert Unbroken(w).events == [Meta] && Unbroken(w).end == Concluded(Record(Refusal, None));
    ClosingIsTerminal(w, Record(Refusal, None));
  }

  /** The provider and the budget are reported, as are passages that cannot be embedded. */
  function CauseOf(failure: Failure): Option<Cause> {
    if failure == GenerationFailed then Some(Provider)
    else if failure == BudgetBlocked then Some(Budget)
    else None
  }

  function Report(cause: Option<Cause>): seq<Event> {
    if cause.Some? then [Error(cause.value)] else []
  }

  /** A run that breaks off before its first event: a conversation is introduced all the same
      before it hears of the failure, and anything not reported is raised. */
  function BrokenEarly(w: World, cause: Option<Cause>): Result {
    Result((if w.conversation && cause.Some? then [Meta] else []) + Report(cause), [Record(Incomplete, None)],
           cause.None?)
  }

  lemma {:induction false} NormalizerFails(w: World, failure: Failure)
    requires w.patience.None? && FollowUp(w) && w.normalizer == Raised(failure)
    ensures Final(w) == BrokenEarly(w, CauseOf(failure))
  {
    StaysFinal(w);
    assert Unbroken(w) == Fails(START, failure);
    assert BlankStart();
    assert [] + Report(CauseOf(failure)) == Report(CauseOf(failure));
  }

  predicate BlankStart() {
    IsBlank(START.now.Shown())
  }

  lemma {:induction false} SearchFails(w: World, failure: Failure)
    requires w.patience.None? && Retrieves(w) && w.retrieval == Raised(failure)
    ensures Final(w) == BrokenEarly(w, if failure == EmbeddingFailed then Some(Provider) else CauseOf(failure))
  {
    StaysFinal(w);
    assert AfterNormalize(w) == START;
    assert Unbroken(w) == START.(
      end := Interrupted(if failure == EmbeddingFailed then Some(Provider) else Handling(failure)));
    assert BlankStart();
  }

  /** The first thing that keeps the context from being built. */
  predicate StopsPreparing(w: World, failure: Failure) {
    || (w.planning == Some(Raised(failure)) && failure != GenerationFailed)
    || (w.planning.Some? && w.planning.value.Returned? && FirstUnsurvived(w.planning.value.value, failure))
    || (Plans(w) && w.building == Some(failure))
  }

  predicate FirstUnsurvived(facets: seq<Option<Failure>>, failure: Failure) {
    exists i :: 0 <= i < |facets| && facets[i] == Some(failure) && failure != EmbeddingFailed
             && forall j :: 0 <= j < i ==> Survived(facets[j])
  }

  lemma {:induction false} FacetsFail(facets: seq<Option<Failure>>, i: nat, k: nat)
    requires i <= k <= |facets| && forall j :: i <= j < k ==> Survived(facets[j])
    ensures FacetFailure(facets, i) == FacetFailure(facets, k)
    decreases k - i
  {
    if i < k {
      FacetsFail(facets, i + 1, k);
    }
  }

  lemma {:induction false} PlanningStops(w: World, failure: Failure)
    requires StopsPreparing(w, failure)
    ensures PlanningFailure(w) == Some(failure) || (PlanningFailure(w).None? && w.building == Some(failure))
  {
    if w.planning.Some? && w.planning.value.Returned? {
      var facets := w.planning.value.value;
      if FirstUnsurvived(facets, failure) {
        var i :| 0 <= i < |facets| && facets[i] == Some(failure) && failure != EmbeddingFailed
              && forall j :: 0 <= j < i ==> Survived(facets[j]);
        FacetsFail(facets, 0, i);
      } else {
        FacetsFail(facets, 0, |facets|);
      }
    }
  }

  lemma {:induction false} PreparationFails(w: World, failure: Failure)
    requires w.patience.None? && Retrieves(w) && w.retrieval == Returned(true) && StopsPreparing(w, failure)
    ensures var cause := CauseOf(failure);
            Final(w) == Result([Meta] + Report(cause), [Record(Incomplete, None)], cause.None?)
  {
    StaysFinal(w);
    PlanningStops(w, failure);
    assert [] + [Meta] == [Meta];
    assert AfterNormalize(w) == START;
    var q := AfterRetrieve(w, START);
    assert q.events == [Meta] && q.end == Going;
    assert Unbroken(w) == Fails(q, failure);
    assert BlankStart();
    assert [Meta] + [] == [Meta];
  }

  // ---- once the model is asked ------------------------------------------------------------------------------------

  lemma {:induction false} DeltasShow(shown: seq<string>, visible: string)
    ensures Deltas(Show(shown, visible)) == Deltas(shown) + if visible == "" then [] else [Delta(visible)]
  {
    if visible != "" {
      assert (shown + [visible])[..|shown|] == shown;
    } else {
      assert Deltas(shown) + [] == Deltas(shown);
    }
  }

  lemma {:induction false} ShowsSends(q: Path, attempt: Attempt, visible: string, events: seq<Event>)
    requires q.events == events + Deltas(q.now.attempt.shown) && attempt.shown == Show(q.now.attempt.shown, visible)
    ensures var p := Shows(q, attempt, visible);
            p.events == events + Deltas(attempt.shown) && p.now == Point(attempt, q.now.blocks) && p.end == q.end
  {
    DeltasShow(q.now.attempt.shown, visible);
    if visible != "" {
      assert events + Deltas(q.now.attempt.shown) + [Delta(visible)]
        == events + (Deltas(q.now.attempt.shown) + [Delta(visible)]);
    }
  }

  lemma {:induction false} StreamedSends(q: Path, deltas: seq<string>)
    ensures var p := Streamed(q, deltas);
            p.events == q.events + Deltas(AttemptRun(deltas).shown)
              && p.now == Point(AttemptRun(deltas), q.now.blocks) && p.end == q.end
  {
    if deltas == [] {
      assert q.events + [] == q.events;
    } else {
      var init, last := deltas[..|deltas| - 1], deltas[|deltas| - 1];
      StreamedSends(q, init);
      var p := Streamed(q, init);
      FedSends(p, last, q.events);
    }
  }

  lemma {:induction false} FedSends(q: Path, text: string, events: seq<Event>)
    requires q.events == events + Deltas(q.now.attempt.shown)
    ensures var p := Fed(q, text);
            p.events == events + Deltas(p.now.attempt.shown)
              && p.now == Point(AttemptFeed(q.now.attempt, text), q.now.blocks)
            && p.end == q.end
  {
    hide HeadFeed;
    hide TailFeed;
    ShowsSends(q, AttemptFeed(q.now.attempt, text), Visible(q.now.attempt, text), events);
  }

  /** An attempt sends what passes the buffers; the whole text of its reply decides whether it
      is a refusal. */
  lemma {:induction false} TriedSends(q: Path, reply: Reply)
    requires q.end == Going
    ensures var p := Tried(q, reply);
            && p.events == q.events + Deltas(Said(reply).shown) && p.now == Point(Said(reply), q.now.blocks)
            && p.end == if reply.ending.Some? then Interrupted(CauseOf(reply.ending.value))
                        else if Refuses(reply) then Concluded(Record(Refusal, None))
                        else Going
  {
    hide HeadFeed;
    hide TailFeed;
    hide TailFlush;
    StreamedSends(q, reply.deltas);
    var s := Streamed(q, reply.deltas);
    if reply.ending.None? {
      ShowsSends(s, AttemptEnd(s.now.attempt), Rest(s.now.attempt), q.events);
      AttemptConserves(reply.deltas);
    }
  }

  /** Where the run stands when the model is asked. */
  lemma {:induction false} Asked(w: World) returns (q: Path)
    requires Asks(w)
    ensures q == AfterPrepare(w, AfterRetrieve(w, AfterNormalize(w)))
    ensures q.events == [Meta, Sources] && q.end == Going && q.now == Point(NewAttempt(), w.context)
  {
    if w.planning.Some? && w.planning.value.Returned? {
      FacetsFail(w.planning.value.value, 0, |w.planning.value.value|);
    }
    assert AfterNormalize(w) == START;
    assert [] + [Meta] == [Meta];
    assert [Meta] + [Sources] == [Meta, Sources];
    q := AfterPrepare(w, AfterRetrieve(w, START));
  }

  /** How the generation ends: with the decisive reply. */
  lemma {:induction false} GenerationEnds(w: World, q: Path)
    requires q == AfterPrepare(w, AfterRetrieve(w, AfterNormalize(w)))
    requires q.events == [Meta, Sources] && q.end == Going && q.now == Point(NewAttempt(), w.context)
    ensures var p, reply := AfterGenerate(w, q), Decisive(w);
            && p.events == Told(w) && p.now == Point(Said(reply), w.context)
            && p.end == if reply.ending.Some? then Interrupted(CauseOf(reply.ending.value))
                        else if Refuses(reply) then Concluded(Record(Refusal, None))
                        else if Vacant(reply) then Interrupted(Some(Provider))
                        else Going
  {
    hide Tried;
    TriedSends(q, w.first);
    var p := Tried(q, w.first);
    assert [Meta, Sources] + [] == [Meta, Sources];
    if Vacant(w.first) {
      assert Empty(p);
      TriedSends(p, w.second);
    }
  }

  /** A model that refuses, at once or after a vacant reply, ends the run in a refusal. */
  lemma {:induction false} RefusedRun(w: World)
    requires w.patience.None? && Asks(w) && Refuses(Decisive(w))
    ensures Final(w) == Result(Told(w) + [Terminal(w, None, true)], [Record(Refusal, None)], false)
  {
    hide AfterGenerate;
    var q := Asked(w);
    GenerationEnds(w, q);
    StaysFinal(w);
    ClosingIsTerminal(w, Record(Refusal, None));
  }

  function Spoken(reply: Reply): string {
    Concat(Said(reply).shown)
  }

  /** Resolving the quotes of a reply against a text raises. */
  predicate Raises(w: World, reply: Reply, text: string) {
    ResolveRaises(Said(reply).tail.section, text, w.context, w.fold, w.similar)
  }

  /** A reply that says something is the answer, finalised. */
  lemma {:induction false} AnsweredRun(w: World)
    requires w.patience.None? && Asks(w) && Speaks(Decisive(w))
      && !Raises(w, Decisive(w), w.finalize(Spoken(Decisive(w))))
    ensures var answer := Some(w.finalize(Spoken(Decisive(w))));
            Final(w) == Result(Told(w) + [Terminal(w, answer, false)], [Record(Answered, answer)], false)
  {
    hide AfterGenerate;
    hide ResolveRaises;
    var q := Asked(w);
    GenerationEnds(w, q);
    StaysFinal(w);
    ClosingIsTerminal(w, Record(Answered, Some(w.finalize(Spoken(Decisive(w))))));
  }

  /** A run that breaks off once the model was asked keeps what was shown, unless its quotes
      cannot be resolved: then it raises without a record. */
  function BrokenLate(w: World, cause: Option<Cause>): Result {
    var reply := Decisive(w);
    if !IsBlank(Spoken(reply)) && Raises(w, reply, Spoken(reply)) then Result(Told(w), [], true)
    else Result(Told(w) + Report(cause),
                [Record(Incomplete, if IsBlank(Spoken(reply)) then None else Some(Spoken(reply)))], cause.None?)
  }

  lemma {:induction false} BreaksLate(w: World, q: Path, cause: Option<Cause>)
    requires w.patience.None? && q == Unbroken(w) && q.events == Told(w) && q.end == Interrupted(cause)
    requires q.now == Point(Said(Decisive(w)), w.context)
    ensures Final(w) == BrokenLate(w, cause)
  {
    hide ResolveRaises;
    hide Unbroken;
    hide Told;
    StaysFinal(w);
    ToldSomething(w);
    assert Told(w) + [] == Told(w);
    assert cause.Some? ==> [] + [Error(cause.value)] == [Error(cause.value)];
  }

  lemma {:induction false} ToldSomething(w: World)
    ensures Told(w) != []
  {
  }

  lemma {:induction false} ReplyFails(w: World, failure: Failure)
    requires w.patience.None? && Asks(w) && Decisive(w).ending == Some(failure)
    ensures Final(w) == BrokenLate(w, CauseOf(failure))
  {
    hide AfterGenerate;
    hide BrokenLate;
    hide Final;
    var q := Asked(w);
    GenerationEnds(w, q);
    BreaksLate(w, AfterGenerate(w, q), CauseOf(failure));
  }

  /** Two vacant replies are a failure of the provider. */
  lemma {:induction false} BothVacant(w: World)
    requires w.patience.None? && Asks(w) && Vacant(w.first) && Vacant(w.second)
    ensures Final(w) == Result(Told(w) + [Error(Provider)], [Record(Incomplete, None)], false)
  {
    hide AfterGenerate;
    hide Final;
    hide ResolveRaises;
    var q := Asked(w);
    GenerationEnds(w, q);
    BreaksLate(w, AfterGenerate(w, q), Some(Provider));
  }

  lemma {:induction false} AnswerFails(w: World)
    requires w.patience.None? && Asks(w) && Speaks(Decisive(w))
      && Raises(w, Decisive(w), w.finalize(Spoken(Decisive(w))))
    ensures Final(w) == BrokenLate(w, None)
  {
    hide AfterGenerate;
    hide BrokenLate;
    hide Final;
    hide ResolveRaises;
    var q := Asked(w);
    GenerationEnds(w, q);
    BreaksLate(w, Unbroken(w), None);
  }

  // ---- every run --------------------------------------------------------------------------------------------------

  /** Some failure stops the run before the model is asked. */
  ghost predicate StoppedEarly(w: World) {
    || (FollowUp(w) && w.normalizer.Raised?)
    || (Retrieves(w) && w.retrieval.Raised?)
    || (Retrieves(w) && w.retrieval == Returned(true) && exists failure :: StopsPreparing(w, failure))
  }

  /** Or afterwards: the reply broke off, nothing was said twice, or its quotes do not resolve. */
  predicate StoppedLate(w: World) {
    var reply := Decisive(w);
    Asks(w) && (reply.ending.Some? || Vacant(reply) || (Speaks(reply) && Raises(w, reply, w.finalize(Spoken(reply)))))
  }

  ghost predicate Comes(w: World, kind: QueryRun.Kind) {
    |Final(w).records| == 1 && Final(w).records[0].kind == kind
  }

  lemma {:induction false} UnsurvivedExists(facets: seq<Option<Failure>>, i: nat) returns (failure: Failure)
    requires i <= |facets| && (forall j :: 0 <= j < i ==> Survived(facets[j]))
    requires exists j :: i <= j < |facets| && !Survived(facets[j])
    ensures FirstUnsurvived(facets, failure)
    decreases |facets| - i
  {
    if Survived(facets[i]) {
      failure := UnsurvivedExists(facets, i + 1);
    } else {
      failure := facets[i].value;
    }
  }

  lemma {:induction false} AsksOrStops(w: World)
    requires Retrieves(w) && w.retrieval == Returned(true)
    ensures Asks(w) <==> !exists failure :: StopsPreparing(w, failure)
  {
    if Plans(w) {
      if w.building.Some? {
        assert StopsPreparing(w, w.building.value);
      }
    } else if w.planning.value.Raised? {
      assert StopsPreparing(w, w.planning.value.failure);
    } else {
      var failure := UnsurvivedExists(w.planning.value.value, 0);
      assert StopsPreparing(w, failure);
    }
  }

  lemma {:induction false} EarlyIsIncomplete(w: World)
    requires w.patience.None? && StoppedEarly(w)
    ensures Comes(w, Incomplete)
  {
    hide Final;
    if FollowUp(w) && w.normalizer.Raised? {
      NormalizerFails(w, w.normalizer.failure);
    } else if w.retrieval.Raised? {
      SearchFails(w, w.retrieval.failure);
    } else {
      var failure :| StopsPreparing(w, failure);
      PreparationFails(w, failure);
    }
  }

  lemma {:induction false} LateIsIncomplete(w: World)
    requires w.patience.None? && StoppedLate(w)
    ensures Final(w).records == [] || Comes(w, Incomplete)
  {
    hide Final;
    var reply := Decisive(w);
    if reply.ending.Some? {
      ReplyFails(w, reply.ending.value);
    } else if Vacant(reply) {
      BothVacant(w);
    } else {
      AnswerFails(w);
    }
  }

  /** What a run of a client that stays comes to, decided by the world: clarified, refused at
      the gate or by the model, answered, or broken off. */
  lemma {:induction false} RunComesTo(w: World)
    requires w.patience.None?
    ensures Comes(w, Clarification) <==> FollowUp(w) && w.normalizer.Returned? && w.normalizer.value.Clarify?
    ensures Comes(w, Refusal) <==> (Retrieves(w) && w.retrieval == Returned(false)) || (Asks(w) && Refuses(Decisive(w)))
    ensures Comes(w, Answered) <==>
            Asks(w) && Speaks(Decisive(w)) && !Raises(w, Decisive(w), w.finalize(Spoken(Decisive(w))))
    ensures Final(w).records == [] || Comes(w, Incomplete) <==> StoppedEarly(w) || StoppedLate(w)
  {
    hide Final;
    assert w.normalizer.Returned? ==> w.normalizer == Returned(w.normalizer.value);
    assert w.retrieval.Returned? ==> w.retrieval == Returned(w.retrieval.value);
    if FollowUp(w) && w.normalizer.Returned? && w.normalizer.value.Clarify? {
      ClarifiedRun(w, w.normalizer.value.question);
    } else if StoppedEarly(w) {
      EarlyIsIncomplete(w);
      if Retrieves(w) && w.retrieval == Returned(true) {
        AsksOrStops(w);
      }
    } else if !w.retrieval.value {
      assert Retrieves(w) && w.retrieval == Returned(false);
      GatedRun(w);
    } else {
      assert Retrieves(w) && w.retrieval == Returned(true);
      AsksOrStops(w);
      AskedComesTo(w);
    }
  }

  lemma {:induction false} AskedComesTo(w: World)
    requires w.patience.None? && Asks(w)
    ensures Comes(w, Refusal) <==> Refuses(Decisive(w))
    ensures Comes(w, Answered) <==> Speaks(Decisive(w)) && !Raises(w, Decisive(w), w.finalize(Spoken(Decisive(w))))
    ensures Final(w).records == [] || Comes(w, Incomplete) <==> StoppedLate(w)
    ensures !Comes(w, Clarification)
  {
    hide Final;
    var reply := Decisive(w);
    if StoppedLate(w) {
      LateIsIncomplete(w);
    } else if Refuses(reply) {
      RefusedRun(w);
    } else {
      AnsweredRun(w);
    }
  }

  // ---- a client that leaves ---------------------------------------------------------------------------------------

  lemma {:induction false} SamePath(w: World, patience: Option<nat>)
    ensures Unbroken(w.(patience := patience)) == Unbroken(w)
  {
    var s := w.(patience := patience);
    assert AfterNormalize(s) == AfterNormalize(w);
    var a := AfterNormalize(w);
    assert AfterRetrieve(s, a) == AfterRetrieve(w, a);
    var b := AfterRetrieve(w, a);
    assert AfterPrepare(s, b) == AfterPrepare(w, b);
    var c := AfterPrepare(w, b);
    assert AfterGenerate(s, c) == AfterGenerate(w, c);
  }

  /** What leaving after n events makes of a run. */
  ghost predicate Cuts(left: Result, stayed: Result, n: nat) {
    if 1 <= n <= |stayed.events| then
      && left.events == stayed.events[..n] && left.raised
      && (StageOf(left.events) == Closed ==> left.records == stayed.records)
      && (StageOf(left.events) != Closed ==>
          left.records == [] || (|left.records| == 1 && left.records[0].kind == Incomplete))
    else left == stayed
  }

  lemma {:induction false} LeavesMidway(w: World, n: nat)
    requires w.patience == Some(n) && 1 <= n <= |Unbroken(w).events|
    ensures Cuts(Final(w), Final(w.(patience := None)), n)
  {
    hide Unbroken;
    hide ResolveRaises;
    hide Sound;
    var q := Unbroken(w);
    SamePath(w, None);
    StaysFinal(w.(patience := None));
    NotClosedMidway(w, n);
    assert Whole(w, q)[..n] == q.events[..n];
    assert n == |q.events| ==> q.events[..n] == q.events;
  }

  lemma {:induction false} NotClosedMidway(w: World, n: nat)
    requires n <= |Unbroken(w).events|
    ensures StageOf(Unbroken(w).events[..n]) != Closed && Unbroken(w).end != Going
  {
    hide Unbroken;
    UnbrokenIsSound(w);
    OrderOfPrefix(Unbroken(w).events, n);
    assert n == |Unbroken(w).events| ==> Unbroken(w).events[..n] == Unbroken(w).events;
  }

  lemma {:induction false} LeavesLate(w: World, n: nat)
    requires w.patience == Some(n) && (n == 0 || |Unbroken(w).events| < n)
    ensures Cuts(Final(w), Final(w.(patience := None)), n)
  {
    hide StageOf;
    hide DeltaText;
    hide Unbroken;
    hide ResolveRaises;
    hide Sound;
    var s, q := w.(patience := None), Unbroken(w);
    SamePath(w, None);
    UnbrokenIsSound(w);
    WholeCloses(w, q);
    var whole := Whole(w, q);
    assert whole[..|whole|] == whole && q.events + [] == q.events;
    assert Whole(s, q) == whole;
    assert q.end.Concluded? ==> |whole| == |q.events| + 1;
  }

  /** A client that leaves after some event has been sent the run up to there.  Once it has the
      terminal event the record is the same; before, the run is recorded as incomplete, or not
      at all.  Leaving later than the last event changes nothing. */
  lemma {:induction false} LeavingRun(w: World, n: nat)
    requires w.patience == Some(n)
    ensures Cuts(Final(w), Final(w.(patience := None)), n)
  {
    hide Unbroken;
    hide Final;
    if 1 <= n <= |Unbroken(w).events| {
      LeavesMidway(w, n);
    } else {
      LeavesLate(w, n);
    }
  }
}
