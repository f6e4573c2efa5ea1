/**
 Idempotency keys: any number of requests race for one Redis cell.  A request is named by its
 position in the client list, which also stands for its fresh in-flight token.  Each Redis
 command and each compare-and-set script is one atomic step; everything between is local.
 */
module Idempotency {
  import opened Common

  type Fingerprint = nat

  datatype Response = Response(status: int, body: string)

  datatype Cell = Empty | InFlight(owner: nat) | Stored(response: Response, fp: Option<Fingerprint>)

  datatype Outcome = Produced(response: Response) | Raised | Replayed(response: Response) | RefusedInFlight
    | RefusedReused

  /** Where a request stands between two steps.  `Working`, `Returned` and `Failing` belong to
      winners, `Lost` and `Found` to the others. */
  datatype Phase =
    | Waiting
    | Working
    | Returned(response: Response)
    | Failing
    | Lost
    | Found(stored: Cell)
    | Finished(outcome: Outcome)
  {
    predicate Active() {
      Working? || Returned? || Failing?
    }
  }

  /** `checked` says whether the request came with a validity check of the cached data. */
  datatype Client = Client(fp: Option<Fingerprint>, checked: bool, phase: Phase)

  datatype State = State(cell: Cell, clients: seq<Client>)

  /** What came after a handler that returned: the data was still valid, it was not, or no
      script ran, because the validity check raised or because Redis could not be reached. */
  datatype Verdict = Valid | Stale | CheckRaised | Unreachable

  datatype Step =
    | TrySet(c: nat)
    | HandlerReturns(c: nat, response: Response)
    | HandlerRaises(c: nat)
    | Publish(c: nat, verdict: Verdict)
    | Release(c: nat, reached: bool)
    | Read(c: nat)
    | Answer(c: nat, valid: bool)
    | Stop(c: nat)
    | Expire
    | Purge

  function At(s: State, c: nat): Phase {
    if c < |s.clients| then s.clients[c].phase else Finished(Raised)
  }

  function Put(s: State, c: nat, cell: Cell, phase: Phase): State
    requires c < |s.clients|
  {
    State(cell, s.clients[c := s.clients[c].(phase := phase)])
  }

  /** The two scripts: act only while the cell still holds the caller's token. */
  function Released(cell: Cell, c: nat): Cell {
    if cell == InFlight(c) then Empty else cell
  }

  function Replaced(cell: Cell, c: nat, response: Response, fp: Option<Fingerprint>): Cell {
    if cell == InFlight(c) then Stored(response, fp) else cell
  }

  predicate Enabled(s: State, step: Step) {
    match step
    case TrySet(c) => c < |s.clients| && At(s, c) == Waiting
    case HandlerReturns(c, _) => c < |s.clients| && At(s, c) == Working
    case HandlerRaises(c) => c < |s.clients| && At(s, c) == Working
    case Publish(c, verdict) => c < |s.clients| && At(s, c).Returned?
      && (verdict == CheckRaised ==> s.clients[c].checked)
    case Release(c, _) => c < |s.clients| && At(s, c) == Failing
    case Read(c) => c < |s.clients| && At(s, c) == Lost
    case Answer(c, _) => c < |s.clients| && At(s, c).Found? && At(s, c).stored.Stored?
    case Stop(c) => c < |s.clients| && !At(s, c).Waiting? && !At(s, c).Finished?
    case Expire => true
    case Purge => true
  }

  function Verified(client: Client, stored: Cell, valid: bool): Outcome
    requires stored.Stored?
  {
    if client.checked && !valid then RefusedReused
    else if client.fp.Some? && stored.fp != client.fp then RefusedReused
    else Replayed(stored.response)
  }

  function Published(s: State, c: nat, verdict: Verdict): State
    requires c < |s.clients| && At(s, c).Returned?
  {
    var client := s.clients[c];
    var cell := if verdict == Unreachable || verdict == CheckRaised then s.cell
                else if !client.checked || verdict == Valid then Replaced(s.cell, c, client.phase.response, client.fp)
                else Released(s.cell, c);
    Put(s, c, cell, Finished(Produced(client.phase.response)))
  }

  function Apply(s: State, step: Step): State
    requires Enabled(s, step)
  {
    match step
    case TrySet(c) => if s.cell.Empty? then Put(s, c, InFlight(c), Working) else Put(s, c, s.cell, Lost)
    case HandlerReturns(c, response) => Put(s, c, s.cell, Returned(response))
    case HandlerRaises(c) => Put(s, c, s.cell, Failing)
    case Publish(c, verdict) => Published(s, c, verdict)
    case Release(c, reached) => Put(s, c, if reached then Released(s.cell, c) else s.cell, Finished(Raised))
    case Read(c) => Put(s, c, s.cell, if s.cell.Stored? then Found(s.cell) else Finished(RefusedInFlight))
    case Answer(c, valid) => Put(s, c, s.cell, Finished(Verified(s.clients[c], At(s, c).stored, valid)))
    case Stop(c) => Put(s, c, s.cell, Finished(Raised))
    case Expire => s.(cell := Empty)
    case Purge => s.(cell := Empty)
  }

  ghost predicate IsStart(s: State) {
    s.cell.Empty? && forall c :: 0 <= c < |s.clients| ==> s.clients[c].phase == Waiting
  }

  ghost predicate IsPath(states: seq<State>, steps: seq<Step>) {
    && |states| == |steps| + 1
    && forall i :: 0 <= i < |steps| ==> Enabled(states[i], steps[i]) && states[i + 1] == Apply(states[i], steps[i])
  }

  ghost predicate IsRun(states: seq<State>, steps: seq<Step>) {
    IsPath(states, steps) && IsStart(states[0])
  }

  predicate Removes(step: Step) {
    step == Expire || step == Purge
  }

  /** No entry is lost: neither time-to-live nor purge removes it. */
  ghost predicate Undisturbed(steps: seq<Step>) {
    forall i :: 0 <= i < |steps| ==> !Removes(steps[i])
  }

  predicate ActsAs(step: Step, c: nat) {
    !step.Expire? && !step.Purge? && step.c == c
  }

  // ---- nobody writes over another request's entry ----------------------------------------------------

  /** A request changes an empty cell by claiming it and its own token by finishing; it never
      changes anything else. */
  lemma {:induction false} OnlyOwnEntries(s: State, step: Step, c: nat)
    requires Enabled(s, step) && ActsAs(step, c) && Apply(s, step).cell != s.cell
    ensures (s.cell.Empty? && Apply(s, step).cell == InFlight(c)) || s.cell == InFlight(c)
  {
  }

  /** A request's token, once gone from the cell, never returns. */
  lemma {:induction false} TokenStaysGone(states: seq<State>, steps: seq<Step>, c: nat, i: nat, j: nat)
    requires IsRun(states, steps) && i <= j <= |steps| && c < |states[i].clients|
    requires At(states[i], c) != Waiting && states[i].cell != InFlight(c)
    ensures c < |states[j].clients| && At(states[j], c) != Waiting && states[j].cell != InFlight(c)
  {
    if i < j {
      TokenStaysGone(states, steps, c, i, j - 1);
      assert Enabled(states[j - 1], steps[j - 1]);
    }
  }

  /** A winner whose entry expired or was purged is stale: whatever it still does, it neither
      overwrites nor deletes an entry, whoever owns it by then. */
  lemma {:induction false} StaleWinnerIsHarmless(states: seq<State>, steps: seq<Step>, c: nat, i: nat, j: nat)
    requires IsRun(states, steps) && i <= j < |steps| && c < |states[i].clients|
    requires At(states[i], c) != Waiting && states[i].cell != InFlight(c) && ActsAs(steps[j], c)
    ensures states[j + 1].cell == states[j].cell
  {
    TokenStaysGone(states, steps, c, i, j);
    assert Enabled(states[j], steps[j]) && At(states[j], c) != Waiting;
    if states[j + 1].cell != states[j].cell {
      OnlyOwnEntries(states[j], steps[j], c);
    }
  }

  // ---- one handler at a time -------------------------------------------------------------------------

  /** The entry of a request still at work is removed under it. */
  ghost predicate Disturbs(s: State, step: Step) {
    Removes(step) && s.cell.InFlight? && At(s, s.cell.owner).Active()
  }

  ghost predicate NeverDisturbed(states: seq<State>, steps: seq<Step>)
    requires |states| == |steps| + 1
  {
    forall i :: 0 <= i < |steps| ==> !Disturbs(states[i], steps[i])
  }

  /** The cell tells who is working. */
  ghost predicate Exclusive(s: State) {
    forall c :: 0 <= c < |s.clients| && s.clients[c].phase.Active() ==> s.cell == InFlight(c)
  }

  ghost predicate AtMostOneActive(s: State) {
    forall c: nat, d: nat :: At(s, c).Active() && At(s, d).Active() ==> c == d
  }

  lemma {:induction false} StepKeepsExclusive(s: State, step: Step)
    requires Exclusive(s) && Enabled(s, step) && !Disturbs(s, step)
    ensures Exclusive(Apply(s, step))
  {
  }

  lemma {:induction false} PathKeepsExclusive(states: seq<State>, steps: seq<Step>, n: nat)
    requires IsPath(states, steps) && Exclusive(states[0]) && NeverDisturbed(states, steps) && n <= |steps|
    ensures Exclusive(states[n])
  {
    if n > 0 {
      PathKeepsExclusive(states, steps, n - 1);
      StepKeepsExclusive(states[n - 1], steps[n - 1]);
    }
  }

  /** At most one handler runs at a time, and none while a result is stored: all it takes is
      that no entry expires or is purged under a request at work. */
  lemma {:induction false} OneHandlerAtATime(states: seq<State>, steps: seq<Step>, n: nat)
    requires IsRun(states, steps) && NeverDisturbed(states, steps) && n <= |steps|
    ensures AtMostOneActive(states[n])
    ensures states[n].cell.Stored? ==> forall c :: !At(states[n], c).Active()
  {
    PathKeepsExclusive(states, steps, n);
  }

  /** Whatever follows without another such removal, handlers exclude each other. */
  ghost predicate StaysExclusive(s: State) {
    forall states: seq<State>, steps: seq<Step> ::
      IsPath(states, steps) && states[0] == s
      && NeverDisturbed(states, steps) ==>
      AtMostOneActive(states[|steps|])
  }

  /** And that is exactly what it takes: while another request is still to come, removing the
      entry is harmless if and only if nobody is at work under it. */
  lemma {:induction false} RemovalHarmlessIff(s: State, step: Step, d: nat)
    requires Exclusive(s) && Removes(step) && d < |s.clients| && At(s, d) == Waiting
    ensures StaysExclusive(Apply(s, step)) <==> !Disturbs(s, step)
  {
    var s' := Apply(s, step);
    if Disturbs(s, step) {
      var t := Apply(s', TrySet(d));
      assert IsPath([s', t], [TrySet(d)]) && NeverDisturbed([s', t], [TrySet(d)]);
      assert At(t, d).Active() && At(t, s.cell.owner).Active() && d != s.cell.owner;
      assert !AtMostOneActive([s', t][|[TrySet(d)]|]);
    } else {
      StepKeepsExclusive(s, step);
      forall states: seq<State>, steps: seq<Step> | IsPath(states, steps) && states[0] == s'
        && NeverDisturbed(states, steps)
        ensures AtMostOneActive(states[|steps|])
      {
        PathKeepsExclusive(states, steps, |steps|);
      }
    }
  }

  /** Expiry can strike then: two requests, one lost entry, two handlers at work. */
  lemma {:induction false} ExpiryAdmitsTwoHandlers(a: Client, b: Client)
    requires a.phase == Waiting && b.phase == Waiting
    ensures exists states: seq<State>, steps: seq<Step> ::
      IsRun(states, steps) && |steps| == 3
      && states[0].clients == [a, b]
              && At(states[3], 0).Active() && At(states[3], 1).Active()
  {
    var s0 := State(Empty, [a, b]);
    var s1 := Apply(s0, TrySet(0));
    var s2 := Apply(s1, Expire);
    var s3 := Apply(s2, TrySet(1));
    assert IsRun([s0, s1, s2, s3], [TrySet(0), Expire, TrySet(1)]);
  }

  // ---- stored results ----------------------------------------------------------------------------------

  /** While nothing removes entries, whatever was found or replayed is what the cell holds. */
  ghost predicate Faithful(s: State) {
    && Exclusive(s)
    && (forall c ::
        0 <= c < |s.clients| && s.clients[c].phase.Found?
        ==> s.cell.Stored? && s.clients[c].phase.stored == s.cell)
    && (forall c :: 0 <= c < |s.clients| && s.clients[c].phase.Finished? && s.clients[c].phase.outcome.Replayed? ==>
          s.cell.Stored? && s.clients[c].phase.outcome.response == s.cell.response)
  }

  lemma {:induction false} StepKeepsFaithful(s: State, step: Step)
    requires Faithful(s) && Enabled(s, step) && !Removes(step)
    ensures Faithful(Apply(s, step))
  {
    StepKeepsExclusive(s, step);
  }

  lemma {:induction false} FaithfulAlways(states: seq<State>, steps: seq<Step>, n: nat)
    requires IsRun(states, steps) && Undisturbed(steps) && n <= |steps|
    ensures Faithful(states[n])
  {
    if n > 0 {
      FaithfulAlways(states, steps, n - 1);
      StepKeepsFaithful(states[n - 1], steps[n - 1]);
    }
  }

  /** A stored result is final until something removes it: the cell keeps it, no handler starts
      again, and every read finds exactly it. */
  lemma {:induction false} StoredIsFinal(states: seq<State>, steps: seq<Step>, i: nat, j: nat, c: nat)
    requires IsRun(states, steps) && NeverDisturbed(states, steps) && i <= j <= |steps| && states[i].cell.Stored?
    requires forall k :: i <= k < j ==> !Removes(steps[k])
    ensures states[j].cell == states[i].cell && !At(states[j], c).Active()
  {
    PathKeepsExclusive(states, steps, j);
    if i < j {
      StoredIsFinal(states, steps, i, j - 1, c);
      assert Enabled(states[j - 1], steps[j - 1]);
    }
  }

  /** While nothing removes entries, all replays of a key hand out one and the same response. */
  lemma {:induction false} ReplaysAgree(states: seq<State>, steps: seq<Step>, n: nat, c: nat, d: nat)
    requires IsRun(states, steps) && Undisturbed(steps) && n <= |steps|
    requires At(states[n], c).Finished? && At(states[n], c).outcome.Replayed?
    requires At(states[n], d).Finished? && At(states[n], d).outcome.Replayed?
    ensures At(states[n], c).outcome == At(states[n], d).outcome
  {
    FaithfulAlways(states, steps, n);
  }

  // ---- entries left behind -----------------------------------------------------------------------------

  /** An in-flight entry nobody is at work under. */
  ghost predicate Orphaned(s: State) {
    s.cell.InFlight? && !At(s, s.cell.owner).Active()
  }

  /** The owner of the entry ends without a script: its validity check raised, Redis could not
      be reached, or it was stopped. */
  ghost predicate LeavesBehind(s: State, step: Step) {
    s.cell.InFlight? && At(s, s.cell.owner).Active() &&
    match step
    case Publish(c, verdict) => c == s.cell.owner && verdict in {CheckRaised, Unreachable}
    case Release(c, reached) => c == s.cell.owner && !reached
    case Stop(c) => c == s.cell.owner
    case TrySet(_) => false
    case HandlerReturns(_, _) => false
    case HandlerRaises(_) => false
    case Read(_) => false
    case Answer(_, _) => false
    case Expire => false
    case Purge => false
  }

  lemma {:induction false} OrphanStep(s: State, step: Step)
    requires Enabled(s, step)
    ensures Orphaned(Apply(s, step)) <==> LeavesBehind(s, step) || (Orphaned(s) && !Removes(step))
  {
  }

  /** An entry is left behind at k and still there at n. */
  ghost predicate Lingers(states: seq<State>, steps: seq<Step>, k: nat, n: nat)
    requires |states| == |steps| + 1 && n <= |steps|
  {
    k < n && LeavesBehind(states[k], steps[k]) && forall j :: k < j < n ==> !Removes(steps[j])
  }

  /** A key is locked with nobody at work exactly when a winner has ended without its script
      and neither time-to-live nor purge has removed the entry since. */
  lemma {:induction false} OrphanedIff(states: seq<State>, steps: seq<Step>, n: nat)
    requires IsRun(states, steps) && n <= |steps|
    ensures Orphaned(states[n]) <==> exists k: nat :: Lingers(states, steps, k, n)
  {
    if n > 0 {
      OrphanedIff(states, steps, n - 1);
      OrphanStep(states[n - 1], steps[n - 1]);
      if Orphaned(states[n]) {
        if LeavesBehind(states[n - 1], steps[n - 1]) {
          assert Lingers(states, steps, n - 1, n);
        } else {
          var k: nat :| Lingers(states, steps, k, n - 1);
          assert Lingers(states, steps, k, n);
        }
      }
      if k: nat :| Lingers(states, steps, k, n) {
        if k < n - 1 {
          assert Lingers(states, steps, k, n - 1);
        }
      }
    }
  }

  /** So once nobody is at work, the key replays or admits the next request exactly when no
      entry has been left behind. */
  lemma {:induction false} QuietKeyUsableIff(states: seq<State>, steps: seq<Step>, n: nat, c: nat)
    requires IsRun(states, steps) && n <= |steps| && Enabled(states[n], TrySet(c))
    requires forall d :: 0 <= d < |states[n].clients| ==> !states[n].clients[d].phase.Active()
    ensures states[n].cell.Stored? || At(Apply(states[n], TrySet(c)), c) == Working
      <==> !exists k: nat :: Lingers(states, steps, k, n)
  {
    OrphanedIff(states, steps, n);
  }

  /** It takes no failure of Redis: the handler returns, its validity check raises, and the key
      stays locked with nobody at work. */
  lemma {:induction false} RaisedCheckLocksKey(a: Client, response: Response)
    requires a.phase == Waiting && a.checked
    ensures exists states: seq<State>, steps: seq<Step> ::
              IsRun(states, steps) && steps == [TrySet(0), HandlerReturns(0, response), Publish(0, CheckRaised)]
              && states[0].clients == [a] && states[3].cell == InFlight(0)
                 && At(states[3], 0) == Finished(Produced(response))
  {
    var steps := [TrySet(0), HandlerReturns(0, response), Publish(0, CheckRaised)];
    var s0 := State(Empty, [a]);
    var s1 := Apply(s0, steps[0]);
    var s2 := Apply(s1, steps[1]);
    var s3 := Apply(s2, steps[2]);
    assert IsRun([s0, s1, s2, s3], steps);
  }

  // ---- provenance of replayed responses ----------------------------------------------------------------

  /** Somewhere before n the handler of a request with this fingerprint returned this response. */
  ghost predicate Handled(states: seq<State>, steps: seq<Step>, n: nat, response: Response, fp: Option<Fingerprint>)
    requires |states| == |steps| + 1 && n <= |steps|
  {
    exists k, c: nat :: 0 <= k < n && steps[k] == HandlerReturns(c, response) && c < |states[k].clients|
      && states[k].clients[c].fp == fp
  }

  ghost predicate CellSupported(states: seq<State>, steps: seq<Step>, n: nat, cell: Cell)
    requires |states| == |steps| + 1 && n <= |steps|
  {
    cell.Stored? ==> Handled(states, steps, n, cell.response, cell.fp)
  }

  ghost predicate ClientSupported(states: seq<State>, steps: seq<Step>, n: nat, client: Client)
    requires |states| == |steps| + 1 && n <= |steps|
  {
    match client.phase
    case Waiting => true
    case Working => true
    case Returned(response) => Handled(states, steps, n, response, client.fp)
    case Failing => true
    case Lost => true
    case Found(stored) => CellSupported(states, steps, n, stored)
    case Finished(outcome) => outcome.Replayed? ==> ReplaySupported(states, steps, n, outcome.response, client.fp)
  }

  ghost predicate ReplaySupported(states: seq<State>, steps: seq<Step>, n: nat, response: Response,
                                  fp: Option<Fingerprint>)
    requires |states| == |steps| + 1 && n <= |steps|
  {
    exists origin :: Handled(states, steps, n, response, origin) && (fp.Some? ==> origin == fp)
  }

  lemma {:induction false} HandledStays(states: seq<State>, steps: seq<Step>, n: nat, response: Response,
                                        fp: Option<Fingerprint>)
    requires |states| == |steps| + 1 && n < |steps| && Handled(states, steps, n, response, fp)
    ensures Handled(states, steps, n + 1, response, fp)
  {
    var k, c: nat :| 0 <= k < n && steps[k] == HandlerReturns(c, response) && c < |states[k].clients|
      && states[k].clients[c].fp == fp;
  }

  lemma {:induction false} SupportStays(states: seq<State>, steps: seq<Step>, n: nat, client: Client)
    requires |states| == |steps| + 1 && n < |steps| && ClientSupported(states, steps, n, client)
    ensures ClientSupported(states, steps, n + 1, client)
  {
    match client.phase
    case Waiting =>
    case Working =>
    case Failing =>
    case Lost =>
    case Returned(response) => HandledStays(states, steps, n, response, client.fp);
    case Found(stored) =>
      if stored.Stored? {
        HandledStays(states, steps, n, stored.response, stored.fp);
      }
    case Finished(outcome) =>
      if outcome.Replayed? {
        var origin :| Handled(states, steps, n, outcome.response, origin) && (client.fp.Some? ==> origin == client.fp);
        HandledStays(states, steps, n, outcome.response, origin);
      }
  }

  lemma {:induction false} SupportAlways(states: seq<State>, steps: seq<Step>, n: nat)
    requires IsRun(states, steps) && n <= |steps|
    ensures CellSupported(states, steps, n, states[n].cell)
    ensures forall c :: 0 <= c < |states[n].clients| ==> ClientSupported(states, steps, n, states[n].clients[c])
  {
    if n > 0 {
      SupportAlways(states, steps, n - 1);
      CellSupport(states, steps, n - 1);
      forall c | 0 <= c < |states[n].clients| ensures ClientSupported(states, steps, n, states[n].clients[c]) {
        ClientSupport(states, steps, n - 1, c);
      }
    }
  }

  lemma {:induction false} CellSupport(states: seq<State>, steps: seq<Step>, n: nat)
    requires IsRun(states, steps) && n < |steps|
    requires CellSupported(states, steps, n, states[n].cell)
    requires forall c :: 0 <= c < |states[n].clients| ==> ClientSupported(states, steps, n, states[n].clients[c])
    ensures CellSupported(states, steps, n + 1, states[n + 1].cell)
  {
    var cell := states[n + 1].cell;
    if cell.Stored? {
      if cell == states[n].cell {
        HandledStays(states, steps, n, cell.response, cell.fp);
      } else {
        assert steps[n].Publish?;
        HandledStays(states, steps, n, cell.response, states[n].clients[steps[n].c].fp);
      }
    }
  }

  lemma {:induction false} ClientSupport(states: seq<State>, steps: seq<Step>, n: nat, c: nat)
    requires IsRun(states, steps) && n < |steps| && c < |states[n + 1].clients|
    requires CellSupported(states, steps, n, states[n].cell)
    requires c < |states[n].clients| ==> ClientSupported(states, steps, n, states[n].clients[c])
    ensures ClientSupported(states, steps, n + 1, states[n + 1].clients[c])
  {
    assert Enabled(states[n], steps[n]);
    SupportStays(states, steps, n, states[n].clients[c]);
    if steps[n] == Read(c) && states[n].cell.Stored? {
      HandledStays(states, steps, n, states[n].cell.response, states[n].cell.fp);
    }
    if steps[n].HandlerReturns? && steps[n].c == c {
      assert steps[n] == HandlerReturns(c, steps[n].response);
      assert Handled(states, steps, n + 1, steps[n].response, states[n].clients[c].fp);
    }
  }

  /** Whatever expires or is purged, a replayed response was returned by the handler of an
      earlier request, and for a fingerprinted replay that request had the same fingerprint. */
  lemma {:induction false} ReplayProvenance(states: seq<State>, steps: seq<Step>, n: nat, c: nat)
    requires IsRun(states, steps) && n <= |steps| && c < |states[n].clients|
    requires At(states[n], c).Finished? && At(states[n], c).outcome.Replayed?
    ensures exists k, w: nat :: 0 <= k < n && steps[k] == HandlerReturns(w, At(states[n], c).outcome.response)
              && w < |states[k].clients|
                 && (states[n].clients[c].fp.Some? ==> states[k].clients[w].fp == states[n].clients[c].fp)
  {
    SupportAlways(states, steps, n);
    assert ClientSupported(states, steps, n, states[n].clients[c]);
  }

  // ---- what each command does, and that a retry is answered --------------------------------------------

  /** Nothing changes but the cell and the phase of one request. */
  ghost predicate Leaves(s: State, s': State, c: nat, cell: Cell, phase: Phase) {
    && s'.cell == cell && |s'.clients| == |s.clients| && At(s', c) == phase
    && forall d: nat :: d < |s.clients| ==>
      && s'.clients[d].fp == s.clients[d].fp && s'.clients[d].checked == s.clients[d].checked
      && (d != c ==> s'.clients[d].phase == s.clients[d].phase)
  }

  /** The response may be kept: the request came without a check, or its check passed. */
  ghost predicate Keepable(client: Client, verdict: Verdict) {
    verdict == Valid || (verdict == Stale && !client.checked)
  }

  /** A handler's response goes to its caller in any case.  While the entry is still the winner's own,
      a response that may be kept is stored with its fingerprint, one found stale frees the key, and
      one whose check raised, or whose script never reached Redis, leaves the entry. */
  lemma {:induction false} PublishEffects(s: State, c: nat, verdict: Verdict)
    requires Enabled(s, Publish(c, verdict))
    ensures var s', client := Apply(s, Publish(c, verdict)), s.clients[c];
            var response := client.phase.response;
            && Leaves(s, s', c, s'.cell, Finished(Produced(response)))
            && (s.cell == InFlight(c) && Keepable(client, verdict) ==> s'.cell == Stored(response, client.fp))
            && (s.cell == InFlight(c) && verdict == Stale && client.checked ==> s'.cell == Empty)
            && (s.cell != InFlight(c) || verdict == CheckRaised || verdict == Unreachable ==> s'.cell == s.cell)
  {
    var s' := Apply(s, Publish(c, verdict));
    assert At(s', c) == s'.clients[c].phase;
  }

  /** The other commands: the first to set the key works and the rest have lost; a handler that raised
      frees its own entry; a loser finds what is stored, or a request still at work. */
  lemma {:induction false} CommandEffects(s: State, c: nat)
    ensures Enabled(s, TrySet(c)) ==>
              Leaves(s, Apply(s, TrySet(c)), c, if s.cell == Empty then InFlight(c) else s.cell,
                     if s.cell == Empty then Working else Lost)
    ensures Enabled(s, Release(c, true)) ==>
              Leaves(s, Apply(s, Release(c, true)), c, if s.cell == InFlight(c) then Empty else s.cell,
                     Finished(Raised))
    ensures Enabled(s, Release(c, false)) ==>
              Leaves(s, Apply(s, Release(c, false)), c, s.cell, Finished(Raised))
    ensures Enabled(s, Read(c)) ==>
              Leaves(s, Apply(s, Read(c)), c, s.cell,
                     if s.cell.Stored? then Found(s.cell) else Finished(RefusedInFlight))
    ensures Enabled(s, Stop(c)) ==> Leaves(s, Apply(s, Stop(c)), c, s.cell, Finished(Raised))
  {
  }

  /** A loser replays what it found exactly if its check passes, or it has none, and its fingerprint is
      that of the entry, or it has none; else the key was used for something else. */
  lemma {:induction false} AnswerEffects(s: State, c: nat, valid: bool)
    requires Enabled(s, Answer(c, valid))
    ensures var client := s.clients[c];
            var stored := client.phase.stored;
            Leaves(s, Apply(s, Answer(c, valid)), c, s.cell, Finished(
                     if (client.checked ==> valid) && (client.fp.Some? ==> client.fp == stored.fp)
                     then Replayed(stored.response) else RefusedReused))
  {
  }

  /** A response was published at step k as the entry of request c, and kept. */
  ghost predicate KeptAt(states: seq<State>, steps: seq<Step>, k: nat, c: nat, verdict: Verdict)
    requires |states| == |steps| + 1
  {
    && k < |steps| && steps[k] == Publish(c, verdict) && Enabled(states[k], steps[k])
    && states[k].cell == InFlight(c) && Keepable(states[k].clients[c], verdict)
  }

  ghost predicate NotRemoved(steps: seq<Step>, k: nat, n: nat) {
    n <= |steps| && forall j :: k < j < n ==> !Removes(steps[j])
  }

  /** From then on the cell holds that response, until the entry is removed ... */
  lemma {:induction false} KeptStays(states: seq<State>, steps: seq<Step>, k: nat, c: nat, verdict: Verdict, n: nat)
    requires IsPath(states, steps) && KeptAt(states, steps, k, c, verdict) && NotRemoved(steps, k, n) && k < n
    ensures states[n].cell == Stored(At(states[k], c).response, states[k].clients[c].fp)
  {
    if n == k + 1 {
      PublishEffects(states[k], c, verdict);
    } else {
      KeptStays(states, steps, k, c, verdict, n - 1);
      assert Enabled(states[n - 1], steps[n - 1]);
    }
  }

  /** ... and a request that read it keeps what it read until it answers. */
  lemma {:induction false} FoundStays(states: seq<State>, steps: seq<Step>, d: nat, stored: Cell, j: nat, m: nat)
    requires IsPath(states, steps) && j <= m <= |steps| && d < |states[j].clients| && At(states[j], d) == Found(stored)
    ensures d < |states[m].clients| && states[m].clients[d].fp == states[j].clients[d].fp
    ensures states[m].clients[d].checked == states[j].clients[d].checked
    ensures At(states[m], d) == Found(stored) || At(states[m], d).Finished?
  {
    if j < m {
      FoundStays(states, steps, d, stored, j, m - 1);
      assert Enabled(states[m - 1], steps[m - 1]);
    }
  }

  /** A retry is answered: once a response is kept, and until the entry is removed, no handler starts,
      and whoever reads the entry and answers replays that response, if its check passes and its
      fingerprint agrees (or it has none), and is refused otherwise. */
  lemma {:induction false} RetryReplays(states: seq<State>, steps: seq<Step>, k: nat, c: nat, verdict: Verdict, n: nat,
                                        d: nat, j: nat, valid: bool)
    requires IsPath(states, steps) && KeptAt(states, steps, k, c, verdict) && NotRemoved(steps, k, n) && k < n
    ensures n < |steps| && steps[n] == TrySet(d) ==> At(states[n + 1], d) == Lost
    ensures n < |steps| && k < j < n && steps[j] == Read(d) && steps[n] == Answer(d, valid) ==>
              var client, response, fp := states[n].clients[d], At(states[k], c).response, states[k].clients[c].fp;
              At(states[n + 1], d) == Finished(
                if (client.checked ==> valid) && (client.fp.Some? ==> client.fp == fp) then Replayed(response)
                else RefusedReused)
  {
    KeptStays(states, steps, k, c, verdict, n);
    if n < |steps| && steps[n] == TrySet(d) {
      assert Enabled(states[n], steps[n]);
      CommandEffects(states[n], d);
    }
    if n < |steps| && k < j < n && steps[j] == Read(d) && steps[n] == Answer(d, valid) {
      KeptStays(states, steps, k, c, verdict, j);
      assert Enabled(states[j], steps[j]) && Enabled(states[n], steps[n]);
      CommandEffects(states[j], d);
      FoundStays(states, steps, d, states[j].cell, j + 1, n);
      AnswerEffects(states[n], d, valid);
    }
  }

  // ---- the shared cell, updated in place ---------------------------------------------------------------

  class KeyCell {
    var cell: Cell
    var clients: seq<Client>

    function Snapshot(): State
      reads this
    {
      State(cell, clients)
    }

    constructor (requests: seq<Client>)
      requires forall c :: 0 <= c < |requests| ==> requests[c].phase == Waiting
      ensures IsStart(Snapshot()) && clients == requests
    {
      cell, clients := Empty, requests;
    }

    /** SET NX: whoever finds the cell empty wins. */
    method Claim(c: nat) returns (won: bool)
      requires Enabled(Snapshot(), TrySet(c))
      modifies this
      ensures Snapshot() == Apply(old(Snapshot()), TrySet(c))
      ensures won <==> old(cell).Empty?
    {
      won := cell.Empty?;
      if won {
        cell := InFlight(c);
      }
      clients := clients[c := clients[c].(phase := if won then Working else Lost)];
    }

    /** The release script. */
    method DeleteIfMine(c: nat)
      modifies `cell
      ensures cell == Released(old(cell), c)
    {
      if cell == InFlight(c) {
        cell := Empty;
      }
    }

    /** The store script. */
    method ReplaceIfMine(c: nat, response: Response, fp: Option<Fingerprint>)
      modifies `cell
      ensures cell == Replaced(old(cell), c, response, fp)
    {
      if cell == InFlight(c) {
        cell := Stored(response, fp);
      }
    }

    /** After a handler that returned: its response goes out even when the validity check raises
        or Redis cannot be reached. */
    method Conclude(c: nat, verdict: Verdict) returns (outcome: Outcome)
      requires Enabled(Snapshot(), Publish(c, verdict))
      modifies this
      ensures Snapshot() == Apply(old(Snapshot()), Publish(c, verdict))
      ensures outcome == Produced(old(clients[c]).phase.response)
      ensures old(cell) == InFlight(c) && Keepable(old(clients[c]), verdict) ==>
                cell == Stored(old(clients[c]).phase.response, old(clients[c]).fp)
      ensures old(cell) == InFlight(c) && old(clients[c]).checked && verdict == Stale ==> cell == Empty
    {
      var client := clients[c];
      if verdict == Valid || verdict == Stale {
        if !client.checked || verdict == Valid {
          ReplaceIfMine(c, client.phase.response, client.fp);
        } else {
          DeleteIfMine(c);
        }
      }
      outcome := Produced(client.phase.response);
      clients := clients[c := client.(phase := Finished(outcome))];
    }

    /** After a handler that raised: the key is released and the error passed on. */
    method Abandon(c: nat, reached: bool) returns (outcome: Outcome)
      requires Enabled(Snapshot(), Release(c, reached))
      modifies this
      ensures Snapshot() == Apply(old(Snapshot()), Release(c, reached)) && outcome == Raised
    {
      if reached {
        DeleteIfMine(c);
      }
      outcome := Raised;
      clients := clients[c := clients[c].(phase := Finished(outcome))];
    }

    /** The loser's GET. */
    method Fetch(c: nat)
      requires Enabled(Snapshot(), Read(c))
      modifies `clients
      ensures Snapshot() == Apply(old(Snapshot()), Read(c))
    {
      if cell.Empty? || cell.InFlight? {
        clients := clients[c := clients[c].(phase := Finished(RefusedInFlight))];
      } else {
        clients := clients[c := clients[c].(phase := Found(cell))];
      }
    }

    /** What the loser makes of the entry it found. */
    method Respond(c: nat, valid: bool) returns (outcome: Outcome)
      requires Enabled(Snapshot(), Answer(c, valid))
      modifies `clients
      ensures Snapshot() == Apply(old(Snapshot()), Answer(c, valid))
      ensures outcome.Replayed? <==>
        (old(clients[c]).checked ==> valid)
        && old(clients[c]).fp in {None, old(clients[c]).phase.stored.fp}
    {
      var client := clients[c];
      if client.checked && !valid {
        outcome := RefusedReused;
      } else if client.fp.Some? && client.phase.stored.fp != client.fp {
        outcome := RefusedReused;
      } else {
        outcome := Replayed(client.phase.stored.response);
      }
      clients := clients[c := client.(phase := Finished(outcome))];
    }
  }
}
