/**
 The daily spend ledger: admission against two overlapping scopes, guest import at login and
 write-once settlement.  One advisory lock serialises the transactions, so each is one step.
 Amounts are whole units of 0.00000001 USD, the precision every caller quantizes to.
 */
module Ledger {
  import opened Common

  type UserId = nat
  type Digest = nat
  type Day = nat

  datatype Actor = Actor(ip: Digest, user: Option<UserId>)

  datatype Scope = Ip(digest: Digest) | User(id: UserId)

  /** A spend reservation; its id is its position in the table. */
  datatype Row = Row(day: Day, ip: Digest, payer: Option<UserId>, reserved: int, actual: Option<int>)

  datatype Allocation = Allocation(reservation: nat, scope: Scope, day: Day)

  datatype State = State(rows: seq<Row>, allocations: set<Allocation>)

  const EMPTY := State([], {})

  function Scopes(actor: Actor): seq<Scope> {
    [Ip(actor.ip)] + if actor.user.Some? then [User(actor.user.value)] else []
  }

  // ---- totals ---------------------------------------------------------------------------------

  /** Which rows a sum ranges over. */
  datatype Selection = InScope(scope: Scope, day: Day) | PaidBy(user: UserId, day: Day)
    | Unimported(actor: Actor, day: Day)

  /** What it adds up: money spent, money still reserved, either, the part within the
      reservation, or the part beyond it. */
  datatype Measure = Spent | Pending | Charged | Capped | Overrun

  predicate IsGuestRow(row: Row, actor: Actor, day: Day) {
    row.day == day && row.ip == actor.ip && row.payer.None?
  }

  predicate Selected(s: State, sel: Selection, i: nat)
    requires i < |s.rows|
  {
    match sel
    case InScope(scope, day) => Allocation(i, scope, day) in s.allocations
    case PaidBy(user, day) => s.rows[i].payer == Some(user) && s.rows[i].day == day
    case Unimported(actor, day) =>
      actor.user.Some? && IsGuestRow(s.rows[i], actor, day)
        && Allocation(i, User(actor.user.value), day) !in s.allocations
  }

  function Value(row: Row, measure: Measure): int {
    match (measure, row.actual)
    case (Spent, Some(a)) => a
    case (Spent, None) => 0
    case (Pending, Some(_)) => 0
    case (Pending, None) => row.reserved
    case (Charged, Some(a)) => a
    case (Charged, None) => row.reserved
    case (Capped, Some(a)) => Min(a, row.reserved)
    case (Capped, None) => row.reserved
    case (Overrun, Some(a)) => Max(0, a - row.reserved)
    case (Overrun, None) => 0
  }

  function SumTo(s: State, sel: Selection, measure: Measure, n: nat): int
    requires n <= |s.rows|
  {
    if n == 0 then 0
    else SumTo(s, sel, measure, n - 1) + if Selected(s, sel, n - 1) then Value(s.rows[n - 1], measure) else 0
  }

  function Total(s: State, sel: Selection, measure: Measure): int {
    SumTo(s, sel, measure, |s.rows|)
  }

  // ---- transactions -----------------------------------------------------------------------------

  /** Associations, not copied debits: the guest rows of today's address join the account. */
  function Import(s: State, actor: Actor, day: Day): State {
    if actor.user.None? then s
    else
      var guests := set i: nat | i < |s.rows| && IsGuestRow(s.rows[i], actor, day) ::
        Allocation(i, User(actor.user.value), day);
      s.(allocations := s.allocations + guests)
  }

  predicate Fits(s: State, scope: Scope, day: Day, amount: int, limit: int) {
    Total(s, InScope(scope, day), Spent) + Total(s, InScope(scope, day), Pending) + amount <= limit
  }

  /** Would a reservation be admitted?  Every scope of the actor must have room for it. */
  predicate Admits(s: State, actor: Actor, day: Day, amount: int, limit: int) {
    var imported := Import(s, actor, day);
    && amount >= 0
    && Fits(imported, Ip(actor.ip), day, amount, limit)
    && (actor.user.Some? ==> Fits(imported, User(actor.user.value), day, amount, limit))
  }

  function Booked(s: State, actor: Actor, day: Day, amount: int): State {
    var id := |s.rows|;
    State(s.rows + [Row(day, actor.ip, actor.user, amount, None)],
          s.allocations + {Allocation(id, Ip(actor.ip), day)}
            + if actor.user.Some? then {Allocation(id, User(actor.user.value), day)} else {})
  }

  /** A refusal rolls the transaction back, imports included. */
  function ReserveStep(s: State, actor: Actor, day: Day, amount: int, limit: int): State {
    if Admits(s, actor, day, amount, limit) then Booked(Import(s, actor, day), actor, day, amount) else s
  }

  /** Settlement writes once. */
  predicate Settles(s: State, id: nat, actual: Option<int>) {
    actual.Some? && actual.value >= 0 && id < |s.rows| && s.rows[id].actual.None?
  }

  function SettleStep(s: State, id: nat, actual: Option<int>): State {
    if Settles(s, id, actual) then s.(rows := s.rows[id := s.rows[id].(actual := actual)]) else s
  }

  datatype Step =
    | Reserve(actor: Actor, day: Day, amount: int)
    | Settle(id: nat, actual: Option<int>)
    | Summary(actor: Actor, day: Day)

  function Apply(s: State, step: Step, limit: int): State {
    match step
    case Reserve(actor, day, amount) => ReserveStep(s, actor, day, amount, limit)
    case Settle(id, actual) => SettleStep(s, id, actual)
    case Summary(actor, day) => Import(s, actor, day)
  }

  ghost predicate IsRun(states: seq<State>, steps: seq<Step>, limit: int) {
    && |states| == |steps| + 1 && states[0] == EMPTY
    && forall i :: 0 <= i < |steps| ==> states[i + 1] == Apply(states[i], steps[i], limit)
  }

  // ---- sums ---------------------------------------------------------------------------------------

  lemma {:induction false} ChargedIsCappedPlusOverrun(s: State, sel: Selection, n: nat)
    requires n <= |s.rows|
    ensures SumTo(s, sel, Charged, n) == SumTo(s, sel, Capped, n) + SumTo(s, sel, Overrun, n)
    ensures SumTo(s, sel, Charged, n) == SumTo(s, sel, Spent, n) + SumTo(s, sel, Pending, n)
  {
    if n > 0 {
      ChargedIsCappedPlusOverrun(s, sel, n - 1);
    }
  }

  /** Rows that count for more, or a selection that selects more, never sum to less. */
  lemma {:induction false} SumGrows(s: State, sel: Selection, m: Measure, s': State, sel': Selection, m': Measure,
                                    n: nat)
    requires n <= |s.rows| && n <= |s'.rows|
    requires forall i :: 0 <= i < n ==>
      (if Selected(s, sel, i) then Value(s.rows[i], m) else 0)
        <= (if Selected(s', sel', i) then Value(s'.rows[i], m') else 0)
    ensures SumTo(s, sel, m, n) <= SumTo(s', sel', m', n)
  {
    if n > 0 {
      SumGrows(s, sel, m, s', sel', m', n - 1);
    }
  }

  // ---- the invariant --------------------------------------------------------------------------------

  ghost predicate RowsOk(s: State) {
    forall i :: 0 <= i < |s.rows| ==>
      s.rows[i].reserved >= 0
      && (s.rows[i].actual.Some? ==> s.rows[i].actual.value >= 0)
  }

  /** Own address, own payer, and only guest rows besides. */
  ghost predicate AllocationsOk(s: State) {
    && (forall a :: a in s.allocations ==> a.reservation < |s.rows| && a.day == s.rows[a.reservation].day)
    && (forall a :: a in s.allocations && a.scope.Ip? ==> s.rows[a.reservation].ip == a.scope.digest)
    && (forall a :: a in s.allocations && a.scope.User? ==> s.rows[a.reservation].payer in {None, Some(a.scope.id)})
    && (forall i :: 0 <= i < |s.rows| ==> Allocation(i, Ip(s.rows[i].ip), s.rows[i].day) in s.allocations)
    && (forall i :: 0 <= i < |s.rows| && s.rows[i].payer.Some? ==>
          Allocation(i, User(s.rows[i].payer.value), s.rows[i].day) in s.allocations)
  }

  ghost predicate CapsOk(s: State, limit: int) {
    && (forall ip: Digest, day: Day :: Total(s, InScope(Ip(ip), day), Capped) <= Max(0, limit))
    && (forall user: UserId, day: Day :: Total(s, PaidBy(user, day), Capped) <= Max(0, limit))
  }

  ghost predicate Inv(s: State, limit: int) {
    RowsOk(s) && AllocationsOk(s) && CapsOk(s, limit)
  }

  lemma {:induction false} ImportKeepsInv(s: State, actor: Actor, day: Day, limit: int)
    requires Inv(s, limit)
    ensures Inv(Import(s, actor, day), limit)
  {
    var s' := Import(s, actor, day);
    forall ip: Digest, d: Day ensures Total(s', InScope(Ip(ip), d), Capped) <= Max(0, limit) {
      SumGrows(s', InScope(Ip(ip), d), Capped, s, InScope(Ip(ip), d), Capped, |s.rows|);
    }
    forall user: UserId, d: Day ensures Total(s', PaidBy(user, d), Capped) <= Max(0, limit) {
      SumGrows(s', PaidBy(user, d), Capped, s, PaidBy(user, d), Capped, |s.rows|);
    }
  }

  lemma {:induction false} SettleKeepsInv(s: State, id: nat, actual: Option<int>, limit: int)
    requires Inv(s, limit)
    ensures Inv(SettleStep(s, id, actual), limit)
  {
    var s' := SettleStep(s, id, actual);
    forall ip: Digest, d: Day ensures Total(s', InScope(Ip(ip), d), Capped) <= Max(0, limit) {
      SumGrows(s', InScope(Ip(ip), d), Capped, s, InScope(Ip(ip), d), Capped, |s.rows|);
    }
    forall user: UserId, d: Day ensures Total(s', PaidBy(user, d), Capped) <= Max(0, limit) {
      SumGrows(s', PaidBy(user, d), Capped, s, PaidBy(user, d), Capped, |s.rows|);
    }
  }

  /** Booking adds exactly one row to exactly the actor's scopes. */
  lemma {:induction false} BookedTotal(s: State, actor: Actor, day: Day, amount: int, sel: Selection, m: Measure)
    requires AllocationsOk(s) && !sel.Unimported?
    ensures Total(Booked(s, actor, day, amount), sel, m) == Total(s, sel, m) +
      if Selected(Booked(s, actor, day, amount), sel, |s.rows|)
        then Value(Row(day, actor.ip, actor.user, amount, None), m) else 0
  {
    var s' := Booked(s, actor, day, amount);
    SumGrows(s', sel, m, s, sel, m, |s.rows|);
    SumGrows(s, sel, m, s', sel, m, |s.rows|);
  }

  lemma {:induction false} PayerWithinScope(s: State, user: UserId, day: Day)
    requires RowsOk(s) && AllocationsOk(s)
    ensures Total(s, PaidBy(user, day), Capped) <= Total(s, InScope(User(user), day), Capped)
  {
    SumGrows(s, PaidBy(user, day), Capped, s, InScope(User(user), day), Capped, |s.rows|);
  }

  lemma {:induction false} CappedFits(s: State, scope: Scope, day: Day, amount: int, limit: int)
    requires RowsOk(s) && Fits(s, scope, day, amount, limit)
    ensures Total(s, InScope(scope, day), Capped) + amount <= limit
  {
    ChargedIsCappedPlusOverrun(s, InScope(scope, day), |s.rows|);
    OverrunNonnegative(s, InScope(scope, day), |s.rows|);
  }

  lemma {:induction false} OverrunNonnegative(s: State, sel: Selection, n: nat)
    requires n <= |s.rows|
    ensures SumTo(s, sel, Overrun, n) >= 0
  {
    if n > 0 {
      OverrunNonnegative(s, sel, n - 1);
    }
  }

  lemma {:induction false} BookedKeepsInv(s: State, actor: Actor, day: Day, amount: int, limit: int)
    requires Inv(s, limit) && amount >= 0 && Fits(s, Ip(actor.ip), day, amount, limit)
    requires actor.user.Some? ==> Fits(s, User(actor.user.value), day, amount, limit)
    ensures Inv(Booked(s, actor, day, amount), limit)
  {
    var s' := Booked(s, actor, day, amount);
    forall ip: Digest, d: Day ensures Total(s', InScope(Ip(ip), d), Capped) <= Max(0, limit) {
      BookedTotal(s, actor, day, amount, InScope(Ip(ip), d), Capped);
      if ip == actor.ip && d == day {
        CappedFits(s, Ip(ip), day, amount, limit);
      }
    }
    forall user: UserId, d: Day ensures Total(s', PaidBy(user, d), Capped) <= Max(0, limit) {
      BookedTotal(s, actor, day, amount, PaidBy(user, d), Capped);
      if actor.user == Some(user) && d == day {
        CappedFits(s, User(user), day, amount, limit);
        PayerWithinScope(s, user, day);
      }
    }
  }

  lemma {:induction false} StepKeepsInv(s: State, step: Step, limit: int)
    requires Inv(s, limit)
    ensures Inv(Apply(s, step, limit), limit)
  {
    match step
    case Reserve(actor, day, amount) =>
      ImportKeepsInv(s, actor, day, limit);
      if Admits(s, actor, day, amount, limit) {
        BookedKeepsInv(Import(s, actor, day), actor, day, amount, limit);
      }
    case Settle(id, actual) => SettleKeepsInv(s, id, actual, limit);
    case Summary(actor, day) => ImportKeepsInv(s, actor, day, limit);
  }

  lemma {:induction false} InvAlways(states: seq<State>, steps: seq<Step>, limit: int, n: nat)
    requires IsRun(states, steps, limit) && n <= |steps|
    ensures Inv(states[n], limit)
  {
    if n > 0 {
      InvAlways(states, steps, limit, n - 1);
      StepKeepsInv(states[n - 1], steps[n - 1], limit);
    }
  }

  // ---- main results ---------------------------------------------------------------------------------

  /** The caps: after any sequence of transactions an address, and the rows a payer pays for,
      cost at most the limit plus what settlements recorded beyond their reservations. */
  lemma {:induction false} DailyCaps(states: seq<State>, steps: seq<Step>, limit: int, n: nat, ip: Digest,
                                     user: UserId, day: Day)
    requires IsRun(states, steps, limit) && n <= |steps| && limit >= 0
    ensures Total(states[n], InScope(Ip(ip), day), Charged) <= limit + Total(states[n], InScope(Ip(ip), day), Overrun)
    ensures Total(states[n], PaidBy(user, day), Charged) <= limit + Total(states[n], PaidBy(user, day), Overrun)
  {
    InvAlways(states, steps, limit, n);
    ChargedIsCappedPlusOverrun(states[n], InScope(Ip(ip), day), |states[n].rows|);
    ChargedIsCappedPlusOverrun(states[n], PaidBy(user, day), |states[n].rows|);
  }

  /** The transaction that imported guest rows of this address into this account. */
  ghost predicate Imports(s: State, step: Step, limit: int, actor: Actor, day: Day) {
    match step
    case Reserve(a, d, amount) => a == actor && d == day && Admits(s, a, d, amount, limit)
    case Summary(a, d) => a == actor && d == day
    case Settle(_, _) => false
  }

  /** An account's scope holds exactly its own rows and the same-day guest rows that existed
      when it was seen at their address. */
  ghost predicate Belongs(states: seq<State>, steps: seq<Step>, limit: int, n: nat, i: nat, user: UserId)
    requires |states| == |steps| + 1 && n <= |steps| && i < |states[n].rows|
  {
    var row := states[n].rows[i];
    row.payer == Some(user) ||
    (row.payer.None? && exists k ::
       (0 <= k < n && i < |states[k].rows| && Imports(states[k], steps[k], limit, Actor(row.ip, Some(user)), row.day)))
  }

  lemma {:induction false} RowsKeepIdentity(s: State, step: Step, limit: int)
    ensures |s.rows| <= |Apply(s, step, limit).rows|
    ensures forall i :: 0 <= i < |s.rows| ==>
      var row, row' := s.rows[i], Apply(s, step, limit).rows[i];
      row'.payer == row.payer && row'.ip == row.ip && row'.day == row.day && row'.reserved == row.reserved
  {
  }

  lemma {:induction false} NewAllocations(s: State, step: Step, limit: int, i: nat, user: UserId)
    requires Inv(s, limit) && i < |Apply(s, step, limit).rows|
    ensures var s' := Apply(s, step, limit);
            var row := s'.rows[i];
            Allocation(i, User(user), row.day) in s'.allocations <==>
              || (i < |s.rows| && Allocation(i, User(user), row.day) in s.allocations)
              || row.payer == Some(user)
              || (row.payer.None? && i < |s.rows| && Imports(s, step, limit, Actor(row.ip, Some(user)), row.day))
  {
  }

  lemma {:induction false} AllocationsExactly(states: seq<State>, steps: seq<Step>, limit: int, n: nat, i: nat,
                                              user: UserId)
    requires IsRun(states, steps, limit) && n <= |steps| && i < |states[n].rows|
    ensures Allocation(i, User(user), states[n].rows[i].day) in states[n].allocations
      <==> Belongs(states, steps, limit, n, i, user)
    ensures forall digest: Digest, day: Day :: Allocation(i, Ip(digest), day) in states[n].allocations
              <==> digest == states[n].rows[i].ip && day == states[n].rows[i].day
  {
    InvAlways(states, steps, limit, n);
    if n > 0 {
      InvAlways(states, steps, limit, n - 1);
      RowsKeepIdentity(states[n - 1], steps[n - 1], limit);
      NewAllocations(states[n - 1], steps[n - 1], limit, i, user);
      if i < |states[n - 1].rows| {
        AllocationsExactly(states, steps, limit, n - 1, i, user);
      } else {
        RowsOnlyGrow(states, steps, limit, n - 1);
      }
    }
  }

  lemma {:induction false} RowsOnlyGrow(states: seq<State>, steps: seq<Step>, limit: int, n: nat)
    requires IsRun(states, steps, limit) && n <= |steps|
    ensures forall k :: 0 <= k <= n ==> |states[k].rows| <= |states[n].rows|
  {
    if n > 0 {
      RowsOnlyGrow(states, steps, limit, n - 1);
      RowsKeepIdentity(states[n - 1], steps[n - 1], limit);
    }
  }

  // ---- the cap of an account ------------------------------------------------------------------------

  /** The account was admitted or looked at its budget at this address on this day. */
  ghost predicate SeenAt(states: seq<State>, steps: seq<Step>, limit: int, n: nat, user: UserId, ip: Digest, day: Day)
    requires |states| == |steps| + 1 && n <= |steps|
  {
    exists k: nat :: k < n && Imports(states[k], steps[k], limit, Actor(ip, Some(user)), day)
  }

  lemma {:induction false} SeenStays(states: seq<State>, steps: seq<Step>, limit: int, n: nat, user: UserId,
                                     ip: Digest, day: Day)
    requires |states| == |steps| + 1 && n < |steps| && SeenAt(states, steps, limit, n, user, ip, day)
    ensures SeenAt(states, steps, limit, n + 1, user, ip, day)
  {
    var k: nat :| k < n && Imports(states[k], steps[k], limit, Actor(ip, Some(user)), day);
  }

  /** Its own rows come from admissions at such an address. */
  lemma {:induction false} OwnRowSeen(states: seq<State>, steps: seq<Step>, limit: int, n: nat, i: nat, user: UserId)
    requires IsRun(states, steps, limit) && n <= |steps| && i < |states[n].rows|
      && states[n].rows[i].payer == Some(user)
    ensures SeenAt(states, steps, limit, n, user, states[n].rows[i].ip, states[n].rows[i].day)
  {
    if n > 0 {
      RowsKeepIdentity(states[n - 1], steps[n - 1], limit);
      var row := states[n].rows[i];
      if i < |states[n - 1].rows| {
        OwnRowSeen(states, steps, limit, n - 1, i, user);
        SeenStays(states, steps, limit, n - 1, user, row.ip, row.day);
      } else {
        assert Imports(states[n - 1], steps[n - 1], limit, Actor(row.ip, Some(user)), row.day);
      }
    }
  }

  /** So does every row of its day. */
  lemma {:induction false} ScopeRowSeen(states: seq<State>, steps: seq<Step>, limit: int, n: nat, i: nat,
                                        user: UserId, day: Day)
    requires IsRun(states, steps, limit) && n <= |steps| && i < |states[n].rows|
      && Selected(states[n], InScope(User(user), day), i)
    ensures SeenAt(states, steps, limit, n, user, states[n].rows[i].ip, day)
  {
    InvAlways(states, steps, limit, n);
    AllocationsExactly(states, steps, limit, n, i, user);
    var row := states[n].rows[i];
    assert row.day == day && Belongs(states, steps, limit, n, i, user);
    if row.payer == Some(user) {
      OwnRowSeen(states, steps, limit, n, i, user);
    } else {
      var k :| 0 <= k < n && i < |states[k].rows|
        && Imports(states[k], steps[k], limit, Actor(row.ip, Some(user)), row.day);
    }
  }

  /** What these addresses cost together, up to row n. */
  function AddressSum(s: State, day: Day, seen: seq<Digest>, n: nat): int
    requires n <= |s.rows|
  {
    if seen == [] then 0
    else AddressSum(s, day, seen[..|seen| - 1], n) + SumTo(s, InScope(Ip(seen[|seen| - 1]), day), Capped, n)
  }

  lemma {:induction false} AddressSumGrows(s: State, day: Day, seen: seq<Digest>, n: nat)
    requires RowsOk(s) && AllocationsOk(s) && 0 < n <= |s.rows|
    ensures AddressSum(s, day, seen, n) >= AddressSum(s, day, seen, n - 1)
      + if s.rows[n - 1].ip in seen && s.rows[n - 1].day == day then Value(s.rows[n - 1], Capped) else 0
  {
    if seen != [] {
      AddressSumGrows(s, day, seen[..|seen| - 1], n);
      assert seen == seen[..|seen| - 1] + [seen[|seen| - 1]];
    }
  }

  lemma {:induction false} ScopeWithinAddresses(s: State, user: UserId, day: Day, seen: seq<Digest>, n: nat)
    requires RowsOk(s) && AllocationsOk(s) && n <= |s.rows|
    requires forall i: nat :: i < n && Selected(s, InScope(User(user), day), i) ==> s.rows[i].ip in seen
    ensures SumTo(s, InScope(User(user), day), Capped, n) <= AddressSum(s, day, seen, n)
  {
    if n > 0 {
      ScopeWithinAddresses(s, user, day, seen, n - 1);
      AddressSumGrows(s, day, seen, n);
    } else {
      NothingYet(s, day, seen);
    }
  }

  lemma {:induction false} NothingYet(s: State, day: Day, seen: seq<Digest>)
    ensures AddressSum(s, day, seen, 0) == 0
  {
    if seen != [] {
      NothingYet(s, day, seen[..|seen| - 1]);
    }
  }

  lemma {:induction false} AddressesCapped(s: State, day: Day, seen: seq<Digest>, limit: int)
    requires CapsOk(s, limit) && limit >= 0
    ensures AddressSum(s, day, seen, |s.rows|) <= limit * |seen|
  {
    if seen != [] {
      AddressesCapped(s, day, seen[..|seen| - 1], limit);
      assert Total(s, InScope(Ip(seen[|seen| - 1]), day), Capped) <= limit;
      assert limit * |seen| == limit * (|seen| - 1) + limit;
    }
  }

  /** The cap an account does have: the limit for each address it was seen at that day, plus
      what settlements recorded beyond their reservations.  Two addresses do reach twice the
      limit, as `AccountCanExceedLimit` shows. */
  lemma {:induction false} AccountCap(states: seq<State>, steps: seq<Step>, limit: int, n: nat, user: UserId,
                                      day: Day, seen: seq<Digest>)
    requires IsRun(states, steps, limit) && n <= |steps| && limit >= 0
    requires forall ip: Digest :: SeenAt(states, steps, limit, n, user, ip, day) ==> ip in seen
    ensures Total(states[n], InScope(User(user), day), Charged)
         <= limit * |seen| + Total(states[n], InScope(User(user), day), Overrun)
  {
    var s := states[n];
    InvAlways(states, steps, limit, n);
    forall i: nat | i < |s.rows| && Selected(s, InScope(User(user), day), i) ensures s.rows[i].ip in seen {
      ScopeRowSeen(states, steps, limit, n, i, user, day);
    }
    ScopeWithinAddresses(s, user, day, seen, |s.rows|);
    AddressesCapped(s, day, seen, limit);
    ChargedIsCappedPlusOverrun(s, InScope(User(user), day), |s.rows|);
  }

  /** Repeated login is harmless, and login and settlement commute. */
  lemma {:induction false} ImportIdempotent(s: State, actor: Actor, day: Day)
    ensures Import(Import(s, actor, day), actor, day) == Import(s, actor, day)
  {
    assert Import(Import(s, actor, day), actor, day).allocations == Import(s, actor, day).allocations;
  }

  lemma {:induction false} ImportCommutesWithSettle(s: State, actor: Actor, day: Day, id: nat, actual: Option<int>)
    ensures Import(SettleStep(s, id, actual), actor, day) == SettleStep(Import(s, actor, day), id, actual)
  {
    assert Import(SettleStep(s, id, actual), actor, day).allocations
      == SettleStep(Import(s, actor, day), id, actual).allocations;
  }

  /** Import adds to the account's day exactly the guest rows it did not have yet. */
  lemma {:induction false} ImportAdds(s: State, actor: Actor, day: Day, m: Measure, n: nat)
    requires actor.user.Some? && n <= |s.rows|
    ensures SumTo(Import(s, actor, day), InScope(User(actor.user.value), day), m, n)
         == SumTo(s, InScope(User(actor.user.value), day), m, n) + SumTo(s, Unimported(actor, day), m, n)
  {
    if n > 0 {
      ImportAdds(s, actor, day, m, n - 1);
    }
  }

  /** An account may exceed the limit by logging in from several addresses: import keeps its
      day within the limit exactly when the guest spend it is about to inherit still fits. */
  lemma {:induction false} ImportKeepsAccountCapIff(s: State, actor: Actor, day: Day, limit: int)
    requires actor.user.Some?
    ensures Total(Import(s, actor, day), InScope(User(actor.user.value), day), Charged) <= limit <==>
            Total(s, InScope(User(actor.user.value), day), Charged) + Total(s, Unimported(actor, day), Charged) <= limit
  {
    ImportAdds(s, actor, day, Charged, |s.rows|);
  }

  /** Two addresses each spend the whole limit as guests; one account logs in at both. */
  lemma {:induction false} AccountCanExceedLimit(limit: int)
    requires limit > 0
    ensures var steps := [Reserve(Actor(1, None), 0, limit), Reserve(Actor(2, None), 0, limit),
                          Summary(Actor(1, Some(7)), 0), Summary(Actor(2, Some(7)), 0)];
            var s1 := Apply(EMPTY, steps[0], limit);
            var s2 := Apply(s1, steps[1], limit);
            var s3 := Apply(s2, steps[2], limit);
            var s4 := Apply(s3, steps[3], limit);
            IsRun([EMPTY, s1, s2, s3, s4], steps, limit) && Total(s4, InScope(User(7), 0), Charged) == 2 * limit
  {
    var s1 := Apply(EMPTY, Reserve(Actor(1, None), 0, limit), limit);
    assert Import(EMPTY, Actor(1, None), 0) == EMPTY;
    assert s1.rows == [Row(0, 1, None, limit, None)];
    assert s1.allocations == {Allocation(0, Ip(1), 0)};
    assert Fits(s1, Ip(2), 0, limit, limit) by {
      assert SumTo(s1, InScope(Ip(2), 0), Spent, 0) == 0 && SumTo(s1, InScope(Ip(2), 0), Pending, 0) == 0;
    }
    var s2 := Apply(s1, Reserve(Actor(2, None), 0, limit), limit);
    assert s2.rows == [Row(0, 1, None, limit, None), Row(0, 2, None, limit, None)];
    var s3 := Apply(s2, Summary(Actor(1, Some(7)), 0), limit);
    var s4 := Apply(s3, Summary(Actor(2, Some(7)), 0), limit);
    assert Allocation(0, User(7), 0) in s3.allocations;
    assert Allocation(1, User(7), 0) in s4.allocations;
    var sel := InScope(User(7), 0);
    assert SumTo(s4, sel, Charged, 1) == SumTo(s4, sel, Charged, 0) + limit;
    assert SumTo(s4, sel, Charged, 2) == SumTo(s4, sel, Charged, 1) + limit;
  }

  /** Whoever has just been admitted is within the limit in every scope, imports included. */
  lemma {:induction false} AdmissionCap(s: State, actor: Actor, day: Day, amount: int, limit: int, scope: Scope)
    requires Inv(s, limit) && Admits(s, actor, day, amount, limit) && scope in Scopes(actor)
    ensures Total(ReserveStep(s, actor, day, amount, limit), InScope(scope, day), Charged) <= limit
  {
    var imported := Import(s, actor, day);
    ImportKeepsInv(s, actor, day, limit);
    BookedTotal(imported, actor, day, amount, InScope(scope, day), Charged);
    ChargedIsCappedPlusOverrun(imported, InScope(scope, day), |imported.rows|);
  }

  // ---- what a transaction moves ----------------------------------------------------------------------

  /** What a scope has charged against the day. */
  function Used(s: State, scope: Scope, day: Day): int {
    Total(s, InScope(scope, day), Charged)
  }

  /** Admitted exactly if the amount is not negative and fits the day of every scope of the actor, what
      the account is about to inherit included. */
  lemma {:induction false} AdmitsIff(s: State, actor: Actor, day: Day, amount: int, limit: int)
    requires AllocationsOk(s)
    ensures Admits(s, actor, day, amount, limit) <==>
              && amount >= 0
              && Used(s, Ip(actor.ip), day) + amount <= limit
              && (actor.user.Some? ==>
                  Used(s, User(actor.user.value), day) + Total(s, Unimported(actor, day), Charged) + amount <= limit)
  {
    var imported := Import(s, actor, day);
    ChargedIsCappedPlusOverrun(imported, InScope(Ip(actor.ip), day), |s.rows|);
    SumGrows(imported, InScope(Ip(actor.ip), day), Charged, s, InScope(Ip(actor.ip), day), Charged, |s.rows|);
    SumGrows(s, InScope(Ip(actor.ip), day), Charged, imported, InScope(Ip(actor.ip), day), Charged, |s.rows|);
    if actor.user.Some? {
      ImportAdds(s, actor, day, Charged, |s.rows|);
      ChargedIsCappedPlusOverrun(imported, InScope(User(actor.user.value), day), |s.rows|);
    }
  }

  /** An admitted amount becomes pending, and nothing else, for that day in each scope of the actor and
      in no other. */
  lemma {:induction false} ReserveMoves(s: State, actor: Actor, day: Day, amount: int, limit: int, scope: Scope, d: Day)
    requires AllocationsOk(s) && Admits(s, actor, day, amount, limit)
    ensures var before, after := Import(s, actor, day), ReserveStep(s, actor, day, amount, limit);
            var sel, mine := InScope(scope, d), d == day && scope in Scopes(actor);
            && Total(after, sel, Pending) == Total(before, sel, Pending) + (if mine then amount else 0)
            && Total(after, sel, Spent) == Total(before, sel, Spent)
            && after.rows == s.rows + [Row(day, actor.ip, actor.user, amount, None)]
  {
    var before := Import(s, actor, day);
    BookedTotal(before, actor, day, amount, InScope(scope, d), Pending);
    BookedTotal(before, actor, day, amount, InScope(scope, d), Spent);
  }

  /** Settling takes the reservation out of what is pending and puts the actual cost into what is spent,
      in every scope the row belongs to and in no other; only the first settlement does. */
  lemma {:induction false} SettleMoves(s: State, id: nat, actual: int, scope: Scope, day: Day)
    requires id < |s.rows| && actual >= 0
    ensures var after, sel := SettleStep(s, id, Some(actual)), InScope(scope, day);
            var moves := s.rows[id].actual.None? && Allocation(id, scope, day) in s.allocations;
            && Total(after, sel, Pending) == Total(s, sel, Pending) - (if moves then s.rows[id].reserved else 0)
            && Total(after, sel, Spent) == Total(s, sel, Spent) + (if moves then actual else 0)
            && |after.rows| == |s.rows| && after.allocations == s.allocations
            && after.rows[id].actual == (if s.rows[id].actual.None? then Some(actual) else s.rows[id].actual)
  {
    SettledSums(s, id, actual, InScope(scope, day), |s.rows|);
  }

  lemma {:induction false} SettledSums(s: State, id: nat, actual: int, sel: Selection, n: nat)
    requires id < |s.rows| && actual >= 0 && n <= |s.rows| && sel.InScope?
    ensures var after := SettleStep(s, id, Some(actual));
            var moves := id < n && s.rows[id].actual.None? && Selected(s, sel, id);
            && |after.rows| == |s.rows|
            && SumTo(after, sel, Pending, n) == SumTo(s, sel, Pending, n) - (if moves then s.rows[id].reserved else 0)
            && SumTo(after, sel, Spent, n) == SumTo(s, sel, Spent, n) + (if moves then actual else 0)
  {
    if n > 0 {
      SettledSums(s, id, actual, sel, n - 1);
    }
  }

  // ---- the tables, updated in place ------------------------------------------------------------------

  datatype Failure = InvalidAmount | QuotaExceeded | ReservationMissing | AlreadyFinalized | EstimateExceeded

  datatype Report = Report(spent: int, pending: int, remaining: int, limitedByIp: bool)

  class SpendTables {
    var rows: seq<Row>
    var allocations: set<Allocation>

    constructor ()
      ensures Snapshot() == EMPTY
    {
      rows, allocations := [], {};
    }

    function Snapshot(): State
      reads this
    {
      State(rows, allocations)
    }

    method ImportGuest(actor: Actor, day: Day)
      modifies `allocations
      ensures Snapshot() == Import(old(Snapshot()), actor, day)
    {
      if actor.user.None? {
        return;
      }
      for i := 0 to |rows|
        invariant allocations == old(allocations)
          + set k: nat | k < i && IsGuestRow(rows[k], actor, day) :: Allocation(k, User(actor.user.value), day)
      {
        if IsGuestRow(rows[i], actor, day) {
          allocations := allocations + {Allocation(i, User(actor.user.value), day)};
        }
      }
    }

    method Totals(scope: Scope, day: Day) returns (spent: int, pending: int)
      ensures spent == Total(Snapshot(), InScope(scope, day), Spent)
      ensures pending == Total(Snapshot(), InScope(scope, day), Pending)
    {
      spent, pending := 0, 0;
      for i := 0 to |rows|
        invariant spent == SumTo(Snapshot(), InScope(scope, day), Spent, i)
        invariant pending == SumTo(Snapshot(), InScope(scope, day), Pending, i)
      {
        if Allocation(i, scope, day) in allocations {
          match rows[i].actual
          case Some(actual) => spent := spent + actual;
          case None => pending := pending + rows[i].reserved;
        }
      }
    }

    /** Admitted with the id of its row, or refused with nothing changed. */
    method Reserve(actor: Actor, day: Day, amount: int, limit: int) returns (id: nat, refusal: Option<Failure>)
      modifies this
      ensures Snapshot() == ReserveStep(old(Snapshot()), actor, day, amount, limit)
      ensures refusal.None? <==> Admits(old(Snapshot()), actor, day, amount, limit)
      ensures refusal == Some(InvalidAmount) <==> amount < 0
      ensures refusal.Some? && amount >= 0 ==> refusal == Some(QuotaExceeded)
      ensures refusal.None? ==> id == old(|rows|)
    {
      id := |rows|;
      if amount < 0 {
        return id, Some(InvalidAmount);
      }
      var before := allocations;
      ImportGuest(actor, day);
      var room := true;
      var spent, pending := Totals(Ip(actor.ip), day);
      if spent + pending + amount > limit {
        room := false;
      }
      if actor.user.Some? {
        spent, pending := Totals(User(actor.user.value), day);
        if spent + pending + amount > limit {
          room := false;
        }
      }
      if !room {
        allocations := before;
        return id, Some(QuotaExceeded);
      }
      rows := rows + [Row(day, actor.ip, actor.user, amount, None)];
      allocations := allocations + {Allocation(id, Ip(actor.ip), day)}
        + if actor.user.Some? then {Allocation(id, User(actor.user.value), day)} else {};
      refusal := None;
    }

    /** An overrun is recorded and then reported. */
    method Settle(id: nat, actual: Option<int>) returns (failure: Option<Failure>)
      modifies `rows
      ensures Snapshot() == SettleStep(old(Snapshot()), id, actual)
      ensures failure.None? <==>
        || actual.None?
        || (actual.value >= 0 && id < |rows| && rows[id].actual == actual
            && (old(rows[id]).actual.Some? || actual.value <= rows[id].reserved))
      ensures failure != Some(QuotaExceeded)
      ensures failure == Some(InvalidAmount) <==> actual.Some? && actual.value < 0
      ensures failure == Some(ReservationMissing) <==> actual.Some? && actual.value >= 0 && id >= |rows|
      ensures failure == Some(AlreadyFinalized) <==>
        && actual.Some? && actual.value >= 0 && id < |rows|
        && old(rows)[id].actual.Some? && old(rows)[id].actual != actual
    {
      if actual.None? {
        return None;
      }
      if actual.value < 0 {
        return Some(InvalidAmount);
      }
      if id >= |rows| {
        return Some(ReservationMissing);
      }
      if rows[id].actual.Some? {
        return if rows[id].actual != actual then Some(AlreadyFinalized) else None;
      }
      rows := rows[id := rows[id].(actual := actual)];
      failure := if actual.value > rows[id].reserved then Some(EstimateExceeded) else None;
    }

    /** Imports like a reservation would, then reports the fuller of the actor's scopes; the
        address wins a tie. */
    method Summary(actor: Actor, day: Day, limit: int) returns (report: Report)
      modifies `allocations
      ensures Snapshot() == Import(old(Snapshot()), actor, day)
      ensures forall scope :: scope in Scopes(actor) ==> Used(Snapshot(), scope, day) <= report.spent + report.pending
      ensures report.remaining == Max(0, limit - report.spent - report.pending)
      ensures !report.limitedByIp ==> actor.user.Some?
      ensures var scope := if report.limitedByIp then Ip(actor.ip) else User(actor.user.value);
              && scope in Scopes(actor)
              && report.spent == Total(Snapshot(), InScope(scope, day), Spent)
              && report.pending == Total(Snapshot(), InScope(scope, day), Pending)
      ensures report.limitedByIp <==> Used(Snapshot(), Ip(actor.ip), day) == report.spent + report.pending
    {
      ImportGuest(actor, day);
      var spent, pending := Totals(Ip(actor.ip), day);
      var limitedByIp := true;
      ChargedIsCappedPlusOverrun(Snapshot(), InScope(Ip(actor.ip), day), |rows|);
      if actor.user.Some? {
        var accountSpent, accountPending := Totals(User(actor.user.value), day);
        ChargedIsCappedPlusOverrun(Snapshot(), InScope(User(actor.user.value), day), |rows|);
        if accountSpent + accountPending > spent + pending {
          spent, pending, limitedByIp := accountSpent, accountPending, false;
        }
      }
      report := Report(spent, pending, Max(0, limit - spent - pending), limitedByIp);
    }
  }

  /** What the summary promises: right after it a positive amount is admitted exactly when it
      is at most the reported remainder of the fuller scope. */
  lemma {:induction false} SummaryPredictsAdmission(s: State, actor: Actor, day: Day, amount: int, limit: int,
                                                    worst: int)
    requires amount > 0
    requires forall scope :: scope in Scopes(actor) ==> Used(Import(s, actor, day), scope, day) <= worst
    requires exists scope :: scope in Scopes(actor) && Used(Import(s, actor, day), scope, day) == worst
    ensures Admits(Import(s, actor, day), actor, day, amount, limit) <==> amount <= Max(0, limit - worst)
  {
    var imported := Import(s, actor, day);
    ImportIdempotent(s, actor, day);
    assert Ip(actor.ip) in Scopes(actor) && (actor.user.Some? ==> User(actor.user.value) in Scopes(actor));
    ChargedIsCappedPlusOverrun(imported, InScope(Ip(actor.ip), day), |imported.rows|);
    if actor.user.Some? {
      ChargedIsCappedPlusOverrun(imported, InScope(User(actor.user.value), day), |imported.rows|);
    }
  }

  // ---- pricing ----------------------------------------------------------------------------------------

  /** USD per million tokens. */
  datatype Tariff = Tariff(input: real, output: real)

  /** The exact cost in millionths of a dollar. */
  function Cost(t: Tariff, prompt: int, completion: int): real {
    prompt as real * t.input + completion as real * t.output
  }

  /** Millionths of a dollar in units of 0.00000001 USD, rounded up. */
  function Units(cost: real): int {
    -((-(100.0 * cost)).Floor)
  }

  function ActualPrice(t: Tariff, prompt: int, completion: int): Option<int> {
    if prompt < 0 || completion < 0 then None else Some(Units(Cost(t, prompt, completion)))
  }

  /** Nothing costs nothing; one more prompt token costs the input rate, one more completion token the
      output rate. */
  lemma {:induction false} CostPerToken(t: Tariff, prompt: int, completion: int)
    ensures Cost(t, 0, 0) == 0.0
    ensures Cost(t, prompt + 1, completion) == Cost(t, prompt, completion) + t.input
    ensures Cost(t, prompt, completion + 1) == Cost(t, prompt, completion) + t.output
  {
    OneMoreToken(prompt, t.input);
    OneMoreToken(completion, t.output);
  }

  lemma {:induction false} OneMoreToken(n: int, price: real)
    ensures (n + 1) as real * price == n as real * price + price
  {
    assert (n + 1) as real == n as real + 1.0;
  }

  /** The price is the least whole number of units, a hundred to a millionth of a dollar, that is not
      below the exact cost; a negative count has none. */
  lemma {:induction false} PriceIsLeast(t: Tariff, prompt: int, completion: int, units: int)
    ensures ActualPrice(t, prompt, completion).Some? <==> prompt >= 0 && completion >= 0
    ensures prompt >= 0 && completion >= 0 ==>
              (units as real / 100.0 >= Cost(t, prompt, completion) <==>
               units >= ActualPrice(t, prompt, completion).value)
  {
    var exact := 100.0 * Cost(t, prompt, completion);
    assert units as real / 100.0 >= Cost(t, prompt, completion) <==> units as real >= exact;
    var up := -((-exact).Floor);
    assert (-exact).Floor as real <= -exact < (-exact).Floor as real + 1.0;
    assert up as real >= exact > up as real - 1.0;
  }

  const FRAMING_TOKENS := 1024

  /** UTF-8 bytes bound the prompt tokens; the provider's output cap bounds the rest. */
  function ReservePrice(t: Tariff, bytes: nat, maxOutput: int): Option<int> {
    if maxOutput < 0 then None else ActualPrice(t, bytes + FRAMING_TOKENS, maxOutput)
  }

  lemma {:induction false} UnitsMonotone(x: real, y: real)
    requires x <= y
    ensures Units(x) <= Units(y)
  {
    assert 100.0 * x <= 100.0 * y;
  }

  lemma {:induction false} Scaled(a: int, b: int, price: real)
    requires a <= b && price >= 0.0
    ensures a as real * price <= b as real * price
  {
    var gap: real := (b - a) as real;
    assert b as real == a as real + gap;
    assert gap * price >= 0.0;
  }

  lemma {:induction false} CostMonotone(t: Tariff, prompt: int, completion: int, prompt': int, completion': int)
    requires t.input >= 0.0 && t.output >= 0.0 && prompt <= prompt' && completion <= completion'
    ensures Cost(t, prompt, completion) <= Cost(t, prompt', completion')
  {
    Scaled(prompt, prompt', t.input);
    Scaled(completion, completion', t.output);
  }

  /** Usage within the stated bounds never costs more than was reserved for it. */
  lemma {:induction false} UsageWithinReservation(t: Tariff, bytes: nat, maxOutput: nat, prompt: nat, completion: nat)
    requires t.input >= 0.0 && t.output >= 0.0
    requires prompt <= bytes + FRAMING_TOKENS && completion <= maxOutput
    ensures 0 <= ActualPrice(t, prompt, completion).value <= ReservePrice(t, bytes, maxOutput).value
  {
    CostMonotone(t, 0, 0, prompt, completion);
    CostMonotone(t, prompt, completion, bytes + FRAMING_TOKENS, maxOutput);
    UnitsMonotone(Cost(t, 0, 0), Cost(t, prompt, completion));
    UnitsMonotone(Cost(t, prompt, completion), Cost(t, bytes + FRAMING_TOKENS, maxOutput));
  }

  /** A provider call: what it was reserved for. */
  datatype Call = Call(tariff: Tariff, bytes: nat, maxOutput: nat)

  /** Every reservation was priced from its call, and every settlement reports usage within
      that call's bounds. */
  ghost predicate WithinBounds(states: seq<State>, steps: seq<Step>, calls: seq<Call>) {
    && |states| == |steps| + 1 && |calls| == |states[|steps|].rows|
    && (forall c :: c in calls ==> c.tariff.input >= 0.0 && c.tariff.output >= 0.0)
    && (forall i :: 0 <= i < |calls| ==>
          states[|steps|].rows[i].reserved == ReservePrice(calls[i].tariff, calls[i].bytes, calls[i].maxOutput).value)
    && (forall k :: 0 <= k < |steps| && steps[k].Settle? && Settles(states[k], steps[k].id, steps[k].actual) ==>
          steps[k].id < |calls| && UsageIn(calls[steps[k].id], steps[k].actual))
  }

  ghost predicate UsageIn(call: Call, actual: Option<int>) {
    exists prompt: nat, completion: nat ::
      prompt <= call.bytes + FRAMING_TOKENS && completion <= call.maxOutput
        && actual == ActualPrice(call.tariff, prompt, completion)
  }

  ghost predicate NoOverrun(s: State) {
    forall i :: 0 <= i < |s.rows| && s.rows[i].actual.Some? ==> s.rows[i].actual.value <= s.rows[i].reserved
  }

  lemma {:induction false} NeverOverruns(states: seq<State>, steps: seq<Step>, limit: int, calls: seq<Call>, n: nat)
    requires IsRun(states, steps, limit) && WithinBounds(states, steps, calls) && n <= |steps|
    ensures NoOverrun(states[n])
  {
    if n > 0 {
      NeverOverruns(states, steps, limit, calls, n - 1);
      var s, step := states[n - 1], steps[n - 1];
      if step.Settle? && Settles(s, step.id, step.actual) {
        var call := calls[step.id];
        assert call in calls;
        var prompt: nat, completion: nat :|
          prompt <= call.bytes + FRAMING_TOKENS && completion <= call.maxOutput
            && step.actual == ActualPrice(call.tariff, prompt, completion);
        UsageWithinReservation(call.tariff, call.bytes, call.maxOutput, prompt, completion);
        ReservedStays(states, steps, limit, n - 1, |steps|, step.id);
      }
    }
  }

  lemma {:induction false} ReservedStays(states: seq<State>, steps: seq<Step>, limit: int, i: nat, j: nat, id: nat)
    requires IsRun(states, steps, limit) && i <= j <= |steps| && id < |states[i].rows|
    ensures id < |states[j].rows| && states[j].rows[id].reserved == states[i].rows[id].reserved
  {
    if i < j {
      ReservedStays(states, steps, limit, i, j - 1, id);
      RowsKeepIdentity(states[j - 1], steps[j - 1], limit);
    }
  }

  lemma {:induction false} NoOverrunSums(s: State, sel: Selection, n: nat)
    requires NoOverrun(s) && n <= |s.rows|
    ensures SumTo(s, sel, Overrun, n) == 0
  {
    if n > 0 {
      NoOverrunSums(s, sel, n - 1);
    }
  }

  /** With honest usage the caps are exact: no day of an address, and no day a payer pays for,
      ever costs more than the limit. */
  lemma {:induction false} HonestUsageKeepsCaps(states: seq<State>, steps: seq<Step>, limit: int, calls: seq<Call>,
                                                n: nat,
                             ip: Digest, user: UserId, day: Day)
    requires IsRun(states, steps, limit) && WithinBounds(states, steps, calls) && n <= |steps| && limit >= 0
    ensures Total(states[n], InScope(Ip(ip), day), Charged) <= limit
    ensures Total(states[n], PaidBy(user, day), Charged) <= limit
  {
    DailyCaps(states, steps, limit, n, ip, user, day);
    NeverOverruns(states, steps, limit, calls, n);
    NoOverrunSums(states[n], InScope(Ip(ip), day), |states[n].rows|);
    NoOverrunSums(states[n], PaidBy(user, day), |states[n].rows|);
  }
}
