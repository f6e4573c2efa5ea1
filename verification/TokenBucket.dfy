/**
 The token bucket per API key and endpoint class: continuous refill of the whole capacity per
 minute, kept in a Redis hash that expires after a minute without use.
 */
module TokenBucket {
  import opened Common

  datatype Level = Level(tokens: real, at: int)

  /** A decision: whether the request may go on, what is left, and when to come back. */
  datatype Decision = Decision(allowed: bool, remaining: int, retryAfter: int)

  const IDLE_MS := 60000

  function Rate(capacity: nat): real {
    capacity as real / 60.0
  }

  function Refill(capacity: nat, ms: int): real {
    ms as real / 1000.0 * Rate(capacity)
  }

  function Least(a: real, b: real): real {
    if a <= b then a else b
  }

  /** What the bucket holds at this time; a missing key counts as full. */
  function Filled(bucket: Option<Level>, capacity: nat, now: int): real {
    match bucket
    case None => Least(capacity as real, capacity as real + Refill(capacity, 0))
    case Some(level) => Least(capacity as real, level.tokens + Refill(capacity, now - level.at))
  }

  predicate Admits(bucket: Option<Level>, capacity: nat, now: int, cost: nat) {
    Filled(bucket, capacity, now) >= cost as real
  }

  function Drawn(bucket: Option<Level>, capacity: nat, now: int, cost: nat): Level {
    var tokens := Filled(bucket, capacity, now);
    Level(if Admits(bucket, capacity, now, cost) then tokens - cost as real else tokens, now)
  }

  predicate Sound(bucket: Option<Level>, capacity: nat) {
    bucket.Some? ==> 0.0 <= bucket.value.tokens <= capacity as real
  }

  function Ceil(x: real): int {
    -((-x).Floor)
  }

  // ---- refill arithmetic -----------------------------------------------------------------------------

  lemma {:induction false} Product(a: real, b: real)
    requires a >= 0.0 && b >= 0.0
    ensures a * b >= 0.0
  {
  }

  lemma {:induction false} RefillAdds(capacity: nat, a: int, b: int)
    ensures Refill(capacity, a) + Refill(capacity, b) == Refill(capacity, a + b)
  {
    var r := Rate(capacity);
    assert (a + b) as real == a as real + b as real;
    assert (a as real / 1000.0 + b as real / 1000.0) * r == a as real / 1000.0 * r + b as real / 1000.0 * r;
  }

  lemma {:induction false} RefillGrows(capacity: nat, a: int, b: int)
    requires a <= b
    ensures Refill(capacity, a) <= Refill(capacity, b)
  {
    RefillAdds(capacity, a, b - a);
    Product((b - a) as real / 1000.0, Rate(capacity));
  }

  /** A minute refills an empty bucket. */
  lemma {:induction false} MinuteFills(capacity: nat)
    ensures Refill(capacity, IDLE_MS) == capacity as real && Refill(capacity, 0) == 0.0
  {
    assert 60.0 * Rate(capacity) == capacity as real;
  }

  // ---- a sequence of requests ----------------------------------------------------------------------------

  datatype Request = Request(now: int, cost: nat)

  /** The key may be gone by a request that comes a minute or more after the last one; it is
      never gone earlier. */
  predicate MayFind(stored: Option<Level>, found: Option<Level>, now: int) {
    found == stored || (found.None? && stored.Some? && now - stored.value.at >= IDLE_MS)
  }

  /** `stored[i]` is the key before request i and `found[i]` what the script reads. */
  ghost predicate IsRun(stored: seq<Option<Level>>, found: seq<Option<Level>>, requests: seq<Request>, capacity: nat) {
    && |found| == |requests| && |stored| == |requests| + 1 && stored[0].None?
    && (forall i :: 0 <= i < |requests| ==>
          && MayFind(stored[i], found[i], requests[i].now)
          && stored[i + 1] == Some(Drawn(found[i], capacity, requests[i].now, requests[i].cost)))
    && (forall i :: 0 < i < |requests| ==> requests[i - 1].now <= requests[i].now)
  }

  lemma {:induction false} FilledSound(bucket: Option<Level>, capacity: nat, now: int)
    requires Sound(bucket, capacity) && (bucket.Some? ==> bucket.value.at <= now)
    ensures 0.0 <= Filled(bucket, capacity, now) <= capacity as real
  {
    MinuteFills(capacity);
    if bucket.Some? {
      RefillGrows(capacity, 0, now - bucket.value.at);
    }
  }

  lemma {:induction false} AlwaysSound(stored: seq<Option<Level>>, found: seq<Option<Level>>, requests: seq<Request>,
                                       capacity: nat, n: nat)
    requires IsRun(stored, found, requests, capacity) && n <= |requests|
    ensures Sound(stored[n], capacity) && (n > 0 ==> stored[n].Some? && stored[n].value.at == requests[n - 1].now)
    ensures n < |requests| ==> Sound(found[n], capacity) && (found[n].Some? ==> found[n].value.at <= requests[n].now)
  {
    if n > 0 {
      AlwaysSound(stored, found, requests, capacity, n - 1);
      FilledSound(found[n - 1], capacity, requests[n - 1].now);
    }
  }

  /** Dropping a key after a minute without use cannot be told from keeping it. */
  lemma {:induction false} IdleDropUnseen(stored: Option<Level>, found: Option<Level>, capacity: nat, now: int)
    requires MayFind(stored, found, now) && Sound(stored, capacity)
    ensures Filled(found, capacity, now) == Filled(stored, capacity, now)
  {
    if found != stored {
      MinuteFills(capacity);
      RefillGrows(capacity, IDLE_MS, now - stored.value.at);
    }
  }

  /** So whenever the key expires, the decisions are those of a bucket that never does. */
  lemma {:induction false} ExpiryIsInvisible(
    stored: seq<Option<Level>>, found: seq<Option<Level>>, stored': seq<Option<Level>>, found': seq<Option<Level>>,
    requests: seq<Request>, capacity: nat, n: nat)
    requires IsRun(stored, found, requests, capacity) && IsRun(stored', found', requests, capacity) && n <= |requests|
    ensures stored[n] == stored'[n]
    ensures n < |requests| ==>
      (Admits(found[n], capacity, requests[n].now, requests[n].cost)
       <==> Admits(found'[n], capacity, requests[n].now, requests[n].cost))
  {
    if n > 0 {
      ExpiryIsInvisible(stored, found, stored', found', requests, capacity, n - 1);
      AlwaysSound(stored, found, requests, capacity, n - 1);
      IdleDropUnseen(stored[n - 1], found[n - 1], capacity, requests[n - 1].now);
      IdleDropUnseen(stored'[n - 1], found'[n - 1], capacity, requests[n - 1].now);
    }
    if n < |requests| {
      AlwaysSound(stored, found, requests, capacity, n);
      IdleDropUnseen(stored[n], found[n], capacity, requests[n].now);
      IdleDropUnseen(stored'[n], found'[n], capacity, requests[n].now);
    }
  }

  /** The cost admitted by requests i up to (not including) j. */
  function Admitted(found: seq<Option<Level>>, requests: seq<Request>, capacity: nat, i: nat, j: nat): nat
    requires i <= j <= |requests| == |found|
  {
    if i == j then 0
    else
      var r := requests[j - 1];
      Admitted(found, requests, capacity, i, j - 1) + if Admits(found[j - 1], capacity, r.now, r.cost) then r.cost
        else 0
  }

  /** What is left plus what was admitted never exceeds what was there plus what flowed in. */
  lemma {:induction false} Balance(stored: seq<Option<Level>>, found: seq<Option<Level>>, requests: seq<Request>,
                                   capacity: nat, i: nat, j: nat)
    requires IsRun(stored, found, requests, capacity) && i < j <= |requests|
    ensures stored[j].Some? && stored[j].value.tokens + Admitted(found, requests, capacity, i, j) as real
            <= capacity as real + Refill(capacity, requests[j - 1].now - requests[i].now)
  {
    var r := requests[j - 1];
    AlwaysSound(stored, found, requests, capacity, j - 1);
    IdleDropUnseen(stored[j - 1], found[j - 1], capacity, r.now);
    FilledSound(found[j - 1], capacity, r.now);
    if i + 1 == j {
      MinuteFills(capacity);
      assert Admitted(found, requests, capacity, i, i) == 0;
    } else {
      Balance(stored, found, requests, capacity, i, j - 1);
      RefillAdds(capacity, requests[j - 2].now - requests[i].now, r.now - requests[j - 2].now);
    }
  }

  /** Over any stretch of time no more is admitted than the capacity and the refill of it. */
  lemma {:induction false} WindowBound(stored: seq<Option<Level>>, found: seq<Option<Level>>, requests: seq<Request>,
                                       capacity: nat, i: nat, j: nat)
    requires IsRun(stored, found, requests, capacity) && i < j <= |requests|
    ensures Admitted(found, requests, capacity, i, j) as real
            <= capacity as real + Refill(capacity, requests[j - 1].now - requests[i].now)
  {
    Balance(stored, found, requests, capacity, i, j);
    AlwaysSound(stored, found, requests, capacity, j);
  }

  /** In particular at most twice the limit in any minute. */
  lemma {:induction false} MinuteBound(stored: seq<Option<Level>>, found: seq<Option<Level>>, requests: seq<Request>,
                                       capacity: nat, i: nat, j: nat)
    requires IsRun(stored, found, requests, capacity) && i < j <= |requests|
    requires requests[j - 1].now - requests[i].now <= IDLE_MS
    ensures Admitted(found, requests, capacity, i, j) <= 2 * capacity
  {
    WindowBound(stored, found, requests, capacity, i, j);
    RefillGrows(capacity, requests[j - 1].now - requests[i].now, IDLE_MS);
    MinuteFills(capacity);
  }

  // ---- exactly what is admitted ------------------------------------------------------------------------------

  /** Room since request i: the capacity and what has flowed in, without what was admitted. */
  function Room(found: seq<Option<Level>>, requests: seq<Request>, capacity: nat, i: nat, n: nat): real
    requires i <= n < |requests| == |found|
  {
    capacity as real + Refill(capacity, requests[n].now - requests[i].now)
      - Admitted(found, requests, capacity, i, n) as real
  }

  lemma {:induction false} LevelIsRoom(stored: seq<Option<Level>>, found: seq<Option<Level>>, requests: seq<Request>,
                                       capacity: nat, n: nat)
    returns (least: nat)
    requires IsRun(stored, found, requests, capacity) && n < |requests|
    ensures least <= n && Filled(found[n], capacity, requests[n].now) == Room(found, requests, capacity, least, n)
    ensures forall i: nat :: i <= n ==>
              Filled(found[n], capacity, requests[n].now) <= Room(found, requests, capacity, i, n)
  {
    AlwaysSound(stored, found, requests, capacity, n);
    IdleDropUnseen(stored[n], found[n], capacity, requests[n].now);
    MinuteFills(capacity);
    RoomIsCapacity(found, requests, capacity, n);
    if n == 0 {
      least := 0;
      return;
    }
    var earlier := LevelIsRoom(stored, found, requests, capacity, n - 1);
    forall i: nat | i < n
      ensures Room(found, requests, capacity, i, n)
           == Room(found, requests, capacity, i, n - 1) - Taken(found, requests, capacity, n - 1) as real
              + Refill(capacity, requests[n].now - requests[n - 1].now)
    {
      RoomMoves(found, requests, capacity, i, n);
    }
    least := if Filled(found[n], capacity, requests[n].now) == capacity as real then n else earlier;
  }

  /** What the i-th request took. */
  function Taken(found: seq<Option<Level>>, requests: seq<Request>, capacity: nat, i: nat): nat
    requires i < |requests| == |found|
  {
    if Admits(found[i], capacity, requests[i].now, requests[i].cost) then requests[i].cost else 0
  }

  lemma {:induction false} RoomIsCapacity(found: seq<Option<Level>>, requests: seq<Request>, capacity: nat, n: nat)
    requires n < |requests| == |found|
    ensures Room(found, requests, capacity, n, n) == capacity as real
  {
    MinuteFills(capacity);
  }

  lemma {:induction false} RoomMoves(found: seq<Option<Level>>, requests: seq<Request>, capacity: nat, i: nat, n: nat)
    requires i < n < |requests| == |found|
    ensures Room(found, requests, capacity, i, n)
         == Room(found, requests, capacity, i, n - 1) - Taken(found, requests, capacity, n - 1) as real
            + Refill(capacity, requests[n].now - requests[n - 1].now)
  {
    RefillAdds(capacity, requests[n - 1].now - requests[i].now, requests[n].now - requests[n - 1].now);
    var before := Admitted(found, requests, capacity, i, n - 1);
    assert (before + Taken(found, requests, capacity, n - 1)) as real
        == before as real + Taken(found, requests, capacity, n - 1) as real;
  }

  /** Admitting request n keeps what is admitted since request i within the capacity and the refill since. */
  predicate StaysWithin(found: seq<Option<Level>>, requests: seq<Request>, capacity: nat, i: nat, n: nat)
    requires i <= n < |requests| == |found|
  {
    Admitted(found, requests, capacity, i, n) as real + requests[n].cost as real
    <= capacity as real + capacity as real * ((requests[n].now - requests[i].now) as real / 60000.0)
  }

  lemma {:induction false} WithinIsRoom(found: seq<Option<Level>>, requests: seq<Request>, capacity: nat, i: nat,
                                        n: nat)
    requires i <= n < |requests| == |found|
    ensures StaysWithin(found, requests, capacity, i, n) <==>
              Room(found, requests, capacity, i, n) >= requests[n].cost as real
  {
    RefillPerMinute(capacity, requests[n].now - requests[i].now);
  }

  /** A request is refused exactly if, counted from some earlier request or itself, admitting it would
      take more than the capacity and the refill since: the bucket admits all that the bound allows. */
  lemma {:induction false} AdmittedIff(stored: seq<Option<Level>>, found: seq<Option<Level>>, requests: seq<Request>,
                                       capacity: nat, n: nat)
    requires IsRun(stored, found, requests, capacity) && n < |requests|
    ensures Admits(found[n], capacity, requests[n].now, requests[n].cost) <==>
              forall i: nat :: i <= n ==> StaysWithin(found, requests, capacity, i, n)
  {
    hide Room, StaysWithin, Filled;
    var least := LevelIsRoom(stored, found, requests, capacity, n);
    forall i: nat | i <= n
      ensures StaysWithin(found, requests, capacity, i, n) <==>
                Room(found, requests, capacity, i, n) >= requests[n].cost as real
    {
      WithinIsRoom(found, requests, capacity, i, n);
    }
  }

  lemma {:induction false} RefillPerMinute(capacity: nat, ms: int)
    ensures Refill(capacity, ms) == capacity as real * (ms as real / 60000.0)
  {
    assert ms as real / 1000.0 * (capacity as real / 60.0) == capacity as real * (ms as real / 60000.0);
  }

  // ---- coming back later -------------------------------------------------------------------------------------

  function RetryAfter(tokens: real, capacity: nat, cost: nat): int
    requires capacity > 0
  {
    Max(1, Ceil((cost as real - tokens) / Rate(capacity)))
  }

  lemma {:induction false} CeilBounds(x: real, n: int)
    ensures Ceil(x) <= n <==> x <= n as real
  {
  }

  lemma {:induction false} Scaled(a: real, b: real, rate: real)
    requires rate > 0.0
    ensures a <= b <==> a * rate <= b * rate
  {
    if a <= b {
      Product(b - a, rate);
      assert (b - a) * rate == b * rate - a * rate;
    } else {
      Positive(a - b, rate);
      assert (a - b) * rate == a * rate - b * rate;
    }
  }

  lemma {:induction false} Quotient(x: real, rate: real, s: real)
    requires rate > 0.0
    ensures x / rate <= s <==> x <= s * rate
  {
    Scaled(x / rate, s, rate);
    assert x / rate * rate == x;
  }

  lemma {:induction false} Positive(a: real, b: real)
    requires a > 0.0 && b > 0.0
    ensures a * b > 0.0
  {
  }

  /** After a refusal, coming back undisturbed after a whole number of seconds succeeds exactly
      from the advertised one on, provided the bucket could ever hold that much. */
  lemma {:induction false} RetryAfterExact(found: Option<Level>, later: Option<Level>, capacity: nat, now: int,
                                           cost: nat, seconds: int)
    requires capacity > 0 && Sound(found, capacity) && (found.Some? ==> found.value.at <= now)
    requires !Admits(found, capacity, now, cost) && seconds >= 1
    requires MayFind(Some(Drawn(found, capacity, now, cost)), later, now + 1000 * seconds)
    ensures Admits(later, capacity, now + 1000 * seconds, cost) <==>
            cost <= capacity && seconds >= RetryAfter(Filled(found, capacity, now), capacity, cost)
  {
    FilledSound(found, capacity, now);
    var tokens := Filled(found, capacity, now);
    var left := Some(Drawn(found, capacity, now, cost));
    IdleDropUnseen(left, later, capacity, now + 1000 * seconds);
    FilledLater(tokens, capacity, now, seconds);
    var rate, need := Rate(capacity), cost as real - tokens;
    CeilBounds(need / rate, seconds);
    Quotient(need, rate, seconds as real);
  }

  lemma {:induction false} FilledLater(tokens: real, capacity: nat, now: int, seconds: int)
    ensures Filled(Some(Level(tokens, now)), capacity, now + 1000 * seconds)
         == Least(capacity as real, tokens + seconds as real * Rate(capacity))
  {
    assert now + 1000 * seconds - now == 1000 * seconds;
    assert (1000 * seconds) as real / 1000.0 == seconds as real;
  }

  /** A request that costs more than the limit is never admitted. */
  lemma {:induction false} TooExpensive(bucket: Option<Level>, capacity: nat, now: int, cost: nat)
    requires Sound(bucket, capacity) && (bucket.Some? ==> bucket.value.at <= now) && cost > capacity
    ensures !Admits(bucket, capacity, now, cost)
  {
    FilledSound(bucket, capacity, now);
  }

  // ---- the stored hash, rewritten on every call -----------------------------------------------------------------

  class Bucket {
    const capacity: nat
    var stored: Option<Level>

    constructor (capacity: nat)
      requires capacity > 0
      ensures this.capacity == capacity && stored == None
    {
      this.capacity := capacity;
      stored := None;
    }

    /** The script: every call stores the level and restarts the minute. */
    method Consume(now: int, cost: nat) returns (decision: Decision)
      requires capacity > 0 && Sound(stored, capacity) && (stored.Some? ==> stored.value.at <= now)
      modifies `stored
      ensures Sound(stored, capacity) && stored == Some(Drawn(old(stored), capacity, now, cost))
      ensures decision.allowed <==> Admits(old(stored), capacity, now, cost)
      ensures 0 <= decision.remaining <= capacity && decision.remaining as real
        <= stored.value.tokens < decision.remaining as real + 1.0
      ensures decision.retryAfter == if decision.allowed then 0 else RetryAfter(stored.value.tokens, capacity, cost)
    {
      FilledSound(stored, capacity, now);
      var tokens := if stored.Some? then stored.value.tokens else capacity as real;
      var at := if stored.Some? then stored.value.at else now;
      tokens := Least(capacity as real, tokens + Refill(capacity, now - at));
      var allowed := !(tokens < cost as real);
      if allowed {
        tokens := tokens - cost as real;
      }
      stored := Some(Level(tokens, now));
      var retryAfter := if allowed then 0 else RetryAfter(tokens, capacity, cost);
      decision := Decision(allowed, Max(0, tokens.Floor), retryAfter);
    }
  }
}
