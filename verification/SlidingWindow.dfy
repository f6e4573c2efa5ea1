/** The sliding window over sentence units, with its carried overlap. */
module SlidingWindow {
  import opened Common

  datatype Block = Block(text: string, page: Option<int>, tokens: nat)

  /** Tokens of units[i..j]. */
  function Sum(units: seq<Block>, i: nat, j: nat): nat
    requires i <= j <= |units|
  {
    if i == j then 0 else Sum(units, i, j - 1) + units[j - 1].tokens
  }

  function Tokens(blocks: seq<Block>): nat {
    Sum(blocks, 0, |blocks|)
  }

  lemma {:induction false} SumSplit(units: seq<Block>, i: nat, j: nat, k: nat)
    requires i <= j <= k <= |units|
    ensures Sum(units, i, k) == Sum(units, i, j) + Sum(units, j, k)
  {
    if j < k {
      SumSplit(units, i, j, k - 1);
    }
  }

  lemma {:induction false} SumShift(units: seq<Block>, start: nat, end: nat, i: nat, j: nat)
    requires start <= end <= |units| && i <= j <= end - start
    ensures Sum(units[start..end], i, j) == Sum(units, start + i, start + j)
  {
    if i < j {
      SumShift(units, start, end, i, j - 1);
    }
  }

  // ---- the carried overlap ------------------------------------------------------------------

  /** Where the carried tail of units[start..end] begins: the shortest tail of at least
      `overlap` tokens, but never more than the last half of the window. */
  ghost predicate IsTailStart(units: seq<Block>, start: nat, end: nat, overlap: nat, tail: nat)
    requires start <= end <= |units|
  {
    && start + (end - start) / 2 <= tail <= end
    && (tail < end ==> Sum(units, tail + 1, end) < overlap)
    && (tail == start + (end - start) / 2 || Sum(units, tail, end) >= overlap)
  }

  lemma {:induction false} TailStartUnique(units: seq<Block>, start: nat, end: nat, overlap: nat, t: nat, t': nat)
    requires start <= end <= |units|
    requires IsTailStart(units, start, end, overlap, t) && IsTailStart(units, start, end, overlap, t')
    ensures t == t'
  {
    if t < t' {
      SumSplit(units, t + 1, t', end);
    } else if t' < t {
      SumSplit(units, t' + 1, t, end);
    }
  }

  lemma {:induction false} TailStartShift(units: seq<Block>, start: nat, end: nat, overlap: nat, tail: nat)
    requires start <= end <= |units|
    requires IsTailStart(units[start..end], 0, end - start, overlap, tail)
    ensures IsTailStart(units, start, end, overlap, start + tail)
  {
    if start + tail < end {
      SumShift(units, start, end, tail + 1, end - start);
    }
    SumShift(units, start, end, tail, end - start);
  }

  method OverlapTail(window: seq<Block>, overlap: nat) returns (tail: seq<Block>)
    ensures |tail| <= |window| && tail == window[|window| - |tail|..]
    ensures IsTailStart(window, 0, |window|, overlap, |window| - |tail|)
  {
    tail := [];
    var tailTokens := 0;
    var k: nat := |window|;
    while k > |window| / 2 && tailTokens < overlap
      invariant |window| / 2 <= k <= |window|
      invariant tail == window[k..] && tailTokens == Sum(window, k, |window|)
      invariant k < |window| ==> Sum(window, k + 1, |window|) < overlap
    {
      SumSplit(window, k - 1, k, |window|);
      assert Sum(window, k - 1, k) == window[k - 1].tokens + Sum(window, k - 1, k - 1);
      k := k - 1;
      tail := [window[k]] + tail;
      tailTokens := tailTokens + window[k].tokens;
    }
  }

  // ---- the windows ----------------------------------------------------------------------------

  /** One window, as a slice of the unit list. */
  datatype Cut = Cut(start: nat, end: nat)

  /** Units before this one were already in an earlier window. */
  function Fresh(cuts: seq<Cut>, k: nat): nat
    requires k <= |cuts|
  {
    if k == 0 then 0 else cuts[k - 1].end
  }

  /** A window grown as far as it goes: the first fresh unit may use the hard cap, the rest
      aim for the target, and the next unit no longer fits. */
  ghost predicate IsGrown(units: seq<Block>, target: nat, max: nat, seen: nat, cut: Cut) {
    && cut.start <= seen < cut.end <= |units|
    && (cut.start < seen ==> Sum(units, cut.start, seen + 1) <= max)
    && (seen + 1 < cut.end ==> Sum(units, cut.start, cut.end) <= target)
    && (cut.end < |units| ==> Sum(units, cut.start, cut.end + 1) > target)
  }

  /** Where the next window starts: at the overlap tail when it can stand next to the
      incoming unit, else at that unit. */
  ghost predicate IsCarried(units: seq<Block>, overlap: nat, max: nat, cut: Cut, next: nat)
    requires cut.start <= cut.end < |units|
  {
    exists tail: nat :: tail <= cut.end && IsTailStart(units, cut.start, cut.end, overlap, tail)
      && next == if Sum(units, tail, cut.end + 1) <= max then tail else cut.end
  }

  /** A window list so far: every window is fully grown and starts where the one before it
      carries over to. */
  ghost predicate IsPartialCutting(units: seq<Block>, target: nat, overlap: nat, max: nat, cuts: seq<Cut>) {
    cuts == [] ||
    (var n := |cuts| - 1;
     && IsPartialCutting(units, target, overlap, max, cuts[..n])
     && IsGrown(units, target, max, Fresh(cuts, n), cuts[n])
     && (if n == 0 then cuts[n].start == 0
         else
           cuts[n - 1].start <= cuts[n - 1].end < |units|
           && IsCarried(units, overlap, max, cuts[n - 1], cuts[n].start)))
  }

  lemma {:induction false} CutAt(units: seq<Block>, target: nat, overlap: nat, max: nat, cuts: seq<Cut>, k: nat)
    requires IsPartialCutting(units, target, overlap, max, cuts) && k < |cuts|
    ensures IsGrown(units, target, max, Fresh(cuts, k), cuts[k])
    ensures k == 0 ==> cuts[k].start == 0
    ensures k > 0 ==>
      cuts[k - 1].start <= cuts[k - 1].end < |units|
      && IsCarried(units, overlap, max, cuts[k - 1], cuts[k].start)
  {
    if k < |cuts| - 1 {
      CutAt(units, target, overlap, max, cuts[..|cuts| - 1], k);
    }
  }

  /** The complete specification of the window list. */
  ghost predicate IsCutting(units: seq<Block>, target: nat, overlap: nat, max: nat, cuts: seq<Cut>) {
    IsPartialCutting(units, target, overlap, max, cuts) && Fresh(cuts, |cuts|) == |units|
  }

  function Slice(units: seq<Block>, cut: Cut): seq<Block> {
    if cut.start <= cut.end <= |units| then units[cut.start..cut.end] else []
  }

  function Slices(units: seq<Block>, cuts: seq<Cut>): seq<seq<Block>> {
    if cuts == [] then [] else Slices(units, cuts[..|cuts| - 1]) + [Slice(units, cuts[|cuts| - 1])]
  }

  /** A window still growing: everything IsGrown asks except that it is full. */
  ghost predicate IsGrowing(units: seq<Block>, target: nat, max: nat, seen: nat, start: nat, index: nat) {
    && start <= seen < index <= |units|
    && (start < seen ==> Sum(units, start, seen + 1) <= max)
    && (seen + 1 < index ==> Sum(units, start, index) <= target)
  }

  /** The windows closed so far, and where the open one may start. */
  ghost predicate IsClosed(units: seq<Block>, target: nat, overlap: nat, max: nat, cuts: seq<Cut>, seen: nat,
                           start: nat) {
    && IsPartialCutting(units, target, overlap, max, cuts)
    && seen == Fresh(cuts, |cuts|)
    && (cuts == [] ==> start == 0)
    && (cuts != [] ==> cuts[|cuts| - 1].start <= cuts[|cuts| - 1].end < |units|
                       && IsCarried(units, overlap, max, cuts[|cuts| - 1], start))
  }

  /** The overlap carried past a closed window, dropped when it cannot stand next to the
      incoming unit. */
  method CarryOver(window: seq<Block>, unit: Block, overlap: nat, max: nat, ghost units: seq<Block>, ghost cut: Cut)
    returns (tail: seq<Block>, tailTokens: nat, ghost next: nat)
    requires cut.start <= cut.end < |units| && window == units[cut.start..cut.end] && unit == units[cut.end]
    ensures cut.start <= next <= cut.end && tail == units[next..cut.end] && tailTokens == Sum(units, next, cut.end)
    ensures tail != [] ==> tailTokens + unit.tokens <= max
    ensures IsCarried(units, overlap, max, cut, next)
  {
    tail := OverlapTail(window, overlap);
    tailTokens := SumTokens(tail);
    next := cut.end - |tail|;
    TailShifts(units, cut, window, overlap, |window| - |tail|, tail);
    if tailTokens + unit.tokens > max {
      tail, tailTokens, next := [], 0, cut.end;
    }
  }

  lemma {:induction false} TailShifts(units: seq<Block>, cut: Cut, window: seq<Block>, overlap: nat, k: nat,
                                      tail: seq<Block>)
    requires cut.start <= cut.end <= |units| && window == units[cut.start..cut.end]
    requires k <= |window| && tail == window[k..] && IsTailStart(window, 0, |window|, overlap, k)
    ensures IsTailStart(units, cut.start, cut.end, overlap, cut.start + k)
    ensures tail == units[cut.start + k..cut.end] && Tokens(tail) == Sum(units, cut.start + k, cut.end)
  {
    TailStartShift(units, cut.start, cut.end, overlap, k);
    assert tail == units[cut.start + k..cut.end];
    SumShift(units, cut.start + k, cut.end, 0, |tail|);
  }

  /** A window that the incoming unit no longer fits is closed, and its overlap carried over. */
  method CloseWindow(window: seq<Block>, unit: Block, target: nat, overlap: nat, max: nat,
                     ghost units: seq<Block>, ghost cuts: seq<Cut>, ghost seen: nat, ghost cut: Cut)
    returns (tail: seq<Block>, tailTokens: nat, ghost next: nat)
    requires cut.start <= cut.end < |units| && window == units[cut.start..cut.end] && unit == units[cut.end]
    requires IsClosed(units, target, overlap, max, cuts, seen, cut.start)
      && IsGrowing(units, target, max, seen, cut.start, cut.end)
    requires Sum(units, cut.start, cut.end) + unit.tokens > target
    ensures next <= cut.end && tail == units[next..cut.end] && tailTokens == Sum(units, next, cut.end)
    ensures tail != [] ==> tailTokens + unit.tokens <= max
    ensures IsClosed(units, target, overlap, max, cuts + [cut], cut.end, next)
    ensures Slices(units, cuts + [cut]) == Slices(units, cuts) + [window]
  {
    Closes(units, target, overlap, max, cuts, seen, cut);
    tail, tailTokens, next := CarryOver(window, unit, overlap, max, units, cut);
  }

  lemma {:induction false} Extended(units: seq<Block>, start: nat, index: nat)
    requires start <= index < |units|
    ensures units[start..index + 1] == units[start..index] + [units[index]]
    ensures Sum(units, start, index + 1) == Sum(units, start, index) + units[index].tokens
  {
  }

  ghost predicate AreWindows(units: seq<Block>, target: nat, overlap: nat, max: nat, windows: seq<seq<Block>>) {
    exists cuts :: IsCutting(units, target, overlap, max, cuts) && windows == Slices(units, cuts)
  }

  /** Greedy sliding window.  Closing a window consumes no unit, so progress needs the second
      measure: a carried tail always accepts the unit it was cut for. */
  method Windows(units: seq<Block>, target: nat, overlap: nat, max: nat) returns (windows: seq<seq<Block>>)
    ensures AreWindows(units, target, overlap, max, windows)
  {
    windows := [];
    ghost var cuts: seq<Cut> := [];
    var window: seq<Block> := [];
    var windowTokens := 0;
    var tailOnly := false;
    var index: nat := 0;
    ghost var start: nat, seen: nat := 0, 0;
    while index < |units|
      invariant start <= index <= |units|
      invariant window == units[start..index] && windowTokens == Sum(units, start, index)
      invariant IsClosed(units, target, overlap, max, cuts, seen, start) && windows == Slices(units, cuts)
      invariant window == [] || tailOnly ==> index == seen && (index < |units| || units == [])
      invariant tailOnly ==> window != [] && windowTokens + units[index].tokens <= max
      invariant window != [] && !tailOnly ==> IsGrowing(units, target, max, seen, start, index)
      decreases |units| - index, if window != [] && !tailOnly then 1 else 0
    {
      var unit := units[index];
      Extended(units, start, index);
      if window == [] {
        window := [unit];
        windowTokens := unit.tokens;
        tailOnly := false;
        index := index + 1;
        continue;
      }
      var allowed := if tailOnly then max else target;
      if windowTokens + unit.tokens <= allowed {
        window := window + [unit];
        windowTokens := windowTokens + unit.tokens;
        tailOnly := false;
        index := index + 1;
        continue;
      }
      windows := windows + [window];
      ghost var closed := Cut(start, index);
      window, windowTokens, start := CloseWindow(window, unit, target, overlap, max, units, cuts, seen, closed);
      cuts, seen := cuts + [closed], index;
      tailOnly := window != [];
    }
    if window != [] {
      windows := windows + [window];
      Finishes(units, target, overlap, max, cuts, seen, Cut(start, index), windows);
    } else {
      assert IsCutting(units, target, overlap, max, cuts);
    }
  }

  lemma {:induction false} Finishes(units: seq<Block>, target: nat, overlap: nat, max: nat, cuts: seq<Cut>, seen: nat,
                                    cut: Cut,
                                    windows: seq<seq<Block>>)
    requires IsClosed(units, target, overlap, max, cuts, seen, cut.start) && cut.start <= cut.end == |units|
    requires IsGrowing(units, target, max, seen, cut.start, cut.end)
    requires windows == Slices(units, cuts) + [units[cut.start..cut.end]]
    ensures AreWindows(units, target, overlap, max, windows)
  {
    Closes(units, target, overlap, max, cuts, seen, cut);
    assert IsCutting(units, target, overlap, max, cuts + [cut]);
  }

  lemma {:induction false} Closes(units: seq<Block>, target: nat, overlap: nat, max: nat, cuts: seq<Cut>, seen: nat,
                                  cut: Cut)
    requires IsClosed(units, target, overlap, max, cuts, seen, cut.start) && cut.start <= cut.end <= |units|
    requires IsGrowing(units, target, max, seen, cut.start, cut.end)
    requires cut.end < |units| ==> Sum(units, cut.start, cut.end) + units[cut.end].tokens > target
    ensures IsPartialCutting(units, target, overlap, max, cuts + [cut])
    ensures Slices(units, cuts + [cut]) == Slices(units, cuts) + [units[cut.start..cut.end]]
  {
    assert (cuts + [cut])[..|cuts|] == cuts;
    assert IsGrown(units, target, max, seen, cut);
  }

  method SumTokens(blocks: seq<Block>) returns (n: nat)
    ensures n == Tokens(blocks)
  {
    n := 0;
    for i := 0 to |blocks|
      invariant n == Sum(blocks, 0, i)
    {
      n := n + blocks[i].tokens;
    }
  }

  // ---- what the specification means -----------------------------------------------------------

  /** There is only one such window list. */
  lemma {:induction false} CuttingUnique(units: seq<Block>, target: nat, overlap: nat, max: nat, a: seq<Cut>,
                                         b: seq<Cut>)
    requires IsCutting(units, target, overlap, max, a) && IsCutting(units, target, overlap, max, b)
    ensures a == b
  {
    NoLonger(units, target, overlap, max, a, b);
    NoLonger(units, target, overlap, max, b, a);
    forall k | 0 <= k < |a| ensures a[k] == b[k] {
      SameAt(units, target, overlap, max, a, b, k);
    }
  }

  lemma {:induction false} SameAt(units: seq<Block>, target: nat, overlap: nat, max: nat, a: seq<Cut>, b: seq<Cut>,
                                  k: nat)
    requires IsPartialCutting(units, target, overlap, max, a) && IsPartialCutting(units, target, overlap, max, b)
    requires k < |a| && k < |b|
    ensures a[k] == b[k]
  {
    CutAt(units, target, overlap, max, a, k);
    CutAt(units, target, overlap, max, b, k);
    if k > 0 {
      SameAt(units, target, overlap, max, a, b, k - 1);
      CarriedUnique(units, overlap, max, a[k - 1], a[k].start, b[k].start);
    }
    GrownUnique(units, target, max, Fresh(a, k), a[k], b[k]);
  }

  /** The shorter of two would have ended with units left. */
  lemma {:induction false} NoLonger(units: seq<Block>, target: nat, overlap: nat, max: nat, a: seq<Cut>, b: seq<Cut>)
    requires IsCutting(units, target, overlap, max, a) && IsCutting(units, target, overlap, max, b)
    ensures |b| <= |a|
  {
    if |a| < |b| {
      CutAt(units, target, overlap, max, b, |a|);
      if a != [] {
        SameAt(units, target, overlap, max, a, b, |a| - 1);
      }
    }
  }

  lemma {:induction false} CarriedUnique(units: seq<Block>, overlap: nat, max: nat, cut: Cut, n: nat, n': nat)
    requires cut.start <= cut.end < |units|
    requires IsCarried(units, overlap, max, cut, n) && IsCarried(units, overlap, max, cut, n')
    ensures n == n'
  {
    var t: nat :| t <= cut.end && IsTailStart(units, cut.start, cut.end, overlap, t)
      && n == if Sum(units, t, cut.end + 1) <= max then t else cut.end;
    var t': nat :| t' <= cut.end && IsTailStart(units, cut.start, cut.end, overlap, t')
      && n' == if Sum(units, t', cut.end + 1) <= max then t' else cut.end;
    TailStartUnique(units, cut.start, cut.end, overlap, t, t');
  }

  lemma {:induction false} GrownUnique(units: seq<Block>, target: nat, max: nat, seen: nat, a: Cut, b: Cut)
    requires IsGrown(units, target, max, seen, a) && IsGrown(units, target, max, seen, b) && a.start == b.start
    ensures a == b
  {
    if a.end < b.end {
      SumSplit(units, a.start, a.end + 1, b.end);
    } else if b.end < a.end {
      SumSplit(units, a.start, b.end + 1, a.end);
    }
  }

  /** Windows are contiguous and in order, their ends strictly increase (so each holds a unit
      no earlier window had), and each starts inside or right after the one before it. */
  lemma {:induction false} WindowsAdvance(units: seq<Block>, target: nat, overlap: nat, max: nat, cuts: seq<Cut>,
                                          k: nat)
    requires IsCutting(units, target, overlap, max, cuts) && k + 1 < |cuts|
    ensures cuts[k].start <= cuts[k + 1].start <= cuts[k].end < cuts[k + 1].end
    ensures cuts[k].end - cuts[k + 1].start <= (cuts[k].end - cuts[k].start + 1) / 2
  {
    CutAt(units, target, overlap, max, cuts, k);
    CutAt(units, target, overlap, max, cuts, k + 1);
    var tail: nat :| tail <= cuts[k].end && IsTailStart(units, cuts[k].start, cuts[k].end, overlap, tail)
      && cuts[k + 1].start == if Sum(units, tail, cuts[k].end + 1) <= max then tail else cuts[k].end;
  }

  /** The fresh part of each window, glued together. */
  function FreshUnits(units: seq<Block>, cuts: seq<Cut>, k: nat): seq<Block>
    requires k <= |cuts|
  {
    if k == 0 then []
    else FreshUnits(units, cuts, k - 1) + Slice(units, Cut(Fresh(cuts, k - 1), cuts[k - 1].end))
  }

  /** A window is contained in the next one exactly when it is a single unit that is carried
      over whole and can stand next to the incoming unit. */
  lemma {:induction false} ContainedIff(units: seq<Block>, target: nat, overlap: nat, max: nat, cuts: seq<Cut>, k: nat)
    requires IsCutting(units, target, overlap, max, cuts) && k + 1 < |cuts|
    ensures var cut := cuts[k];
            cuts[k + 1].start <= cut.start <= cut.end <= cuts[k + 1].end <==>
              cut.end == cut.start + 1 <= |units| - 1 && overlap > 0 && Sum(units, cut.start, cut.end + 1) <= max
  {
    CutAt(units, target, overlap, max, cuts, k);
    CutAt(units, target, overlap, max, cuts, k + 1);
    var cut, next := cuts[k], cuts[k + 1];
    var tail: nat :| tail <= cut.end && IsTailStart(units, cut.start, cut.end, overlap, tail)
                     && next.start == if Sum(units, tail, cut.end + 1) <= max then tail else cut.end;
    assert Sum(units, cut.end, cut.end) == 0;
  }

  /** It happens: a unit between the target and half the cap becomes a window of its own and the
      start of the next. */
  lemma {:induction false} WindowCanRepeat(a: Block, b: Block, target: nat, overlap: nat, max: nat)
    requires a.tokens + b.tokens > target && a.tokens + b.tokens <= max && overlap > 0
    ensures IsCutting([a, b], target, overlap, max, [Cut(0, 1), Cut(0, 2)])
  {
    var units, cuts := [a, b], [Cut(0, 1), Cut(0, 2)];
    assert Sum(units, 0, 1) == a.tokens && Sum(units, 0, 2) == a.tokens + b.tokens && Sum(units, 1, 1) == 0;
    assert cuts[..1] == [Cut(0, 1)] && cuts[..1][..0] == [];
    assert IsTailStart(units, 0, 1, overlap, 0) && IsCarried(units, overlap, max, Cut(0, 1), 0);
    assert IsGrown(units, target, max, 0, Cut(0, 1)) && IsGrown(units, target, max, 1, Cut(0, 2));
    assert IsPartialCutting(units, target, overlap, max, cuts[..1]);
  }

  /** Dropping the carried tails rebuilds the unit list exactly: nothing lost, nothing twice. */
  lemma {:induction false} FreshUnitsRebuild(units: seq<Block>, target: nat, overlap: nat, max: nat, cuts: seq<Cut>)
    requires IsCutting(units, target, overlap, max, cuts)
    ensures FreshUnits(units, cuts, |cuts|) == units
  {
    FreshUnitsSoFar(units, target, overlap, max, cuts, |cuts|);
  }

  lemma {:induction false} FreshUnitsSoFar(units: seq<Block>, target: nat, overlap: nat, max: nat, cuts: seq<Cut>,
                                           k: nat)
    requires IsPartialCutting(units, target, overlap, max, cuts) && k <= |cuts|
    ensures Fresh(cuts, k) <= |units| && FreshUnits(units, cuts, k) == units[..Fresh(cuts, k)]
  {
    if k > 0 {
      FreshUnitsSoFar(units, target, overlap, max, cuts, k - 1);
      CutAt(units, target, overlap, max, cuts, k - 1);
      GrownExtends(units, target, max, Fresh(cuts, k - 1), cuts[k - 1]);
    }
  }

  lemma {:induction false} GrownExtends(units: seq<Block>, target: nat, max: nat, seen: nat, cut: Cut)
    requires IsGrown(units, target, max, seen, cut)
    ensures seen < cut.end <= |units| && units[..seen] + Slice(units, Cut(seen, cut.end)) == units[..cut.end]
  {
  }

  /** No window exceeds the hard cap when no single unit does. */
  lemma {:induction false} WindowsFit(units: seq<Block>, target: nat, overlap: nat, max: nat, cuts: seq<Cut>, k: nat)
    requires IsCutting(units, target, overlap, max, cuts) && k < |cuts|
    requires target <= max && forall i :: 0 <= i < |units| ==> units[i].tokens <= max
    ensures Tokens(Slice(units, cuts[k])) <= max
  {
    CutAt(units, target, overlap, max, cuts, k);
    GrownFits(units, target, max, Fresh(cuts, k), cuts[k]);
  }

  lemma {:induction false} GrownFits(units: seq<Block>, target: nat, max: nat, seen: nat, cut: Cut)
    requires IsGrown(units, target, max, seen, cut)
    requires target <= max && forall i :: 0 <= i < |units| ==> units[i].tokens <= max
    ensures Tokens(Slice(units, cut)) <= max
  {
    SumShift(units, cut.start, cut.end, 0, cut.end - cut.start);
    if cut.end == seen + 1 && cut.start == seen {
      assert Sum(units, cut.start, cut.end) == Sum(units, cut.start, cut.start) + units[cut.start].tokens;
    }
  }
}
