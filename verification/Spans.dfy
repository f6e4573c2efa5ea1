/**
 Merging the spans found in one passage, and how far each merged span can be trusted.
 */
module Spans {
  import opened Common

  datatype Span = Span(start: nat, end: nat)

  // ---- the order of Python's tuples ---------------------------------------------------------------------

  predicate Before(a: Span, b: Span) {
    a.start < b.start || (a.start == b.start && a.end <= b.end)
  }

  predicate IsSorted(spans: seq<Span>) {
    forall i, j :: 0 <= i < j < |spans| ==> Before(spans[i], spans[j])
  }

  function Insert(spans: seq<Span>, x: Span): seq<Span> {
    if spans == [] || Before(x, spans[0]) then [x] + spans else [spans[0]] + Insert(spans[1..], x)
  }

  function Sorted(spans: seq<Span>): seq<Span> {
    if spans == [] then [] else Insert(Sorted(spans[..|spans| - 1]), spans[|spans| - 1])
  }

  lemma {:induction false} InsertAdds(spans: seq<Span>, x: Span)
    ensures multiset(Insert(spans, x)) == multiset(spans) + multiset{x}
  {
    if spans != [] && !Before(x, spans[0]) {
      InsertAdds(spans[1..], x);
      assert spans == [spans[0]] + spans[1..];
    }
  }

  lemma {:induction false} InsertSorts(spans: seq<Span>, x: Span)
    requires IsSorted(spans)
    ensures IsSorted(Insert(spans, x))
  {
    if spans != [] && !Before(x, spans[0]) {
      var rest := Insert(spans[1..], x);
      InsertSorts(spans[1..], x);
      forall i | 0 <= i < |rest| ensures Before(spans[0], rest[i]) {
        InsertAdds(spans[1..], x);
        assert rest[i] in multiset(rest);
        assert rest[i] == x || rest[i] in spans[1..];
      }
    }
  }

  lemma {:induction false} SortedSorts(spans: seq<Span>)
    ensures IsSorted(Sorted(spans)) && multiset(Sorted(spans)) == multiset(spans)
  {
    if spans != [] {
      var before, x := spans[..|spans| - 1], spans[|spans| - 1];
      SortedSorts(before);
      InsertSorts(Sorted(before), x);
      InsertAdds(Sorted(before), x);
      assert spans == before + [x];
    }
  }

  // ---- merging ---------------------------------------------------------------------------------------------

  /** Does the span hold this position? */
  predicate Holds(s: Span, x: nat) {
    s.start <= x < s.end
  }

  predicate Within(a: Span, b: Span) {
    b.start <= a.start && a.end <= b.end
  }

  /** In order, and more than one position apart. */
  ghost predicate Separate(merged: seq<Span>) {
    && (forall i :: 0 <= i < |merged| ==> merged[i].start <= merged[i].end)
    && (forall i, j :: 0 <= i < j < |merged| ==> merged[i].end + 1 < merged[j].start)
  }

  ghost predicate Inside(s: Span, merged: seq<Span>) {
    exists k :: 0 <= k < |merged| && Within(s, merged[k])
  }

  ghost predicate Covers(merged: seq<Span>, spans: seq<Span>) {
    forall i {:trigger Inside(spans[i], merged)} :: 0 <= i < |spans| ==> Inside(spans[i], merged)
  }

  ghost predicate HeldBy(spans: seq<Span>, x: nat) {
    exists i :: 0 <= i < |spans| && Holds(spans[i], x)
  }

  ghost predicate EndsAt(spans: seq<Span>, x: nat) {
    exists i :: 0 <= i < |spans| && spans[i].end == x
  }

  ghost predicate BeginsAt(spans: seq<Span>, x: nat) {
    exists i :: 0 <= i < |spans| && spans[i].start == x
  }

  /** A position is justified by a span that holds it, or by being the one position between
      the end of a span and the start of another. */
  ghost predicate Justified(spans: seq<Span>, x: nat) {
    HeldBy(spans, x) || (EndsAt(spans, x) && BeginsAt(spans, x + 1))
  }

  ghost predicate Sound(merged: seq<Span>, spans: seq<Span>) {
    forall k, x: nat {:trigger Holds(merged[k], x)} :: 0 <= k < |merged| && Holds(merged[k], x) ==> Justified(spans, x)
  }

  ghost predicate HasStart(spans: seq<Span>, m: Span) {
    exists i :: 0 <= i < |spans| && spans[i].start == m.start && Within(spans[i], m)
  }

  ghost predicate HasEnd(spans: seq<Span>, m: Span) {
    exists i :: 0 <= i < |spans| && spans[i].end == m.end && Within(spans[i], m)
  }

  /** Both ends of a merged span are ends of spans. */
  ghost predicate Anchored(merged: seq<Span>, spans: seq<Span>) {
    forall k {:trigger HasStart(spans, merged[k])} {:trigger HasEnd(spans, merged[k])} ::
      0 <= k < |merged| ==> HasStart(spans, merged[k]) && HasEnd(spans, merged[k])
  }

  ghost predicate IsMerge(merged: seq<Span>, spans: seq<Span>) {
    Separate(merged) && Covers(merged, spans) && Sound(merged, spans) && Anchored(merged, spans)
  }

  ghost predicate Proper(spans: seq<Span>) {
    forall i :: 0 <= i < |spans| ==> spans[i].start <= spans[i].end
  }

  /** One span after the spans so far, which starts no earlier than any of them. */
  function Absorb(merged: seq<Span>, s: Span): seq<Span> {
    if merged != [] && s.start <= merged[|merged| - 1].end + 1 then
      merged[|merged| - 1 := Span(merged[|merged| - 1].start, Max(merged[|merged| - 1].end, s.end))]
    else merged + [s]
  }

  ghost predicate StartsBefore(merged: seq<Span>, start: nat) {
    forall k :: 0 <= k < |merged| ==> merged[k].start <= start
  }

  lemma {:induction false} AbsorbSeparates(merged: seq<Span>, s: Span)
    requires Separate(merged) && StartsBefore(merged, s.start) && s.start <= s.end
    ensures Separate(Absorb(merged, s)) && StartsBefore(Absorb(merged, s), s.start)
  {
    if merged != [] {
      var last := merged[|merged| - 1];
      assert forall i :: 0 <= i < |merged| - 1 ==> merged[i].end + 1 < last.start;
    }
  }

  lemma {:induction false} AbsorbCovers(merged: seq<Span>, spans: seq<Span>, s: Span)
    requires Covers(merged, spans) && StartsBefore(merged, s.start)
    ensures Covers(Absorb(merged, s), spans + [s])
  {
    var merged', spans' := Absorb(merged, s), spans + [s];
    forall i | 0 <= i < |spans'| ensures Inside(spans'[i], merged') {
      if i < |spans| {
        assert Inside(spans[i], merged);
        var k :| 0 <= k < |merged| && Within(spans[i], merged[k]);
        assert Within(spans'[i], merged'[k]);
      } else {
        assert Within(s, merged'[|merged'| - 1]);
      }
    }
  }

  lemma {:induction false} JustifiedStays(spans: seq<Span>, spans': seq<Span>, s: Span, x: nat)
    requires spans' == spans + [s] && Justified(spans, x)
    ensures Justified(spans', x)
  {
    if HeldBy(spans, x) {
      var i :| 0 <= i < |spans| && Holds(spans[i], x);
      assert Holds(spans'[i], x);
    } else {
      var i :| 0 <= i < |spans| && spans[i].end == x;
      var j :| 0 <= j < |spans| && spans[j].start == x + 1;
      assert spans'[i].end == x && spans'[j].start == x + 1;
    }
  }

  lemma {:induction false} AbsorbSounds(merged: seq<Span>, spans: seq<Span>, s: Span)
    requires Sound(merged, spans) && Anchored(merged, spans)
    ensures Sound(Absorb(merged, s), spans + [s])
  {
    var merged', spans' := Absorb(merged, s), spans + [s];
    assert spans'[|spans|] == s;
    forall k, x: nat | 0 <= k < |merged'| && Holds(merged'[k], x) ensures Justified(spans', x) {
      if Holds(s, x) {
        assert Holds(spans'[|spans|], x);
      } else if k < |merged| && Holds(merged[k], x) {
        JustifiedStays(spans, spans', s, x);
      } else {
        assert HasEnd(spans, merged[k]);
        var i :| 0 <= i < |spans| && spans[i].end == merged[k].end && Within(spans[i], merged[k]);
        assert spans'[i].end == x && spans'[|spans|].start == x + 1;
      }
    }
  }

  lemma {:induction false} AnchorsStay(spans: seq<Span>, s: Span, m: Span, m': Span)
    requires HasStart(spans, m) && HasEnd(spans, m) && m'.start == m.start && m.end <= m'.end
    ensures HasStart(spans + [s], m') && (m'.end == m.end ==> HasEnd(spans + [s], m'))
  {
    var spans' := spans + [s];
    var i :| 0 <= i < |spans| && spans[i].start == m.start && Within(spans[i], m);
    assert spans'[i].start == m'.start && Within(spans'[i], m');
    var j :| 0 <= j < |spans| && spans[j].end == m.end && Within(spans[j], m);
    assert spans'[j] == spans[j] && Within(spans'[j], m');
  }

  lemma {:induction false} AbsorbAnchors(merged: seq<Span>, spans: seq<Span>, s: Span)
    requires Anchored(merged, spans) && StartsBefore(merged, s.start)
    ensures Anchored(Absorb(merged, s), spans + [s])
  {
    var merged', spans' := Absorb(merged, s), spans + [s];
    assert spans'[|spans|] == s;
    forall k | 0 <= k < |merged'| ensures HasStart(spans', merged'[k]) && HasEnd(spans', merged'[k]) {
      if k < |merged| {
        AnchorsStay(spans, s, merged[k], merged'[k]);
        assert merged'[k].end != merged[k].end ==>
          spans'[|spans|].end == merged'[k].end
          && Within(spans'[|spans|], merged'[k]);
      } else {
        assert Within(spans'[|spans|], merged'[k]);
      }
    }
  }

  lemma {:induction false} Elsewhere(a: seq<Span>, b: seq<Span>, i: nat) returns (j: nat)
    requires multiset(a) == multiset(b) && i < |a|
    ensures j < |b| && b[j] == a[i]
  {
    assert a[i] in multiset(a) && a[i] in multiset(b);
    assert a[i] in b;
    j :| j < |b| && b[j] == a[i];
  }

  lemma {:induction false} JustifiedElsewhere(a: seq<Span>, b: seq<Span>, x: nat)
    requires multiset(a) == multiset(b) && Justified(a, x)
    ensures Justified(b, x)
  {
    if HeldBy(a, x) {
      var i :| 0 <= i < |a| && Holds(a[i], x);
      var i' := Elsewhere(a, b, i);
      assert Holds(b[i'], x);
    } else {
      var i :| 0 <= i < |a| && a[i].end == x;
      var j :| 0 <= j < |a| && a[j].start == x + 1;
      var i' := Elsewhere(a, b, i);
      var j' := Elsewhere(a, b, j);
      assert b[i'].end == x && b[j'].start == x + 1;
    }
  }

  lemma {:induction false} AnchorsElsewhere(a: seq<Span>, b: seq<Span>, m: Span)
    requires multiset(a) == multiset(b) && HasStart(a, m) && HasEnd(a, m)
    ensures HasStart(b, m) && HasEnd(b, m)
  {
    var i :| 0 <= i < |a| && a[i].start == m.start && Within(a[i], m);
    var j :| 0 <= j < |a| && a[j].end == m.end && Within(a[j], m);
    var i' := Elsewhere(a, b, i);
    var j' := Elsewhere(a, b, j);
    assert Within(b[i'], m) && Within(b[j'], m);
  }

  lemma {:induction false} CoversElsewhere(merged: seq<Span>, ordered: seq<Span>, spans: seq<Span>)
    requires Covers(merged, ordered) && multiset(ordered) == multiset(spans)
    ensures Covers(merged, spans)
  {
    forall i | 0 <= i < |spans| ensures Inside(spans[i], merged) {
      var j := Elsewhere(spans, ordered, i);
      assert Inside(ordered[j], merged);
    }
  }

  lemma {:induction false} SoundElsewhere(merged: seq<Span>, ordered: seq<Span>, spans: seq<Span>)
    requires Sound(merged, ordered) && multiset(ordered) == multiset(spans)
    ensures Sound(merged, spans)
  {
    forall k, x: nat | 0 <= k < |merged| && Holds(merged[k], x) ensures Justified(spans, x) {
      JustifiedElsewhere(ordered, spans, x);
    }
  }

  lemma {:induction false} AnchoredElsewhere(merged: seq<Span>, ordered: seq<Span>, spans: seq<Span>)
    requires Anchored(merged, ordered) && multiset(ordered) == multiset(spans)
    ensures Anchored(merged, spans)
  {
    forall k | 0 <= k < |merged| ensures HasStart(spans, merged[k]) && HasEnd(spans, merged[k]) {
      AnchorsElsewhere(ordered, spans, merged[k]);
    }
  }

  /** The first n spans, one after the other. */
  function Absorbed(ordered: seq<Span>, n: nat): seq<Span>
    requires n <= |ordered|
  {
    if n == 0 then [] else Absorb(Absorbed(ordered, n - 1), ordered[n - 1])
  }

  lemma {:induction false} AbsorbedSeparates(ordered: seq<Span>, n: nat)
    requires n <= |ordered| && IsSorted(ordered) && Proper(ordered)
    ensures Separate(Absorbed(ordered, n))
    ensures n > 0 ==> StartsBefore(Absorbed(ordered, n), ordered[n - 1].start)
  {
    if n > 0 {
      AbsorbedSeparates(ordered, n - 1);
      var merged, s := Absorbed(ordered, n - 1), ordered[n - 1];
      if n > 1 {
        assert Before(ordered[n - 2], s);
        StartsLater(merged, ordered[n - 2].start, s.start);
      }
      AbsorbSeparates(merged, s);
    }
  }

  lemma {:induction false} StartsLater(merged: seq<Span>, start: nat, start': nat)
    requires StartsBefore(merged, start) && start <= start'
    ensures StartsBefore(merged, start')
  {
  }

  lemma {:induction false} AbsorbedStarts(ordered: seq<Span>, n: nat)
    requires n < |ordered| && IsSorted(ordered) && Proper(ordered)
    ensures StartsBefore(Absorbed(ordered, n), ordered[n].start)
  {
    AbsorbedSeparates(ordered, n);
    if n > 0 {
      assert Before(ordered[n - 1], ordered[n]);
      StartsLater(Absorbed(ordered, n), ordered[n - 1].start, ordered[n].start);
    }
  }

  lemma {:induction false} AbsorbedCovers(ordered: seq<Span>, n: nat)
    requires n <= |ordered| && IsSorted(ordered) && Proper(ordered)
    ensures Covers(Absorbed(ordered, n), ordered[..n])
  {
    if n > 0 {
      AbsorbedCovers(ordered, n - 1);
      AbsorbedStarts(ordered, n - 1);
      AbsorbCovers(Absorbed(ordered, n - 1), ordered[..n - 1], ordered[n - 1]);
      assert ordered[..n] == ordered[..n - 1] + [ordered[n - 1]];
    }
  }

  lemma {:induction false} AbsorbedAnchors(ordered: seq<Span>, n: nat)
    requires n <= |ordered| && IsSorted(ordered) && Proper(ordered)
    ensures Anchored(Absorbed(ordered, n), ordered[..n])
  {
    if n > 0 {
      AbsorbedAnchors(ordered, n - 1);
      AbsorbedStarts(ordered, n - 1);
      AbsorbAnchors(Absorbed(ordered, n - 1), ordered[..n - 1], ordered[n - 1]);
      assert ordered[..n] == ordered[..n - 1] + [ordered[n - 1]];
    }
  }

  lemma {:induction false} AbsorbedSounds(ordered: seq<Span>, n: nat)
    requires n <= |ordered| && IsSorted(ordered) && Proper(ordered)
    ensures Sound(Absorbed(ordered, n), ordered[..n])
  {
    if n > 0 {
      AbsorbedSounds(ordered, n - 1);
      AbsorbedAnchors(ordered, n - 1);
      AbsorbSounds(Absorbed(ordered, n - 1), ordered[..n - 1], ordered[n - 1]);
      assert ordered[..n] == ordered[..n - 1] + [ordered[n - 1]];
    }
  }

  function Merged(spans: seq<Span>): seq<Span> {
    Absorbed(Sorted(spans), |Sorted(spans)|)
  }

  lemma {:induction false} SortedIsProper(spans: seq<Span>)
    requires Proper(spans)
    ensures var ordered := Sorted(spans);
            && IsSorted(ordered) && Proper(ordered) && multiset(ordered) == multiset(spans)
            && ordered[..|ordered|] == ordered
  {
    SortedSorts(spans);
    ProperElsewhere(spans, Sorted(spans));
  }

  lemma {:induction false} MergedSeparates(spans: seq<Span>)
    requires Proper(spans)
    ensures Separate(Merged(spans))
  {
    SortedIsProper(spans);
    AbsorbedSeparates(Sorted(spans), |Sorted(spans)|);
  }

  lemma {:induction false} MergedCovers(spans: seq<Span>)
    requires Proper(spans)
    ensures Covers(Merged(spans), spans)
  {
    SortedIsProper(spans);
    var ordered := Sorted(spans);
    AbsorbedCovers(ordered, |ordered|);
    CoversElsewhere(Merged(spans), ordered, spans);
  }

  lemma {:induction false} MergedSounds(spans: seq<Span>)
    requires Proper(spans)
    ensures Sound(Merged(spans), spans)
  {
    SortedIsProper(spans);
    var ordered := Sorted(spans);
    AbsorbedSounds(ordered, |ordered|);
    SoundElsewhere(Merged(spans), ordered, spans);
  }

  lemma {:induction false} MergedAnchors(spans: seq<Span>)
    requires Proper(spans)
    ensures Anchored(Merged(spans), spans)
  {
    SortedIsProper(spans);
    var ordered := Sorted(spans);
    AbsorbedAnchors(ordered, |ordered|);
    AnchoredElsewhere(Merged(spans), ordered, spans);
  }

  /** The merge of any spans: apart by more than one position, covering every span, and made of
      nothing but the spans and single positions between two of them. */
  lemma {:induction false} MergedIsMerge(spans: seq<Span>)
    requires Proper(spans)
    ensures IsMerge(Merged(spans), spans)
  {
    MergedSeparates(spans);
    MergedCovers(spans);
    MergedSounds(spans);
    MergedAnchors(spans);
  }

  method Merge(spans: seq<Span>) returns (merged: seq<Span>)
    requires Proper(spans)
    ensures merged == Merged(spans) && IsMerge(merged, spans)
  {
    merged := [];
    var ordered := Sorted(spans);
    for i := 0 to |ordered|
      invariant merged == Absorbed(ordered, i)
    {
      var s := ordered[i];
      if merged != [] && s.start <= merged[|merged| - 1].end + 1 {
        var last := merged[|merged| - 1];
        merged := merged[|merged| - 1 := Span(last.start, Max(last.end, s.end))];
      } else {
        merged := merged + [s];
      }
    }
    MergedIsMerge(spans);
  }

  lemma {:induction false} ProperElsewhere(a: seq<Span>, b: seq<Span>)
    requires Proper(a) && multiset(a) == multiset(b)
    ensures Proper(b)
  {
    forall j | 0 <= j < |b| ensures b[j].start <= b[j].end {
      var i := Elsewhere(b, a, j);
    }
  }

  /** A merged span of one merge ends no later than the one of another that holds its first
      span: just past the latter's end nothing could justify a position. */
  lemma {:induction false} EndsWithin(a: seq<Span>, b: seq<Span>, spans: seq<Span>, k: nat, l: nat)
    requires Sound(a, spans) && Separate(b) && Covers(b, spans) && Proper(spans)
    requires k < |a| && l < |b| && a[k].start <= b[l].end
    ensures a[k].end <= b[l].end
  {
    var x := b[l].end;
    if x < a[k].end {
      assert Holds(a[k], x);
      assert Justified(spans, x);
      if HeldBy(spans, x) {
        var i :| 0 <= i < |spans| && Holds(spans[i], x);
        NothingAround(b, spans, l, i);
      } else {
        var j :| 0 <= j < |spans| && spans[j].start == x + 1;
        NothingAround(b, spans, l, j);
      }
    }
  }

  /** A span lies within a merged span or more than one position away from it. */
  lemma {:induction false} NothingAround(b: seq<Span>, spans: seq<Span>, l: nat, i: nat)
    requires Separate(b) && Covers(b, spans) && Proper(spans) && l < |b| && i < |spans|
    ensures Within(spans[i], b[l]) || spans[i].end + 1 < b[l].start || b[l].end + 1 < spans[i].start
  {
    assert Inside(spans[i], b);
    var m :| 0 <= m < |b| && Within(spans[i], b[m]);
    if m < l {
      assert b[m].end + 1 < b[l].start;
    } else if l < m {
      assert b[l].end + 1 < b[m].start;
    }
  }

  lemma {:induction false} StartsWithin(a: seq<Span>, b: seq<Span>, spans: seq<Span>, k: nat, l: nat)
    requires Separate(a) && Covers(a, spans) && Sound(b, spans) && Proper(spans)
    requires k < |a| && l < |b| && b[l].start <= a[k].start <= b[l].end
    ensures b[l].start == a[k].start
  {
    if b[l].start < a[k].start {
      var x := a[k].start - 1;
      assert Holds(b[l], x);
      assert Justified(spans, x);
      if HeldBy(spans, x) {
        var i :| 0 <= i < |spans| && Holds(spans[i], x);
        NothingAround(a, spans, k, i);
      } else {
        var i :| 0 <= i < |spans| && spans[i].end == x;
        NothingAround(a, spans, k, i);
      }
    }
  }

  lemma {:induction false} MergedElsewhere(a: seq<Span>, b: seq<Span>, spans: seq<Span>, k: nat)
    requires IsMerge(a, spans) && IsMerge(b, spans) && Proper(spans) && k < |a|
    ensures a[k] in b
  {
    var l := Meet(a, b, spans, k);
    assert Separate(a) && Separate(b);
    EndsWithin(a, b, spans, k, l);
    StartsWithin(a, b, spans, k, l);
    EndsWithin(b, a, spans, l, k);
    assert a[k] == b[l];
  }

  /** Separate spans are determined by which spans there are. */
  lemma {:induction false} SeparateEqual(a: seq<Span>, b: seq<Span>)
    requires Separate(a) && Separate(b) && (forall s :: s in a <==> s in b)
    ensures a == b
  {
    if b != [] {
      Inhabited(a, b);
    }
    if a != [] {
      Inhabited(b, a);
      assert a[0] in b && b[0] in a;
      forall s ensures s in a[1..] <==> s in b[1..] {
        Others(a, s);
        Others(b, s);
      }
      SeparateEqual(a[1..], b[1..]);
      assert a == [a[0]] + a[1..] && b == [b[0]] + b[1..];
    }
  }

  lemma {:induction false} Inhabited(a: seq<Span>, b: seq<Span>)
    requires b != [] && forall s :: s in b ==> s in a
    ensures a != []
  {
    assert b[0] in b;
  }

  lemma {:induction false} Others(a: seq<Span>, s: Span)
    requires Separate(a) && a != []
    ensures s in a[1..] <==> s in a && s != a[0]
  {
    if s in a[1..] {
      var i :| 0 <= i < |a| - 1 && a[1..][i] == s;
      assert a[0].end + 1 < a[i + 1].start;
    }
    if s in a && s != a[0] {
      var i :| 0 <= i < |a| && a[i] == s;
      assert a[1..][i - 1] == s;
    }
  }

  /** Only one merge fits the spans: separation, cover, soundness and anchoring say all. */
  lemma {:induction false} MergeUnique(a: seq<Span>, b: seq<Span>, spans: seq<Span>)
    requires IsMerge(a, spans) && IsMerge(b, spans) && Proper(spans)
    ensures a == b
  {
    forall s ensures s in a <==> s in b {
      if s in a {
        var k :| 0 <= k < |a| && a[k] == s;
        MergedElsewhere(a, b, spans, k);
      }
      if s in b {
        var k :| 0 <= k < |b| && b[k] == s;
        MergedElsewhere(b, a, spans, k);
      }
    }
    SeparateEqual(a, b);
  }

  lemma {:induction false} Meet(a: seq<Span>, b: seq<Span>, spans: seq<Span>, k: nat) returns (l: nat)
    requires Anchored(a, spans) && Covers(b, spans) && Proper(spans) && k < |a|
    ensures l < |b| && b[l].start <= a[k].start <= b[l].end && b[l].start <= a[k].end
  {
    assert HasStart(spans, a[k]);
    var i :| 0 <= i < |spans| && spans[i].start == a[k].start && Within(spans[i], a[k]);
    assert Inside(spans[i], b);
    l :| 0 <= l < |b| && Within(spans[i], b[l]);
  }

  // ---- how far to trust a merged span ------------------------------------------------------------------------

  datatype Method = ExactText | NormalizedText | FuzzyText

  function Rank(m: Method): nat {
    match m
    case ExactText => 0
    case NormalizedText => 1
    case FuzzyText => 2
  }

  datatype Hit = Hit(span: Span, found: Method)

  datatype Quote = Quote(span: Span, found: Method)

  function SpansOf(hits: seq<Hit>): seq<Span> {
    if hits == [] then [] else SpansOf(hits[..|hits| - 1]) + [hits[|hits| - 1].span]
  }

  lemma {:induction false} SpansOfAt(hits: seq<Hit>)
    ensures |SpansOf(hits)| == |hits| && forall i :: 0 <= i < |hits| ==> SpansOf(hits)[i] == hits[i].span
  {
    if hits != [] {
      SpansOfAt(hits[..|hits| - 1]);
    }
  }

  predicate Overlaps(hit: Hit, s: Span) {
    hit.span.start < s.end && hit.span.end > s.start
  }

  /** The least certain method among the hits that overlap a span; none if nothing does. */
  method LeastCertain(hits: seq<Hit>, s: Span) returns (worst: Option<Method>)
    ensures worst.None? <==> forall i :: 0 <= i < |hits| ==> !Overlaps(hits[i], s)
    ensures worst.Some? ==> exists i :: 0 <= i < |hits| && Overlaps(hits[i], s) && hits[i].found == worst.value
    ensures worst.Some? ==> forall i ::
      0 <= i < |hits| && Overlaps(hits[i], s)
      ==> Rank(hits[i].found) <= Rank(worst.value)
  {
    worst := None;
    for n := 0 to |hits|
      invariant worst.None? <==> forall i :: 0 <= i < n ==> !Overlaps(hits[i], s)
      invariant worst.Some? ==> exists i :: 0 <= i < n && Overlaps(hits[i], s) && hits[i].found == worst.value
      invariant worst.Some? ==> forall i ::
        0 <= i < n && Overlaps(hits[i], s)
        ==> Rank(hits[i].found) <= Rank(worst.value)
    {
      if Overlaps(hits[n], s) && (worst.None? || Rank(hits[n].found) > Rank(worst.value)) {
        worst := Some(hits[n].found);
      }
    }
  }

  /** Located spans are never empty, so every merged span overlaps one of them: there always
      is a method to take the maximum of. */
  lemma {:induction false} MergedOverlaps(hits: seq<Hit>, merged: seq<Span>, k: nat)
    requires forall i :: 0 <= i < |hits| ==> hits[i].span.start < hits[i].span.end
    requires Anchored(merged, SpansOf(hits)) && k < |merged|
    ensures exists i :: 0 <= i < |hits| && Overlaps(hits[i], merged[k])
  {
    SpansOfAt(hits);
    var spans := SpansOf(hits);
    assert HasStart(spans, merged[k]);
    var i :| 0 <= i < |spans| && spans[i].start == merged[k].start && Within(spans[i], merged[k]);
    assert Overlaps(hits[i], merged[k]);
  }

  lemma {:induction false} HitsAreProper(hits: seq<Hit>)
    requires forall i :: 0 <= i < |hits| ==> hits[i].span.start < hits[i].span.end
    ensures Proper(SpansOf(hits))
  {
    SpansOfAt(hits);
  }

  /** The quotes of one passage: the merged spans, each as trustworthy as its least certain
      member. */
  method Resolve(hits: seq<Hit>) returns (quotes: seq<Quote>)
    requires forall i :: 0 <= i < |hits| ==> hits[i].span.start < hits[i].span.end
    ensures exists merged :: IsMerge(merged, SpansOf(hits)) && AreQuotes(quotes, merged)
    ensures forall k :: 0 <= k < |quotes| ==> IsWorst(hits, quotes[k])
  {
    HitsAreProper(hits);
    var merged := Merge(SpansOf(hits));
    quotes := [];
    for k := 0 to |merged|
      invariant |quotes| == k && AreQuotes(quotes, merged[..k])
      invariant forall j :: 0 <= j < k ==> IsWorst(hits, quotes[j])
    {
      MergedOverlaps(hits, merged, k);
      var worst := LeastCertain(hits, merged[k]);
      quotes := quotes + [Quote(merged[k], worst.value)];
    }
    assert merged[..|merged|] == merged;
  }

  ghost predicate AreQuotes(quotes: seq<Quote>, merged: seq<Span>) {
    |quotes| == |merged| && forall k :: 0 <= k < |quotes| ==> quotes[k].span == merged[k]
  }

  ghost predicate IsWorst(hits: seq<Hit>, quote: Quote) {
    && (exists i :: 0 <= i < |hits| && Overlaps(hits[i], quote.span) && hits[i].found == quote.found)
    && (forall i :: 0 <= i < |hits| && Overlaps(hits[i], quote.span) ==> Rank(hits[i].found) <= Rank(quote.found))
  }
}
