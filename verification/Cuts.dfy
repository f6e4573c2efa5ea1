/**
 What the quote splitter makes of a text, against the leftmost marker line of the whole text:
 it depends on how the text is cut into deltas, and this says exactly when it matters.
 */
module Cuts {
  import opened Common
  import opened Text
  import opened Stream

  // ---- marker lines seen through a window ------------------------------------------------------------------

  /** What is seen of w between two positions. */
  ghost predicate Window(s: string, w: string, a: nat, b: nat) {
    a <= b <= |w| && |s| == b - a && forall i: nat {:trigger Same(s, w, a, i)} :: i < |s| ==> Same(s, w, a, i)
  }

  predicate Same(s: string, w: string, a: nat, i: nat) {
    i < |s| && a + i < |w| && s[i] == w[a + i]
  }

  lemma {:induction false} SliceIsWindow(w: string, a: nat, b: nat)
    requires a <= b <= |w|
    ensures Window(w[a..b], w, a, b)
  {
  }

  lemma {:induction false} SkipThrough(s: string, w: string, a: nat, b: nat, k: nat, kind: Kind)
    requires Window(s, w, a, b) && a <= k <= b
    ensures Skip(s, k - a, kind) == Min(Skip(w, k, kind), b) - a
    decreases b - k
  {
    if k < b {
      assert Same(s, w, a, k - a);
      if OfKind(w[k], kind) {
        SkipThrough(s, w, a, b, k + 1, kind);
      }
    }
  }

  lemma {:induction false} ColonThrough(s: string, w: string, a: nat, b: nat, k: nat)
    requires Window(s, w, a, b) && a <= k <= |w|
    ensures PastColon(s, Min(k, b) - a) == Min(PastColon(w, k), b) - a
  {
    if k < b {
      assert Same(s, w, a, k - a);
    }
  }

  lemma {:induction false} StartThrough(s: string, w: string, a: nat, b: nat, k: nat)
    requires Window(s, w, a, b) && a <= k <= b
    ensures WordStart(s, k - a) == Min(WordStart(w, k), b) - a
  {
    var i := Skip(w, k, Blanks);
    SkipThrough(s, w, a, b, k, Blanks);
    SkipThrough(s, w, a, b, Min(i, b), Decoration);
    var j := Skip(w, i, Decoration);
    SkipThrough(s, w, a, b, Min(j, b), Blanks);
  }

  function TailEnd(s: string, k: nat): (end: nat)
    requires k <= |s|
    ensures k <= end <= |s|
  {
    Skip(s, Skip(s, Skip(s, k, Blanks), Emphasis), Blanks)
  }

  lemma {:induction false} TailThrough(s: string, w: string, a: nat, b: nat, k: nat)
    requires Window(s, w, a, b) && a <= k <= b
    ensures TailEnd(s, k - a) == Min(TailEnd(w, k), b) - a
  {
    var i := Skip(w, k, Blanks);
    SkipThrough(s, w, a, b, k, Blanks);
    SkipThrough(s, w, a, b, Min(i, b), Emphasis);
    var j := Skip(w, i, Emphasis);
    SkipThrough(s, w, a, b, Min(j, b), Blanks);
  }

  lemma {:induction false} EndThrough(s: string, w: string, a: nat, b: nat, k: nat)
    requires Window(s, w, a, b) && a <= k <= b
    ensures LineEnd(s, k - a) == Min(LineEnd(w, k), b) - a
  {
    var h := Skip(w, k, Blanks);
    SkipThrough(s, w, a, b, k, Blanks);
    ColonThrough(s, w, a, b, h);
    TailThrough(s, w, a, b, Min(PastColon(w, h), b));
    assert LineEnd(w, k) == TailEnd(w, PastColon(w, h));
  }

  lemma {:induction false} WindowAgrees(s: string, w: string, a: nat, b: nat)
    requires Window(s, w, a, b)
    ensures forall i {:trigger s[i]} :: 0 <= i < |s| ==> s[i] == w[a + i]
  {
    forall i: nat | i < |s| ensures s[i] == w[a + i] {
      assert Same(s, w, a, i);
    }
  }

  lemma {:induction false} WordThrough(s: string, w: string, a: nat, b: nat, k: nat)
    requires Window(s, w, a, b) && a <= k && k + |MARKER| <= b
    ensures IsWord(s, k - a, MARKER) <==> IsWord(w, k, MARKER)
  {
    WindowAgrees(s, w, a, b);
  }

  lemma {:induction false} LineFound(s: string, i: nat, j: nat, end: nat)
    requires i <= |s| && j == WordStart(s, i) && IsWord(s, j, MARKER) && end == LineEnd(s, j + |MARKER|)
    ensures LineMatch(s, i) == if end == |s| || s[end] == '\n' then Some(end) else None
  {
  }

  lemma {:induction false} PartsThrough(s: string, w: string, a: nat, b: nat, k: nat, j: nat, end: nat)
    requires Window(s, w, a, b) && a <= k <= b && j == WordStart(w, k) && j + |MARKER| <= b
      && end == LineEnd(w, j + |MARKER|)
    ensures WordStart(s, k - a) == j - a && LineEnd(s, j - a + |MARKER|) == Min(end, b) - a
    ensures IsWord(s, j - a, MARKER) <==> IsWord(w, j, MARKER)
  {
    hide WordStart;
    hide LineEnd;
    StartThrough(s, w, a, b, k);
    WordThrough(s, w, a, b, j);
    EndThrough(s, w, a, b, j + |MARKER|);
  }

  lemma {:induction false} EndSeen(s: string, w: string, a: nat, b: nat, end: nat)
    requires Window(s, w, a, b) && a <= end <= b && (end == |w| || w[end] == '\n')
    ensures end - a == |s| || s[end - a] == '\n'
  {
    assert end < b ==> Same(s, w, a, end - a);
  }

  /** Nothing of a marker line reaches past a line feed. */
  lemma {:induction false} SkipStops(w: string, k: nat, b: nat, kind: Kind)
    requires k <= b < |w| && w[b] == '\n'
    ensures Skip(w, k, kind) <= b
    decreases b - k
  {
    if k < b && OfKind(w[k], kind) {
      SkipStops(w, k + 1, b, kind);
    }
  }

  lemma {:induction false} EndStops(w: string, k: nat, b: nat)
    requires k <= b < |w| && w[b] == '\n'
    ensures LineEnd(w, k) <= b
  {
    var i := Skip(w, k, Blanks);
    SkipStops(w, k, b, Blanks);
    var i' := PastColon(w, i);
    SkipStops(w, i', b, Blanks);
    var j := Skip(w, i', Blanks);
    SkipStops(w, j, b, Emphasis);
    SkipStops(w, Skip(w, j, Emphasis), b, Blanks);
  }

  lemma {:induction false} StartStops(w: string, k: nat, b: nat)
    requires k <= b < |w| && w[b] == '\n'
    ensures WordStart(w, k) <= b
  {
    var i := Skip(w, k, Blanks);
    SkipStops(w, k, b, Blanks);
    SkipStops(w, i, b, Decoration);
    SkipStops(w, Skip(w, i, Decoration), b, Blanks);
  }

  lemma {:induction false} WordHasNoFeed(w: string, j: nat)
    requires IsWord(w, j, MARKER)
    ensures forall i :: j <= i < j + |MARKER| ==> w[i] != '\n'
  {
    forall i | j <= i < j + |MARKER| ensures w[i] != '\n' {
      assert Folded(w[j + (i - j)]) == MARKER[i - j];
    }
  }

  lemma {:induction false} LineStops(w: string, k: nat, b: nat)
    requires k <= b < |w| && w[b] == '\n' && LineMatch(w, k).Some?
    ensures LineMatch(w, k).value <= b
  {
    var j := WordStart(w, k);
    StartStops(w, k, b);
    WordHasNoFeed(w, j);
    EndStops(w, j + |MARKER|, b);
  }

  lemma {:induction false} EndAtFeed(w: string, k: nat, b: nat)
    requires k <= b <= |w| && (b == |w| || w[b] == '\n')
    ensures LineEnd(w, k) <= b
  {
    if b < |w| {
      EndStops(w, k, b);
    }
  }

  lemma {:induction false} WordInside(s: string, w: string, a: nat, b: nat, k: nat)
    requires Window(s, w, a, b) && a <= k <= b && LineMatch(s, k - a).Some?
    ensures WordStart(w, k) + |MARKER| <= b
  {
    StartThrough(s, w, a, b, k);
  }

  /** A line seen in the window is one, if the text goes on with a new line or not at all where
      the window ends. */
  lemma {:induction false} LineIsReal(s: string, w: string, a: nat, b: nat, k: nat)
    requires Window(s, w, a, b) && a <= k <= b && LineMatch(s, k - a).Some?
    requires LineMatch(s, k - a).value == b - a ==> b == |w| || w[b] == '\n'
    ensures LineMatch(w, k) == Some(a + LineMatch(s, k - a).value)
  {
    hide WordStart;
    hide LineEnd;
    WordInside(s, w, a, b, k);
    var j := WordStart(w, k);
    var end := LineEnd(w, j + |MARKER|);
    PartsThrough(s, w, a, b, k, j, end);
    if b == |w| || w[b] == '\n' {
      EndAtFeed(w, j + |MARKER|, b);
    }
    RealEnd(s, w, a, b, k, j, end);
  }

  lemma {:induction false} RealEnd(s: string, w: string, a: nat, b: nat, k: nat, j: nat, end: nat)
    requires Window(s, w, a, b) && a <= k <= j && k <= b && j + |MARKER| <= end && j + |MARKER| <= |w|
    requires j == WordStart(w, k) && end == LineEnd(w, j + |MARKER|) && LineMatch(s, k - a) == Some(Min(end, b) - a)
      && IsWord(w, j, MARKER)
    requires Min(end, b) == b ==> end == b && (b == |w| || w[b] == '\n')
    ensures LineMatch(w, k) == Some(end)
  {
    hide WordStart;
    hide LineEnd;
    assert end < b ==> Same(s, w, a, end - a);
    LineFound(w, k, j, end);
  }

  // ---- the leftmost marker line -------------------------------------------------------------------------------

  /** Marker line (p, e) of the whole text: p is its line feed, or 0 at the very start. */
  predicate Marks(w: string, p: nat, e: nat) {
    p <= |w| && MatchAt(w, p) == Some(e)
  }

  lemma {:induction false} SearchMarks(w: string, i: nat)
    requires i <= |w| && Search(w, i).Some?
    ensures Marks(w, Search(w, i).value.0, Search(w, i).value.1)
    decreases |w| - i
  {
    if MatchAt(w, i).None? {
      SearchMarks(w, i + 1);
    }
  }

  lemma {:induction false} NoMarkBefore(w: string, i: nat, q: nat)
    requires i <= q <= |w| && (Search(w, i).Some? ==> q < Search(w, i).value.0)
    ensures MatchAt(w, q).None?
    decreases q - i
  {
    if i < q {
      NoMarkBefore(w, i + 1, q);
    }
  }

  lemma {:induction false} SearchReaches(w: string, p: nat, e: nat)
    requires Marks(w, p, e)
    ensures Search(w, 0).Some? && Search(w, 0).value.0 <= p
  {
    if Search(w, 0).None? || p < Search(w, 0).value.0 {
      NoMarkBefore(w, 0, p);
    }
  }

  lemma {:induction false} FeedInside(s: string, w: string, a: nat, b: nat, p: nat)
    requires Window(s, w, a, b) && a <= p < b && w[p] == '\n'
    ensures s[p - a] == '\n'
  {
    assert Same(s, w, a, p - a);
  }

  lemma {:induction false} FeedMarks(s: string, i: nat, e: nat)
    requires i < |s| && s[i] == '\n' && LineMatch(s, i + 1) == Some(e)
    ensures MatchAt(s, i) == Some(e)
  {
    FeedIsNoLine(s, i);
  }

  lemma {:induction false} FeedIsNoLine(s: string, i: nat)
    requires i < |s| && s[i] == '\n'
    ensures LineMatch(s, i).None?
  {
    assert WordStart(s, i) == i;
    WordFeed(s, i);
  }

  lemma {:induction false} WordFeed(s: string, i: nat)
    requires i < |s| && s[i] == '\n'
    ensures !IsWord(s, i, MARKER)
  {
    assert MARKER[0] == 'q' && s[i + 0] == '\n';
  }

  lemma {:induction false} MarkEnds(w: string, p: nat, e: nat)
    requires Marks(w, p, e)
    ensures p + |MARKER| <= e <= |w| && (e == |w| || w[e] == '\n') && (p > 0 ==> p < |w| && w[p] == '\n')
  {
  }

  lemma {:induction false} StartMarks(w: string, e: nat)
    requires LineMatch(w, 0) == Some(e)
    ensures Marks(w, 0, e)
  {
  }

  // ---- a marker line taken apart ------------------------------------------------------------------------------

  /** A marker line: its line feed (or 0 at the very start), where the line starts, where its
      word does, and where it ends. */
  datatype Mark = Mark(feed: nat, start: nat, word: nat, end: nat)

  predicate IsMark(w: string, m: Mark) {
    && Marks(w, m.feed, m.end)
    && m.start == (if m.feed == 0 && LineMatch(w, 0).Some? then 0 else m.feed + 1)
    && m.start <= |w| && m.word == WordStart(w, m.start)
  }

  lemma {:induction false} MarkParts(w: string, m: Mark)
    requires IsMark(w, m)
    ensures LineMatch(w, m.start) == Some(m.end) && m.feed <= m.start <= m.word && m.word + |MARKER| <= m.end <= |w|
    ensures m.start == 0 || (m.start == m.feed + 1 && w[m.feed] == '\n')
    ensures IsWord(w, m.word, MARKER) && m.end == LineEnd(w, m.word + |MARKER|) && (m.end == |w| || w[m.end] == '\n')
  {
    hide WordStart;
    hide LineEnd;
  }

  /** The mark of a marker line. */
  function MarkAt(w: string, p: nat): (m: Mark)
    requires p <= |w| && MatchAt(w, p).Some?
    ensures IsMark(w, m) && m.feed == p && m.end == MatchAt(w, p).value
  {
    var start := if p == 0 && LineMatch(w, 0).Some? then 0 else p + 1;
    Mark(p, start, WordStart(w, start), MatchAt(w, p).value)
  }

  lemma {:induction false} NoFeedInside(w: string, m: Mark, q: nat)
    requires IsMark(w, m) && m.start <= q < |w| && w[q] == '\n'
    ensures m.end <= q
  {
    MarkParts(w, m);
    LineStops(w, m.start, q);
  }

  lemma {:induction false} SkipWithin(w: string, k: nat, a: nat, kind: Kind)
    requires k <= |w| && k <= a <= Skip(w, k, kind)
    ensures Skip(w, a, kind) == Skip(w, k, kind)
    decreases a - k
  {
    if k < a {
      SkipWithin(w, k + 1, a, kind);
    }
  }

  lemma {:induction false} SkippedIs(w: string, k: nat, q: nat, kind: Kind)
    requires k <= |w| && k <= q < Skip(w, k, kind)
    ensures OfKind(w[q], kind)
    decreases q - k
  {
    if k < q {
      SkippedIs(w, k + 1, q, kind);
    }
  }

  /** Inside what comes before the word, the word still starts where it did. */
  lemma {:induction false} StartWithin(w: string, k: nat, a: nat)
    requires k <= |w| && k <= a <= WordStart(w, k) && IsWord(w, WordStart(w, k), MARKER)
    ensures WordStart(w, a) == WordStart(w, k)
  {
    var x := Skip(w, k, Blanks);
    var y := Skip(w, x, Decoration);
    var j := Skip(w, y, Blanks);
    WordIsLetter(w, j);
    if a <= x {
      SkipWithin(w, k, a, Blanks);
    } else if a < y {
      SkippedIs(w, x, a, Decoration);
      assert Skip(w, a, Blanks) == a;
      SkipWithin(w, x, a, Decoration);
    } else {
      SkipWithin(w, y, a, Blanks);
      assert Skip(w, j, Decoration) == j && Skip(w, j, Blanks) == j;
    }
  }

  lemma {:induction false} WordIsLetter(w: string, j: nat)
    requires IsWord(w, j, MARKER)
    ensures !OfKind(w[j], Blanks) && !OfKind(w[j], Decoration)
  {
    assert MARKER[0] == 'q' && Folded(w[j + 0]) == 'q';
  }

  /** So the rest of a partly shown marker line still reads as one. */
  lemma {:induction false} RestMatches(w: string, m: Mark, a: nat)
    requires IsMark(w, m) && m.start <= a <= m.word
    ensures LineMatch(w, a) == Some(m.end) && WordStart(w, a) == m.word
  {
    hide WordStart;
    MarkParts(w, m);
    assert WordStart(w, m.start) == m.word;
    StartWithin(w, m.start, a);
    LineFound(w, a, m.word, m.end);
  }

  /** A line whose word is in the window is seen, up to its end or that of the window. */
  lemma {:induction false} WordSeen(s: string, w: string, a: nat, b: nat, k: nat, j: nat, end: nat)
    requires Window(s, w, a, b) && a <= k <= j && j + |MARKER| <= b && j == WordStart(w, k) && IsWord(w, j, MARKER)
    requires end == LineEnd(w, j + |MARKER|) && (end == |w| || w[end] == '\n')
    ensures LineMatch(s, k - a) == Some(Min(end, b) - a)
  {
    hide WordStart;
    hide LineEnd;
    PartsThrough(s, w, a, b, k, j, end);
    if end <= b {
      EndSeen(s, w, a, b, end);
    }
    LineFound(s, k - a, j - a, Min(end, b) - a);
  }

  /** Once the word of a marker line has been fed, and not let out, a search hits: at the line
      or before it. */
  lemma {:induction false} WordHits(s: string, w: string, a: nat, b: nat, m: Mark)
    requires Window(s, w, a, b) && IsMark(w, m) && a <= m.word && m.word + |MARKER| <= b
    ensures Search(s, 0).Some? && Search(s, 0).value.0 <= Max(0, m.feed - a)
    ensures m.start <= a ==> LineMatch(s, 0).Some?
  {
    hide LineMatch;
    MarkParts(w, m);
    if m.start <= a {
      RestMatches(w, m, a);
      WordSeen(s, w, a, b, a, m.word, m.end);
      StartMarks(s, LineMatch(s, 0).value);
      SearchReaches(s, 0, LineMatch(s, 0).value);
    } else {
      WordSeen(s, w, a, b, m.start, m.word, m.end);
      FeedInside(s, w, a, b, m.feed);
      FeedMarks(s, m.feed - a, LineMatch(s, m.start - a).value);
      SearchReaches(s, m.feed - a, LineMatch(s, m.start - a).value);
    }
  }

  // ---- where the splitter looks --------------------------------------------------------------------------------

  /** A search that hits: what was let out before it, and the pending text it looks at. */
  datatype Hit = Hit(out: string, pending: string)

  function Looked(out: string, pending: string): Option<Hit> {
    if Search(pending, 0).Some? then Some(Hit(out, pending)) else None
  }

  /** The positions in the text at which its deltas end, the start included. */
  function Ends(deltas: seq<string>): (ends: seq<nat>)
    ensures ends != []
  {
    if deltas == [] then [0] else Ends(deltas[..|deltas| - 1]) + [|Concat(deltas)|]
  }

  predicate AreEnds(w: string, ends: seq<nat>) {
    && ends != [] && ends[|ends| - 1] <= |w|
    && forall i :: 0 < i < |ends| ==> ends[i - 1] <= ends[i]
  }

  /** While nothing has been hit, the text up to one position has been fed and all but the
      hold-back of it let out; the next search looks at the rest, up to the next position. */
  function Look(w: string, fed: nat, next: nat): Option<Hit>
    requires fed <= next <= |w|
  {
    var out := Max(0, fed - HOLD_BACK);
    Looked(w[..out], w[out..next])
  }

  function FirstLook(w: string, ends: seq<nat>): Option<Hit>
    requires AreEnds(w, ends)
  {
    var n := |ends| - 1;
    if n == 0 then None
    else if FirstLook(w, ends[..n]).Some? then FirstLook(w, ends[..n])
    else Look(w, ends[n - 1], ends[n])
  }

  /** The ends of the deltas, and once more that of the text, where the held tail is flushed. */
  function Looks(deltas: seq<string>): seq<nat> {
    Ends(deltas) + [|Concat(deltas)|]
  }

  lemma {:induction false} EndsAreEnds(w: string, deltas: seq<string>)
    requires Concat(deltas) <= w
    ensures AreEnds(w, Ends(deltas)) && Ends(deltas)[|Ends(deltas)| - 1] == |Concat(deltas)|
      && |Ends(deltas)| == |deltas| + 1
  {
    if deltas != [] {
      var init := deltas[..|deltas| - 1];
      assert Concat(init) <= w;
      EndsAreEnds(w, init);
    }
  }

  lemma {:induction false} LooksAreEnds(deltas: seq<string>)
    ensures AreEnds(Concat(deltas), Looks(deltas)) && Looks(deltas)[..|Ends(deltas)|] == Ends(deltas)
  {
    EndsAreEnds(Concat(deltas), deltas);
  }

  /** The splitter in the middle of a stream: nothing hit, the hold-back pending. */
  ghost predicate Holding(t: Tail, out: string, fed: string) {
    !t.collecting && out + t.pending == fed && |out| == Max(0, |fed| - HOLD_BACK)
  }

  /** Its search is the look at the text from there on, */
  lemma {:induction false} FeedLooks(w: string, t: Tail, out: string, fed: string, text: string)
    requires Holding(t, out, fed) && fed + text <= w
    ensures Look(w, |fed|, |fed + text|) == Looked(out, t.pending + text)
  {
    hide Search;
    var pending, b := t.pending + text, |fed + text|;
    assert out + pending == fed + text;
    assert w[..b] == out + pending;
    assert w[|out|..b] == w[..b][|out|..] == pending;
    assert w[..|out|] == w[..b][..|out|] == out;
  }

  /** and where that does not hit, it goes on holding back. */
  lemma {:induction false} FeedHolds(t: Tail, out: string, fed: string, text: string)
    requires Holding(t, out, fed) && Search(t.pending + text, 0).None?
    ensures Holding(TailFeed(t, text).0, out + TailFeed(t, text).1, fed + text)
  {
    hide Search;
    var pending := t.pending + text;
    assert out + pending == fed + text;
    if |pending| > HOLD_BACK {
      var k := |pending| - HOLD_BACK;
      assert (out + pending[..k]) + pending[k..] == out + pending;
    } else {
      assert out + "" == out;
    }
  }

  /** The stretch of text a hit looks at lies in the whole, and the splitter comes to what the
      hit says. */
  ghost predicate Lands(h: Hit, w: string, out: string, t: Tail) {
    && h.out + h.pending <= w && Search(h.pending, 0).Some?
    && t == Tail("", w[|h.out| + Search(h.pending, 0).value.1..], true)
    && out == h.out + RStrip(h.pending[..Search(h.pending, 0).value.0])
  }

  lemma {:induction false} TakingLands(h: Hit, hold: nat)
    requires Search(h.pending, 0).Some?
    ensures var (t, more) := TailTake(h.pending, hold); Lands(h, h.out + h.pending, h.out + more, t)
  {
    var j := Search(h.pending, 0).value.1;
    assert (h.out + h.pending)[|h.out| + j..] == h.pending[j..];
  }

  lemma {:induction false} CollectingLands(h: Hit, w: string, out: string, t: Tail, text: string)
    requires Lands(h, w, out, t)
    ensures Lands(h, w + text, out + "", t.(section := t.section + text))
  {
    hide Search;
    var at := |h.out| + Search(h.pending, 0).value.1;
    assert (w + text)[at..] == w[at..] + text;
    assert out + "" == out;
  }

  lemma {:induction false} HittingLands(t: Tail, out: string, fed: string, text: string)
    requires !t.collecting && out + t.pending == fed && Search(t.pending + text, 0).Some?
    ensures Lands(Hit(out, t.pending + text), fed + text, out + TailFeed(t, text).1, TailFeed(t, text).0)
  {
    var pending := t.pending + text;
    assert out + pending == fed + text;
    TakingLands(Hit(out, pending), HOLD_BACK);
  }

  /** What a run comes to, said of the text and the positions alone. */
  ghost predicate Follows(w: string, deltas: seq<string>) {
    var (t, out) := TailRun(deltas);
    var fed := Concat(deltas);
    && fed <= w && AreEnds(w, Ends(deltas))
    && match FirstLook(w, Ends(deltas))
       case None => Holding(t, out, fed)
       case Some(h) => Lands(h, fed, out, t)
  }

  lemma {:induction false} RunFollows(w: string, deltas: seq<string>)
    requires Concat(deltas) <= w
    ensures Follows(w, deltas)
  {
    EndsAreEnds(w, deltas);
    if deltas != [] {
      var init, last := deltas[..|deltas| - 1], deltas[|deltas| - 1];
      var (t, out) := TailRun(init);
      assert Concat(init) <= w;
      RunFollows(w, init);
      EndsAreEnds(w, init);
      assert Ends(deltas)[..|Ends(deltas)| - 1] == Ends(init);
      match FirstLook(w, Ends(init))
      case Some(h) => CollectingLands(h, Concat(init), out, t, last);
      case None =>
        FeedLooks(w, t, out, Concat(init), last);
        if Search(t.pending + last, 0).Some? {
          HittingLands(t, out, Concat(init), last);
        } else {
          FeedHolds(t, out, Concat(init), last);
        }
    }
  }

  /** How a stream is split, in closed form: by the first look at the text that hits, wherever
      its deltas end; whole if none does. */
  lemma {:induction false} SplitFollows(deltas: seq<string>)
    ensures var w, (out, t) := Concat(deltas), Split(deltas);
            && AreEnds(w, Looks(deltas))
            && match FirstLook(w, Looks(deltas))
               case None => out == w && t == FRESH_TAIL
               case Some(h) => Lands(h, w, out, t)
  {
    var w := Concat(deltas);
    var (t, out) := TailRun(deltas);
    RunFollows(w, deltas);
    LooksAreEnds(deltas);
    EndsAreEnds(w, deltas);
    match FirstLook(w, Ends(deltas))
    case Some(h) =>
      assert out + "" == out;
    case None =>
      FlushLooks(t, out, w);
  }

  lemma {:induction false} FlushLooks(t: Tail, out: string, w: string)
    requires Holding(t, out, w)
    ensures Look(w, |w|, |w|) == Looked(out, t.pending)
    ensures Search(t.pending, 0).None? ==> TailFlush(t) == (FRESH_TAIL, t.pending)
    ensures Search(t.pending, 0).Some? ==> Lands(Hit(out, t.pending), w, out + TailFlush(t).1, TailFlush(t).0)
  {
    var pending := t.pending;
    assert w[|out|..] == pending && w[|out|..|w|] == pending && w[..|out|] == out;
    assert pending[..|pending| - 0] == pending && pending[|pending| - 0..] == "";
    if Search(pending, 0).Some? {
      TakingLands(Hit(out, pending), 0);
    }
  }

  // ---- how far a stream gets before a hit ------------------------------------------------------------------------

  /** A look that does not hit stays before the word; one that hits has let out no more than
      what is well before it. */
  lemma {:induction false} LookReaches(w: string, fed: nat, next: nat, m: Mark)
    requires fed <= next <= |w| && IsMark(w, m) && fed < m.word + |MARKER|
    ensures Look(w, fed, next).None? ==> next < m.word + |MARKER|
    ensures Look(w, fed, next).Some? ==> Waits(w, Look(w, fed, next).value, m)
  {
    hide LineMatch;
    var a := Max(0, fed - HOLD_BACK);
    SliceIsWindow(w, a, next);
    if next >= m.word + |MARKER| {
      WordHits(w[a..next], w, a, next, m);
    }
  }

  /** Of the marker's line, nothing near its word is out yet. */
  ghost predicate Waits(w: string, h: Hit, m: Mark) {
    && |h.out| + |h.pending| <= |w| && Window(h.pending, w, |h.out|, |h.out| + |h.pending|) && w[..|h.out|] == h.out
    && Search(h.pending, 0).Some? && |h.out| <= Max(0, m.word + |MARKER| - 1 - HOLD_BACK)
  }

  lemma {:induction false} FirstReaches(w: string, ends: seq<nat>, m: Mark)
    requires AreEnds(w, ends) && IsMark(w, m) && ends[0] == 0
    ensures FirstLook(w, ends).None? ==> ends[|ends| - 1] < m.word + |MARKER|
    ensures FirstLook(w, ends).Some? ==> Waits(w, FirstLook(w, ends).value, m)
  {
    hide LineMatch;
    var n := |ends| - 1;
    if n > 0 {
      FirstReaches(w, ends[..n], m);
      if FirstLook(w, ends[..n]).None? {
        LookReaches(w, ends[n - 1], ends[n], m);
      }
    }
  }

  lemma {:induction false} EndsStart(deltas: seq<string>)
    ensures Ends(deltas)[0] == 0
  {
    if deltas != [] {
      EndsStart(deltas[..|deltas| - 1]);
    }
  }

  /** So a text with a marker line is never let out whole. */
  lemma {:induction false} MarkIsHit(deltas: seq<string>, m: Mark)
    requires IsMark(Concat(deltas), m)
    ensures AreEnds(Concat(deltas), Looks(deltas)) && FirstLook(Concat(deltas), Looks(deltas)).Some?
    ensures Waits(Concat(deltas), FirstLook(Concat(deltas), Looks(deltas)).value, m)
  {
    hide LineMatch;
    var w := Concat(deltas);
    LooksAreEnds(deltas);
    EndsStart(deltas);
    MarkParts(w, m);
    FirstReaches(w, Looks(deltas), m);
  }

  // ---- hits and the leftmost marker --------------------------------------------------------------------------------

  /** A hit is genuine in the whole text if its line begins at the start of one, or in one of
      which only white space is out, and if the line ends where the pending text does. */
  predicate Genuine(h: Hit, w: string) {
    StartsLine(h, w) && EndsLine(h, w)
  }

  predicate StartsLine(h: Hit, w: string) {
    var a := |h.out|;
    LineMatch(h.pending, 0).Some? ==>
      || h.out == "" || h.out[a - 1] == '\n'
      || (Search(w, 0).Some? && Search(w, 0).value.0 <= a <= |w| && IsBlank(w[Search(w, 0).value.0..a]))
  }

  predicate EndsLine(h: Hit, w: string) {
    var b := |h.out| + |h.pending|;
    Search(h.pending, 0).Some? && Search(h.pending, 0).value.1 == |h.pending| && b < |w| ==> w[b] == '\n'
  }

  lemma {:induction false} StartReal(s: string, w: string, a: nat, b: nat, j: nat)
    requires Window(s, w, a, b) && LineMatch(s, 0) == Some(j) && (j == |s| ==> b == |w| || w[b] == '\n')
    requires a > 0 ==> w[a - 1] == '\n'
    ensures Marks(w, if a == 0 then 0 else a - 1, a + j)
  {
    hide LineMatch;
    LineIsReal(s, w, a, b, a);
    if a == 0 {
      StartMarks(w, j);
    } else {
      FeedMarks(w, a - 1, a + j);
    }
  }

  lemma {:induction false} FeedReal(s: string, w: string, a: nat, b: nat, i: nat, j: nat)
    requires Window(s, w, a, b) && i < |s| && s[i] == '\n' && LineMatch(s, i + 1) == Some(j)
    requires j == |s| ==> b == |w| || w[b] == '\n'
    ensures Marks(w, a + i, a + j)
  {
    hide LineMatch;
    LineIsReal(s, w, a, b, a + i + 1);
    assert Same(s, w, a, i);
    FeedMarks(w, a + i, a + j);
  }

  lemma {:induction false} LineAtStart(s: string, i: nat, j: nat)
    requires LineMatch(s, 0).Some? && Search(s, 0) == Some((i, j))
    ensures i == 0 && LineMatch(s, 0) == Some(j)
  {
  }

  lemma {:induction false} LineAtFeed(s: string, i: nat, j: nat)
    requires LineMatch(s, 0).None? && Search(s, 0) == Some((i, j))
    ensures i < |s| && s[i] == '\n' && LineMatch(s, i + 1) == Some(j)
  {
    SearchMarks(s, 0);
  }

  /** The leftmost marker of a text. */
  predicate IsFirst(w: string, m: Mark) {
    IsMark(w, m) && Search(w, 0) == Some((m.feed, m.end))
  }

  lemma {:induction false} FirstExists(w: string) returns (m: Mark)
    requires Search(w, 0).Some?
    ensures IsFirst(w, m)
  {
    SearchMarks(w, 0);
    m := MarkAt(w, Search(w, 0).value.0);
  }

  /** A hit at a line feed that ends as a line does is that marker: it cannot be a later one. */
  lemma {:induction false} FeedIsFirst(s: string, w: string, a: nat, b: nat, i: nat, e: nat, m: Mark)
    requires Window(s, w, a, b) && IsFirst(w, m) && a <= m.word && Search(s, 0).Some? && Search(s, 0).value.0 == i
    requires LineMatch(s, 0).None? && Marks(w, a + i, e)
    ensures m.feed == a + i && m.end == e
  {
    hide LineMatch;
    SearchReaches(w, a + i, e);
    MarkEnds(w, a + i, e);
    if m.feed < a + i {
      MarkParts(w, m);
      NoFeedInside(w, m, a + i);
      WordHits(s, w, a, b, m);
    }
  }

  /** Nor can one that starts at the beginning of a line. */
  lemma {:induction false} StartIsFirst(w: string, a: nat, e: nat, m: Mark)
    requires IsFirst(w, m) && a <= m.word && Marks(w, if a == 0 then 0 else a - 1, e)
    ensures m.feed == (if a == 0 then 0 else a - 1) && m.end == e
  {
    hide LineMatch;
    var p := if a == 0 then 0 else a - 1;
    SearchReaches(w, p, e);
    MarkEnds(w, p, e);
    if m.feed < p {
      MarkParts(w, m);
      NoFeedInside(w, m, p);
    }
  }

  /** What is left of a partly shown line ends where the line does. */
  lemma {:induction false} RestIsFirst(s: string, w: string, a: nat, b: nat, m: Mark)
    requires Window(s, w, a, b) && IsMark(w, m) && m.feed <= a <= m.word && LineMatch(s, 0).Some?
    requires LineMatch(s, 0).value == |s| ==> b == |w| || w[b] == '\n'
    ensures m.end == a + LineMatch(s, 0).value
  {
    hide LineMatch;
    LineIsReal(s, w, a, b, a);
    MarkParts(w, m);
    if m.start <= a {
      RestMatches(w, m, a);
    } else {
      FeedIsNoLine(w, a);
    }
  }

  // ---- when the cut does not matter -------------------------------------------------------------------------------

  /** The split is that of the whole text at its leftmost marker line: the same section, and the
      same answer up to white space at its end. */
  predicate Agrees(w: string, out: string, t: Tail) {
    match Search(w, 0)
    case None => !t.collecting
    case Some((p, e)) => t.collecting && t.section == w[e..] && RStrip(out) == RStrip(w[..p])
  }

  lemma {:induction false} StripJoins(x: string, y: string)
    ensures RStrip(x + RStrip(y)) == RStrip(x + y)
  {
    if y == "" || !IsSpace(y[|y| - 1]) {
      assert RStrip(y) == y;
    } else {
      var z := y[..|y| - 1];
      StripJoins(x, z);
      assert (x + y)[..|x + y| - 1] == x + z;
    }
  }

  lemma {:induction false} StretchWindow(w: string, out: string, pending: string)
    requires out + pending <= w
    ensures var a, b := |out|, |out| + |pending|; Window(pending, w, a, b) && w[..a] == out
  {
    var a, b := |out|, |out| + |pending|;
    assert w[..b] == out + pending;
    assert w[a..b] == w[..b][a..] == pending;
    assert w[..a] == w[..b][..a];
    SliceIsWindow(w, a, b);
  }

  lemma {:induction false} PrefixParts(w: string, out: string, pending: string, i: nat)
    requires out + pending <= w && i <= |pending|
    ensures w[..|out| + i] == out + pending[..i]
  {
    var b := |out| + |pending|;
    assert w[..b] == out + pending;
    assert w[..|out| + i] == w[..b][..|out| + i];
  }

  lemma {:induction false} StripBlank(w: string, p: nat, a: nat)
    requires p <= a <= |w|
    ensures IsBlank(w[p..a]) <==> RStrip(w[..a]) == RStrip(w[..p])
  {
    if p < a {
      StripBlank(w, p, a - 1);
      LastSplits(w, p, a);
      if !IsSpace(w[a - 1]) {
        StripKeeps(w, p, a);
      }
    }
  }

  lemma {:induction false} LastSplits(w: string, p: nat, a: nat)
    requires p < a <= |w|
    ensures IsBlank(w[p..a]) <==> IsBlank(w[p..a - 1]) && IsSpace(w[a - 1])
    ensures IsSpace(w[a - 1]) ==> RStrip(w[..a]) == RStrip(w[..a - 1])
  {
    var part, init := w[p..a], w[p..a - 1];
    assert part[|part| - 1] == w[a - 1];
    assert forall i :: 0 <= i < |init| ==> init[i] == part[i];
    assert w[..a][..a - 1] == w[..a - 1];
  }

  lemma {:induction false} StripKeeps(w: string, p: nat, a: nat)
    requires p < a <= |w| && !IsSpace(w[a - 1])
    ensures RStrip(w[..a]) != RStrip(w[..p])
  {
    RStripParts(w[..p]);
    assert RStrip(w[..a]) == w[..a];
  }

  /** What a landed hit has let out, white space at its end aside. */
  lemma {:induction false} LandedOut(h: Hit, w: string, out: string, t: Tail, i: nat)
    requires Lands(h, w, out, t) && Search(h.pending, 0).value.0 == i
    ensures |h.out| + i <= |w| && RStrip(out) == RStrip(w[..|h.out| + i]) && |h.out| <= |out| <= |h.out| + i
  {
    hide Search;
    StripJoins(h.out, h.pending[..i]);
    PrefixParts(w, h.out, h.pending, i);
    RStripParts(h.pending[..i]);
  }

  /** A genuine hit is the leftmost marker, or what is left of it. */
  lemma {:induction false} GenuineIsFirst(h: Hit, w: string, i: nat, j: nat, m: Mark)
    requires Waits(w, h, m) && IsFirst(w, m) && |h.out| <= m.word && Genuine(h, w)
      && Search(h.pending, 0) == Some((i, j))
    ensures m.end == |h.out| + j && |h.out| + i <= |w| && RStrip(w[..|h.out| + i]) == RStrip(w[..m.feed])
  {
    hide LineMatch;
    var s, a, b := h.pending, |h.out|, |h.out| + |h.pending|;
    if LineMatch(s, 0).None? {
      LineAtFeed(s, i, j);
      FeedReal(s, w, a, b, i, j);
      FeedIsFirst(s, w, a, b, i, a + j, m);
    } else {
      LineAtStart(s, i, j);
      if a == 0 || h.out[a - 1] == '\n' {
        FreshIsFirst(h, w, j, m);
      } else {
        RestIsFirst(s, w, a, b, m);
        StripBlank(w, m.feed, a);
      }
    }
  }

  lemma {:induction false} FreshIsFirst(h: Hit, w: string, j: nat, m: Mark)
    requires Waits(w, h, m) && IsFirst(w, m) && |h.out| <= m.word && EndsLine(h, w)
      && LineMatch(h.pending, 0) == Some(j)
    requires h.out == "" || h.out[|h.out| - 1] == '\n'
    requires Search(h.pending, 0) == Some((0, j))
    ensures m.end == |h.out| + j && RStrip(w[..|h.out|]) == RStrip(w[..m.feed])
  {
    hide LineMatch;
    var s, a, b := h.pending, |h.out|, |h.out| + |h.pending|;
    assert a > 0 ==> w[a - 1] == h.out[a - 1];
    StartReal(s, w, a, b, j);
    StartIsFirst(w, a, a + j, m);
    if a > 0 {
      assert w[m.feed..a] == [w[a - 1]];
      StripBlank(w, m.feed, a);
    }
  }

  lemma {:induction false} GenuineAgrees(h: Hit, w: string, out: string, t: Tail, m: Mark)
    requires Lands(h, w, out, t) && Waits(w, h, m) && IsFirst(w, m) && |h.out| <= m.word && Genuine(h, w)
    ensures Agrees(w, out, t)
  {
    hide LineMatch;
    var (i, j) := Search(h.pending, 0).value;
    GenuineIsFirst(h, w, i, j, m);
    LandedOut(h, w, out, t, i);
  }

  /** The sections agree, so the marks end together. */
  lemma {:induction false} AgreeingEnds(h: Hit, w: string, out: string, t: Tail, m: Mark)
    requires Lands(h, w, out, t) && IsFirst(w, m) && Agrees(w, out, t)
    ensures m.end == |h.out| + Search(h.pending, 0).value.1 && EndsLine(h, w)
  {
    hide LineMatch, RStrip;
    MarkParts(w, m);
    assert |w[m.end..]| == |w[|h.out| + Search(h.pending, 0).value.1..]|;
  }

  lemma {:induction false} AgreeingIsGenuine(h: Hit, w: string, out: string, t: Tail, m: Mark)
    requires Lands(h, w, out, t) && Waits(w, h, m) && IsFirst(w, m) && Agrees(w, out, t)
    ensures Genuine(h, w)
  {
    hide LineMatch, EndsLine;
    var a, b := |h.out|, |h.out| + |h.pending|;
    var (i, j) := Search(h.pending, 0).value;
    AgreeingEnds(h, w, out, t, m);
    MarkParts(w, m);
    LandedOut(h, w, out, t, i);
    if LineMatch(h.pending, 0).Some? && a > 0 {
      LineAtStart(h.pending, i, j);
      if m.feed > a {
        FeedOutside(h.pending, w, a, b, j, m.feed);
      }
      StripBlank(w, m.feed, a);
    }
  }

  lemma {:induction false} FeedOutside(s: string, w: string, a: nat, b: nat, j: nat, p: nat)
    requires Window(s, w, a, b) && LineMatch(s, 0) == Some(j) && a <= p < |w| && w[p] == '\n'
    ensures a + j <= p
  {
    if p < b {
      assert Same(s, w, a, p - a);
      LineStops(s, 0, p - a);
    }
  }

  /** Without a marker there is nothing a hit could be. */
  lemma {:induction false} GenuineNeedsMark(h: Hit, w: string)
    requires h.out + h.pending <= w && Search(h.pending, 0).Some? && Genuine(h, w)
    ensures Search(w, 0).Some?
  {
    hide LineMatch;
    var s, a, b := h.pending, |h.out|, |h.out| + |h.pending|;
    var (i, j) := Search(s, 0).value;
    StretchWindow(w, h.out, s);
    if LineMatch(s, 0).None? {
      LineAtFeed(s, i, j);
      FeedReal(s, w, a, b, i, j);
      SearchReaches(w, a + i, a + j);
    } else if Search(w, 0).None? {
      LineAtStart(s, i, j);
      assert a > 0 ==> w[a - 1] == h.out[a - 1];
      StartReal(s, w, a, b, j);
      SearchReaches(w, if a == 0 then 0 else a - 1, a + j);
    }
  }

  /** No look hits, or the first that does is genuine. */
  predicate Clean(w: string, ends: seq<nat>)
    requires AreEnds(w, ends)
  {
    var h := FirstLook(w, ends);
    h.None? || Genuine(h.value, w)
  }

  /** However a text is cut: the split is that of the whole text exactly when the cut is clean,
      which the text and the positions of the cuts decide. */
  lemma {:induction false} CutAgreesIff(deltas: seq<string>)
    ensures var w, (out, t) := Concat(deltas), Split(deltas);
            AreEnds(w, Looks(deltas)) && (Agrees(w, out, t) <==> Clean(w, Looks(deltas)))
  {
    hide LineMatch;
    var w := Concat(deltas);
    var (out, t) := Split(deltas);
    SplitFollows(deltas);
    var first := FirstLook(w, Looks(deltas));
    if Search(w, 0).Some? {
      var m := FirstExists(w);
      MarkIsHit(deltas, m);
      MarkParts(w, m);
      if Genuine(first.value, w) {
        GenuineAgrees(first.value, w, out, t, m);
      }
      if Agrees(w, out, t) {
        AgreeingIsGenuine(first.value, w, out, t, m);
      }
    } else if first.Some? && Genuine(first.value, w) {
      GenuineNeedsMark(first.value, w);
    }
  }

  /** So two clean cuts of one text split it alike, one of them possibly the uncut text. */
  lemma {:induction false} CleanCutsAgree(deltas: seq<string>, others: seq<string>)
    requires Concat(deltas) == Concat(others)
    requires AreEnds(Concat(deltas), Looks(deltas)) && Clean(Concat(deltas), Looks(deltas))
    requires AreEnds(Concat(others), Looks(others)) && Clean(Concat(others), Looks(others))
    ensures Split(deltas).1 == Split(others).1 && RStrip(Split(deltas).0) == RStrip(Split(others).0)
  {
    CutAgreesIff(deltas);
    CutAgreesIff(others);
    SplitConserves(deltas);
    SplitConserves(others);
  }

  /** A text without the word comes out whole, however it is cut. */
  lemma {:induction false} WordlessComesOut(deltas: seq<string>)
    requires forall i: nat {:trigger IsWord(Concat(deltas), i, MARKER)} :: !IsWord(Concat(deltas), i, MARKER)
    ensures Split(deltas) == (Concat(deltas), FRESH_TAIL)
  {
    SplitConserves(deltas);
    var (out, t) := Split(deltas);
    if t.collecting {
      PartedHasWord(Concat(deltas), out, t.section);
    }
  }

  lemma {:induction false} PartedHasWord(w: string, out: string, section: string)
    requires Parted(w, out, section)
    ensures exists i: nat {:trigger IsWord(w, i, MARKER)} :: IsWord(w, i, MARKER)
  {
    var gap, marker :| IsBlank(gap) && IsMarker(marker) && w == out + gap + marker + section;
    var s :| Search(s, 0).Some? && marker == s[Search(s, 0).value.0..Search(s, 0).value.1];
    var (p, e) := Search(s, 0).value;
    SearchMarks(s, 0);
    var k := MarkHasWord(s, p, e);
    var before := out + gap;
    assert w == before + marker + section;
    WordCarries(s, k, p, e, marker, w, |before|);
  }

  lemma {:induction false} MarkHasWord(s: string, p: nat, e: nat) returns (k: nat)
    requires Marks(s, p, e)
    ensures p <= k && k + |MARKER| <= e && IsWord(s, k, MARKER)
  {
    k := WordStart(s, if p == 0 && LineMatch(s, 0).Some? then 0 else p + 1);
  }

  lemma {:induction false} WordCarries(s: string, k: nat, p: nat, e: nat, marker: string, w: string, at: nat)
    requires p <= k && k + |MARKER| <= e <= |s| && IsWord(s, k, MARKER) && marker == s[p..e]
    requires at + |marker| <= |w| && w[at..at + |marker|] == marker
    ensures IsWord(w, at + (k - p), MARKER)
  {
    var part := w[at..at + |marker|];
    assert forall i :: 0 <= i < |marker| ==> part[i] == w[at + i] && marker[i] == s[p + i];
    forall i | 0 <= i < |MARKER| ensures Folded(w[at + (k - p) + i]) == MARKER[i] {
      assert part[k - p + i] == marker[k - p + i];
      assert Folded(s[k + i]) == MARKER[i];
    }
  }

  // ---- how much of a marker line is shown -------------------------------------------------------------------------

  /** Most of the hold-back is room for what decorates the word. */
  const ROOM := HOLD_BACK - |MARKER| + 1

  /** A hit is never behind the start of the marker's line, nor is what is out. */
  lemma {:induction false} HitStaysBefore(h: Hit, w: string, m: Mark)
    requires Waits(w, h, m) && IsMark(w, m)
    ensures |h.out| + Search(h.pending, 0).value.0 <= Max(m.start, |h.out|)
  {
    hide LineMatch;
    var s, a, b := h.pending, |h.out|, |h.out| + |h.pending|;
    var (i, j) := Search(s, 0).value;
    MarkParts(w, m);
    if LineMatch(s, 0).Some? {
      LineAtStart(s, i, j);
    } else {
      LineAtFeed(s, i, j);
      assert Same(s, w, a, i);
      if m.start < a + i {
        NoFeedInside(w, m, a + i);
        WordHits(s, w, a, b, m);
      }
    }
  }

  /** However the text is cut, at most this much is let out of a text with a marker line. */
  lemma {:induction false} OutStaysBefore(deltas: seq<string>, m: Mark)
    requires IsMark(Concat(deltas), m)
    ensures |Split(deltas).0| <= Max(m.start, m.word - ROOM)
  {
    hide LineMatch;
    var w := Concat(deltas);
    var (out, t) := Split(deltas);
    SplitFollows(deltas);
    MarkIsHit(deltas, m);
    var h := FirstLook(w, Looks(deltas)).value;
    LandedOut(h, w, out, t, Search(h.pending, 0).value.0);
    HitStaysBefore(h, w, m);
  }

  /** One character short of the word of the leftmost marker, nothing is hit. */
  lemma {:induction false} NotYet(s: string, w: string, b: nat, m: Mark)
    requires Window(s, w, 0, b) && IsFirst(w, m) && b == m.word + |MARKER| - 1
    ensures Search(s, 0).None?
  {
    hide LineMatch;
    if Search(s, 0).Some? {
      var (i, j) := Search(s, 0).value;
      if LineMatch(s, 0).Some? {
        LineAtStart(s, i, j);
        NoLineYet(s, w, b, m, 0, 0);
      } else {
        LineAtFeed(s, i, j);
        assert Same(s, w, 0, i);
        NoLineYet(s, w, b, m, i, i + 1);
      }
    }
  }

  lemma {:induction false} NoLineYet(s: string, w: string, b: nat, m: Mark, p: nat, k: nat)
    requires Window(s, w, 0, b) && IsFirst(w, m) && b == m.word + |MARKER| - 1
    requires (p == 0 && k == 0) || (p < b && k == p + 1 && w[p] == '\n')
    ensures LineMatch(s, k).None?
  {
    hide LineMatch;
    MarkParts(w, m);
    if LineMatch(s, k).Some? {
      WordInside(s, w, 0, b, k);
      if m.start < k {
        NoFeedInside(w, m, p);
      } else if k < m.start {
        EarlierLine(s, w, b, m, p, k);
      }
    }
  }

  /** A line in sight before the leftmost marker would be a marker itself. */
  lemma {:induction false} EarlierLine(s: string, w: string, b: nat, m: Mark, p: nat, k: nat)
    requires Window(s, w, 0, b) && IsFirst(w, m) && k <= m.feed < b && w[m.feed] == '\n'
    requires (p == 0 && k == 0) || (k == p + 1 && w[p] == '\n')
    ensures LineMatch(s, k).None?
  {
    hide LineMatch;
    if LineMatch(s, k).Some? {
      var j := LineMatch(s, k).value;
      assert Same(s, w, 0, m.feed);
      LineStops(s, k, m.feed);
      LineIsReal(s, w, 0, b, k);
      if k == 0 {
        FeedIsNoLine(w, m.feed);
        StartMarks(w, j);
      } else {
        FeedMarks(w, p, j);
        SearchReaches(w, p, j);
      }
    }
  }

  lemma {:induction false} CutInTwo(w: string, c: nat)
    requires c <= |w|
    ensures Concat([w[..c], w[c..]]) == w && Looks([w[..c], w[c..]]) == [0, c, |w|, |w|]
  {
    var one, two := [w[..c]], [w[..c], w[c..]];
    assert one[..0] == [] && two[..1] == one && two[1] == w[c..];
    assert Concat(one) == "" + w[..c] == w[..c];
    assert Concat(two) == w[..c] + w[c..] == w;
    assert Ends(one) == [0, c] && Ends(two) == [0, c, |w|];
  }

  /** Cut there, the stream lets out all but the hold-back of what has been fed. */
  lemma {:induction false} CutLooks(w: string, c: nat, m: Mark)
    requires IsFirst(w, m) && c == m.word + |MARKER| - 1 && c <= |w|
    ensures AreEnds(w, [0, c, |w|, |w|])
    ensures var h := FirstLook(w, [0, c, |w|, |w|]); h.Some? && |h.value.out| == Max(0, c - HOLD_BACK)
  {
    hide LineMatch;
    MarkParts(w, m);
    var ends := [0, c, |w|, |w|];
    assert ends[..3] == [0, c, |w|] && ends[..3][..2] == [0, c] && ends[..3][..2][..1] == [0];
    SliceIsWindow(w, 0, c);
    NotYet(w[0..c], w, c, m);
    var a := Max(0, c - HOLD_BACK);
    SliceIsWindow(w, a, |w|);
    WordHits(w[a..|w|], w, a, |w|, m);
    assert Look(w, 0, c).None? && Look(w, c, |w|).Some?;
    assert FirstLook(w, [0]).None?;
    assert FirstLook(w, [0, c]).None?;
    assert FirstLook(w, ends[..3]).Some?;
  }

  lemma {:induction false} LineShows(w: string, m: Mark)
    requires IsFirst(w, m) && m.word - m.start > ROOM
    ensures exists deltas :: Concat(deltas) == w && |Split(deltas).0| > m.start
  {
    hide LineMatch, Split, Search, Looks, IsMark, AreEnds;
    MarkParts(w, m);
    var c := m.word + |MARKER| - 1;
    CutInTwo(w, c);
    CutLooks(w, c, m);
    CutShows([w[..c], w[c..]], c - HOLD_BACK);
  }

  /** What is out before a hit stays out. */
  lemma {:induction false} CutShows(deltas: seq<string>, n: int)
    requires AreEnds(Concat(deltas), Looks(deltas)) && FirstLook(Concat(deltas), Looks(deltas)).Some?
    requires |FirstLook(Concat(deltas), Looks(deltas)).value.out| >= n
    ensures |Split(deltas).0| >= n
  {
    hide Search;
    SplitFollows(deltas);
    var h := FirstLook(Concat(deltas), Looks(deltas)).value;
    var (out, t) := Split(deltas);
    LandedOut(h, Concat(deltas), out, t, Search(h.pending, 0).value.0);
  }

  /** Some of the marker's line is shown by some cut exactly when too much comes before its
      word, whatever comes after it. */
  lemma {:induction false} LineShownIff(w: string, m: Mark)
    requires IsFirst(w, m)
    ensures (exists deltas :: Concat(deltas) == w && |Split(deltas).0| > m.start) <==> m.word - m.start > ROOM
  {
    hide LineMatch;
    hide Split;
    if m.word - m.start > ROOM {
      LineShows(w, m);
    }
    forall deltas | Concat(deltas) == w && |Split(deltas).0| > m.start ensures m.word - m.start > ROOM {
      OutStaysBefore(deltas, m);
    }
  }

  // ---- markers longer than the hold-back --------------------------------------------------------------------------

  function Stars(n: nat): string {
    seq(n, i => '*')
  }

  lemma {:induction false} StarsSkip(s: string, i: nat, n: nat)
    requires i <= n <= |s| && (forall k :: i <= k < n ==> s[k] == '*') && (n < |s| ==> !OfKind(s[n], Decoration))
    ensures Skip(s, i, Decoration) == n
    decreases n - i
  {
    if i < n {
      StarsSkip(s, i + 1, n);
    }
  }

  /** A marker line of n stars and the word. */
  lemma {:induction false} StarredLine(n: nat)
    ensures LineMatch(Stars(n) + "quotes", 0) == Some(n + 6)
  {
    var s, word := Stars(n) + "quotes", "quotes";
    assert forall k :: 0 <= k < 6 ==> s[n + k] == word[k];
    assert s[n] == 'q';
    assert Skip(s, 0, Blanks) == 0;
    StarsSkip(s, 0, n);
    assert Skip(s, n, Blanks) == n;
    assert IsWord(s, n, MARKER);
  }

  lemma {:induction false} WordHasLetter(s: string, k: nat)
    requires IsWord(s, k, MARKER)
    ensures Folded(s[k]) == 'q'
  {
    assert MARKER[0] == 'q' && s[k + 0] == s[k];
  }

  lemma {:induction false} NoLetterNoMark(s: string)
    requires forall i :: 0 <= i < |s| ==> Folded(s[i]) != 'q'
    ensures Search(s, 0).None?
  {
    if Search(s, 0).Some? {
      SearchMarks(s, 0);
      var k := MarkHasWord(s, Search(s, 0).value.0, Search(s, 0).value.1);
      WordHasLetter(s, k);
    }
  }

  const FEED := "\n"

  lemma {:induction false} StarsBreak(n: nat, hold: nat)
    requires n > hold
    ensures var s := FEED + Stars(n); s[|s| - hold..] == Stars(hold) && s[..|s| - hold] == FEED + Stars(n - hold)
  {
  }

  lemma {:induction false} FeedTakes(text: string)
    ensures TailFeed(FRESH_TAIL, text) == TakeAround(text, Search(text, 0), HOLD_BACK)
  {
    assert FRESH_TAIL.pending + text == text;
  }

  lemma {:induction false} FeedStars(n: nat)
    requires n > HOLD_BACK
    ensures TailFeed(FRESH_TAIL, FEED + Stars(n)) == (Tail(Stars(HOLD_BACK), "", false), FEED + Stars(n - HOLD_BACK))
  {
    hide Search;
    var s := FEED + Stars(n);
    NoLetterNoMark(s);
    StarsBreak(n, HOLD_BACK);
    FeedTakes(s);
  }

  lemma {:induction false} WordCloses(n: nat)
    ensures TailFeed(Tail(Stars(n), "", false), "quotes") == (Tail("", "", true), "")
  {
    var s := Stars(n) + "quotes";
    StarredLine(n);
    assert Search(s, 0) == Some((0, |s|));
    AroundAll(s, HOLD_BACK);
  }

  lemma {:induction false} AfterFeed(s: string, w: string)
    requires w == FEED + s && LineMatch(s, 0) == Some(|s|)
    ensures Search(w, 0) == Some((0, |w|))
  {
    assert w[1..|w|] == s;
    SliceIsWindow(w, 1, |w|);
    StartReal(s, w, 1, |w|, |s|);
  }

  lemma {:induction false} WholeStarred(n: nat)
    ensures var w := FEED + (Stars(n) + "quotes"); Search(w, 0) == Some((0, |w|))
  {
    var s := Stars(n) + "quotes";
    StarredLine(n);
    AfterFeed(s, FEED + s);
  }

  lemma {:induction false} RunOne(a: string)
    ensures TailRun([a]) == TailFeed(FRESH_TAIL, a)
  {
    var one := [a];
    assert one[..0] == [] && TailRun([]) == (FRESH_TAIL, "");
    var out := TailFeed(FRESH_TAIL, a).1;
    assert "" + out == out;
  }

  lemma {:induction false} RunTwo(a: string, b: string)
    ensures var (t, out) := TailRun([a]); var (t', more) := TailFeed(t, b); TailRun([a, b]) == (t', out + more)
  {
    var one, two := [a], [a, b];
    assert two[..1] == one && two[1] == b;
  }

  lemma {:induction false} SplitTaken(deltas: seq<string>, section: string)
    requires TailRun(deltas).0 == Tail("", section, true)
    ensures Split(deltas) == (TailRun(deltas).1, Tail("", section, true))
  {
    var out := TailRun(deltas).1;
    assert out + "" == out;
  }

  /** Longer markers do slip: cut before the word, the marker line is partly shown; whole, it
      is not. */
  lemma {:induction false} LongMarkerSlips(n: nat)
    requires n > HOLD_BACK
    ensures Split([FEED + Stars(n), "quotes"]) == (FEED + Stars(n - HOLD_BACK), Tail("", "", true))
    ensures Split([FEED + (Stars(n) + "quotes")]) == ("", Tail("", "", true))
  {
    SlipsWhenCut(n);
    var whole := FEED + (Stars(n) + "quotes");
    WholeStarred(n);
    RunOne(whole);
    TakesAll(whole);
    SplitTaken([whole], "");
  }

  lemma {:induction false} SlipsWhenCut(n: nat)
    requires n > HOLD_BACK
    ensures Split([FEED + Stars(n), "quotes"]) == (FEED + Stars(n - HOLD_BACK), Tail("", "", true))
  {
    var a, out := FEED + Stars(n), FEED + Stars(n - HOLD_BACK);
    RunOne(a);
    RunTwo(a, "quotes");
    FeedStars(n);
    WordCloses(HOLD_BACK);
    assert out + "" == out;
    SplitTaken([a, "quotes"], "");
  }
}
