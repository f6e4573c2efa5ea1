/** What the marker expression matches, read off the text: which stretches of it are a marker line. */
module Marker {
  import opened Common
  import opened Stream

  /** Every character of s[a..b] is one of these. */
  ghost predicate AllIn(s: string, a: nat, b: nat, chars: string) {
    a <= b <= |s| && forall k :: a <= k < b ==> s[k] in chars
  }

  /** The marker word at j, in any mix of cases; the long s is a case of s. */
  ghost predicate SpellsQuotes(s: string, j: nat) {
    j + 6 <= |s| && forall k :: 0 <= k < 6 ==>
      s[j + k] == "quotes"[k] || s[j + k] == "QUOTES"[k] || (k == 5 && s[j + k] as int == 0x17F)
  }

  /** Where the parts of a marker line end. */
  datatype Parts = Parts(blank: nat, decoration: nat, word: nat, gap: nat, colon: nat, space: nat, emphasis: nat)

  /** s[i..e] is a marker line: blanks, decoration, blanks, the word, blanks, perhaps a colon, blanks,
      emphasis and blanks, up to the end of the line. */
  ghost predicate IsLine(s: string, i: nat, e: nat, p: Parts) {
    && IsFront(s, i, p.blank, p.decoration, p.word)
    && SpellsQuotes(s, p.word)
    && IsBack(s, p.word + 6, e, p)
    && (e == |s| || s[e] == '\n')
  }

  ghost predicate IsFront(s: string, i: nat, blank: nat, decoration: nat, word: nat) {
    AllIn(s, i, blank, " \t") && AllIn(s, blank, decoration, "*_#>-") && AllIn(s, decoration, word, " \t")
  }

  ghost predicate IsBack(s: string, k: nat, e: nat, p: Parts) {
    && AllIn(s, k, p.gap, " \t")
    && p.gap <= p.colon <= |s| && (p.colon == p.gap || (p.colon == p.gap + 1 && s[p.gap] == ':'))
    && AllIn(s, p.colon, p.space, " \t") && AllIn(s, p.space, p.emphasis, "*_") && AllIn(s, p.emphasis, e, " \t")
  }

  // ---- skipping ------------------------------------------------------------------------------------------------

  ghost predicate AllOfKind(s: string, a: nat, b: nat, kind: Kind) {
    a <= b <= |s| && forall k :: a <= k < b ==> OfKind(s[k], kind)
  }

  ghost predicate StopsAt(s: string, b: nat, kind: Kind) {
    b <= |s| && (b < |s| ==> !OfKind(s[b], kind))
  }

  lemma {:induction false} SkipSpans(s: string, a: nat, kind: Kind)
    requires a <= |s|
    ensures AllOfKind(s, a, Skip(s, a, kind), kind) && StopsAt(s, Skip(s, a, kind), kind)
    decreases |s| - a
  {
    if a < |s| && OfKind(s[a], kind) {
      SkipSpans(s, a + 1, kind);
    }
  }

  lemma {:induction false} SkipReaches(s: string, a: nat, b: nat, kind: Kind)
    requires AllOfKind(s, a, b, kind)
    ensures Skip(s, a, kind) == Skip(s, b, kind)
    ensures StopsAt(s, b, kind) ==> Skip(s, a, kind) == b
    decreases b - a
  {
    if a < b {
      SkipReaches(s, a + 1, b, kind);
    }
  }

  lemma {:induction false} KindsAre(s: string, a: nat, b: nat)
    ensures AllOfKind(s, a, b, Blanks) <==> AllIn(s, a, b, " \t")
    ensures AllOfKind(s, a, b, Decoration) <==> AllIn(s, a, b, "*_#>-")
    ensures AllOfKind(s, a, b, Emphasis) <==> AllIn(s, a, b, "*_")
  {
  }

  lemma {:induction false} JoinKinds(s: string, a: nat, b: nat, c: nat, kind: Kind)
    requires AllOfKind(s, a, b, kind) && AllOfKind(s, b, c, kind)
    ensures AllOfKind(s, a, c, kind)
  {
  }

  lemma {:induction false} WordIs(s: string, j: nat)
    ensures IsWord(s, j, MARKER) <==> SpellsQuotes(s, j)
  {
    if j + 6 <= |s| {
      forall k | 0 <= k < 6
        ensures Folded(s[j + k]) == MARKER[k] <==>
                s[j + k] == "quotes"[k] || s[j + k] == "QUOTES"[k] || (k == 5 && s[j + k] as int == 0x17F)
      {
        assert k in {0, 1, 2, 3, 4, 5};
      }
    }
  }

  // ---- the front and the back of the line ----------------------------------------------------------------------

  lemma {:induction false} FrontFound(s: string, i: nat)
    requires i <= |s|
    ensures var a := Skip(s, i, Blanks); var b := Skip(s, a, Decoration); IsFront(s, i, a, b, WordStart(s, i))
  {
    var a := Skip(s, i, Blanks);
    var b := Skip(s, a, Decoration);
    SkipSpans(s, i, Blanks);
    SkipSpans(s, a, Decoration);
    SkipSpans(s, b, Blanks);
    KindsAre(s, i, a);
    KindsAre(s, a, b);
    KindsAre(s, b, WordStart(s, i));
  }

  /** However the front is read, the word starts where the scan says. */
  lemma {:induction false} FrontIsOne(s: string, i: nat, a: nat, b: nat, j: nat)
    requires IsFront(s, i, a, b, j) && StopsAt(s, j, Blanks) && StopsAt(s, j, Decoration)
    ensures WordStart(s, i) == j
  {
    KindsAre(s, i, a);
    KindsAre(s, a, b);
    KindsAre(s, b, j);
    if a == b {
      JoinKinds(s, i, a, j, Blanks);
      SkipReaches(s, i, j, Blanks);
      SkipReaches(s, j, j, Decoration);
      SkipReaches(s, j, j, Blanks);
    } else {
      assert OfKind(s[a], Decoration) && StopsAt(s, a, Blanks);
      SkipReaches(s, i, a, Blanks);
      assert b < j ==> OfKind(s[b], Blanks);
      SkipReaches(s, a, b, Decoration);
      SkipReaches(s, b, j, Blanks);
    }
  }

  function BackParts(s: string, k: nat): (p: Parts)
    requires k <= |s|
  {
    var gap := Skip(s, k, Blanks);
    var colon := PastColon(s, gap);
    var space := Skip(s, colon, Blanks);
    Parts(0, 0, 0, gap, colon, space, Skip(s, space, Emphasis))
  }

  lemma {:induction false} BackFound(s: string, k: nat)
    requires k <= |s|
    ensures IsBack(s, k, LineEnd(s, k), BackParts(s, k))
  {
    var p := BackParts(s, k);
    SkipSpans(s, k, Blanks);
    SkipSpans(s, p.colon, Blanks);
    SkipSpans(s, p.space, Emphasis);
    SkipSpans(s, p.emphasis, Blanks);
    KindsAre(s, k, p.gap);
    KindsAre(s, p.colon, p.space);
    KindsAre(s, p.space, p.emphasis);
    KindsAre(s, p.emphasis, LineEnd(s, k));
  }

  /** Blanks, emphasis and blanks up to a place that is neither. */
  lemma {:induction false} RestIsOne(s: string, a: nat, b: nat, c: nat, e: nat)
    requires AllOfKind(s, a, b, Blanks) && AllOfKind(s, b, c, Emphasis) && AllOfKind(s, c, e, Blanks)
    requires StopsAt(s, e, Blanks) && StopsAt(s, e, Emphasis)
    ensures Skip(s, Skip(s, Skip(s, a, Blanks), Emphasis), Blanks) == e
  {
    if b == c {
      JoinKinds(s, a, b, e, Blanks);
      SkipReaches(s, a, e, Blanks);
      SkipReaches(s, e, e, Emphasis);
      SkipReaches(s, e, e, Blanks);
    } else {
      assert OfKind(s[b], Emphasis) && StopsAt(s, b, Blanks);
      SkipReaches(s, a, b, Blanks);
      assert c < e ==> OfKind(s[c], Blanks);
      SkipReaches(s, b, c, Emphasis);
      SkipReaches(s, c, e, Blanks);
    }
  }

  /** However the back is read, the line ends where the scan says. */
  lemma {:induction false} BackIsOne(s: string, k: nat, e: nat, p: Parts)
    requires IsBack(s, k, e, p) && (e == |s| || s[e] == '\n')
    ensures LineEnd(s, k) == e
  {
    hide Skip;
    hide AllIn;
    KindsAre(s, k, p.gap);
    KindsAre(s, p.colon, p.space);
    KindsAre(s, p.space, p.emphasis);
    KindsAre(s, p.emphasis, e);
    RestIsOne(s, p.colon, p.space, p.emphasis, e);
    if p.colon > p.gap {
      SkipReaches(s, k, p.gap, Blanks);
    } else {
      SkipReaches(s, k, p.space, Blanks);
      BlanksThenNoColon(s, k, e, p);
    }
  }

  /** Without a colon the blanks before and after its place run together. */
  lemma {:induction false} BlanksThenNoColon(s: string, k: nat, e: nat, p: Parts)
    requires IsBack(s, k, e, p) && (e == |s| || s[e] == '\n') && p.colon == p.gap
    requires Skip(s, k, Blanks) == Skip(s, p.space, Blanks)
    requires Skip(s, Skip(s, Skip(s, p.colon, Blanks), Emphasis), Blanks) == e
    ensures LineEnd(s, k) == e
  {
    KindsAre(s, p.colon, p.space);
    KindsAre(s, p.space, p.emphasis);
    KindsAre(s, p.emphasis, e);
    var at := Skip(s, k, Blanks);
    SkipReaches(s, p.colon, p.space, Blanks);
    if p.space < p.emphasis {
      assert s[p.space] in "*_";
      SkipReaches(s, p.space, p.space, Blanks);
    } else {
      SkipReaches(s, p.space, e, Blanks);
    }
    SkipSpans(s, k, Blanks);
    SkipReaches(s, at, at, Blanks);
    assert PastColon(s, at) == at;
  }

  // ---- what matches ----------------------------------------------------------------------------------------------

  ghost predicate Line(s: string, i: nat, e: nat) {
    exists p :: IsLine(s, i, e, p)
  }

  lemma {:induction false} WordBegins(s: string, j: nat)
    requires SpellsQuotes(s, j)
    ensures StopsAt(s, j, Blanks) && StopsAt(s, j, Decoration) && s[j] !in "\n \t*_#>-"
  {
    assert s[j + 0] == "quotes"[0] || s[j + 0] == "QUOTES"[0];
  }

  lemma {:induction false} ScanIsLine(s: string, i: nat, e: nat)
    requires i <= |s| && LineMatch(s, i) == Some(e)
    ensures Line(s, i, e)
  {
    hide Skip, WordStart, LineEnd, IsWord, SpellsQuotes;
    var j := WordStart(s, i);
    WordIs(s, j);
    FrontFound(s, i);
    BackFound(s, j + 6);
    var a := Skip(s, i, Blanks);
    var back := BackParts(s, j + 6);
    var p := back.(blank := a, decoration := Skip(s, a, Decoration), word := j);
    SameBack(s, j + 6, e, back, p);
    assert IsLine(s, i, e, p);
  }

  lemma {:induction false} SameBack(s: string, k: nat, e: nat, p: Parts, p': Parts)
    requires IsBack(s, k, e, p) && p'.gap == p.gap && p'.colon == p.colon && p'.space == p.space
    requires p'.emphasis == p.emphasis
    ensures IsBack(s, k, e, p')
  {
  }

  lemma {:induction false} LineIsScanned(s: string, i: nat, e: nat, p: Parts)
    requires i <= |s| && IsLine(s, i, e, p)
    ensures LineMatch(s, i) == Some(e)
  {
    hide Skip, WordStart, LineEnd, IsWord, SpellsQuotes, IsFront, IsBack;
    WordIs(s, p.word);
    WordBegins(s, p.word);
    BackEnds(s, p.word + 6, e, p);
    FrontIsOne(s, i, p.blank, p.decoration, p.word);
    BackIsOne(s, p.word + 6, e, p);
  }

  lemma {:induction false} BackEnds(s: string, k: nat, e: nat, p: Parts)
    requires IsBack(s, k, e, p)
    ensures k <= e <= |s|
  {
  }

  /** The scan of a line finds it exactly if it is a marker line, and where it ends. */
  lemma {:induction false} LineMatchIff(s: string, i: nat, e: nat)
    requires i <= |s|
    ensures LineMatch(s, i) == Some(e) <==> Line(s, i, e)
  {
    hide LineMatch;
    if LineMatch(s, i) == Some(e) {
      ScanIsLine(s, i, e);
    }
    if p :| IsLine(s, i, e, p) {
      LineIsScanned(s, i, e, p);
    }
  }

  /** A match: a marker line at the start of the text, or after a line feed. */
  ghost predicate Matches(s: string, i: nat, e: nat) {
    (i == 0 && Line(s, 0, e)) || (i < |s| && s[i] == '\n' && Line(s, i + 1, e))
  }

  lemma {:induction false} FrontIsEmpty(s: string, a: nat, b: nat, j: nat)
    requires IsFront(s, 0, a, b, j) && s != "" && s[0] == '\n'
    ensures j == 0
  {
  }

  lemma {:induction false} NoLineAtFeed(s: string, e: nat)
    requires s != "" && s[0] == '\n'
    ensures !Line(s, 0, e)
  {
    if p :| IsLine(s, 0, e, p) {
      WordBegins(s, p.word);
      FrontIsEmpty(s, p.blank, p.decoration, p.word);
    }
  }

  lemma {:induction false} MatchAtIff(s: string, i: nat, e: nat)
    requires i <= |s|
    ensures MatchAt(s, i) == Some(e) <==> Matches(s, i, e)
  {
    if i == 0 {
      LineMatchIff(s, 0, e);
      if LineMatch(s, 0).Some? {
        LineMatchIff(s, 0, LineMatch(s, 0).value);
      }
    }
    if i < |s| && s[i] == '\n' {
      LineMatchIff(s, i + 1, e);
      if i == 0 {
        forall x: nat ensures !Line(s, 0, x) {
          NoLineAtFeed(s, x);
        }
      }
    }
  }

  /** The search finds the first match, and a match has one end. */
  lemma {:induction false} SearchIff(s: string, i: nat, e: nat)
    ensures Search(s, 0) == Some((i, e)) <==>
              i <= |s| && Matches(s, i, e) && forall k: nat, x: nat :: k < i ==> !Matches(s, k, x)
  {
    SearchFrom(s, 0, i, e);
  }

  lemma {:induction false} SearchFrom(s: string, from: nat, i: nat, e: nat)
    requires from <= |s|
    ensures Search(s, from) == Some((i, e)) <==>
              from <= i <= |s| && Matches(s, i, e) && forall k: nat, x: nat :: from <= k < i ==> !Matches(s, k, x)
    decreases |s| - from
  {
    hide Matches, MatchAt;
    MatchAtIff(s, from, e);
    forall x: nat ensures MatchAt(s, from) == Some(x) <==> Matches(s, from, x) {
      MatchAtIff(s, from, x);
    }
    if MatchAt(s, from).None? && from < |s| {
      SearchFrom(s, from + 1, i, e);
    }
  }
}
