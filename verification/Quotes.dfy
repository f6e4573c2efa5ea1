/**
 Pinpoint quotes: finding a model's quotation inside a passage after normalisation, with an
 index map back to the passage, and merging the spans found.  Unicode case folding is a
 parameter: `fold(c)` is what one character turns into.
 */
module Quotes {
  import opened Common
  import opened Text

  // ---- normalisation with an index map ----------------------------------------------------------------

  predicate IsEmphasis(c: char) {
    c == '*' || c == '_' || c == '`'
  }

  /** Typographic quotation marks and dashes become plain ones. */
  function Plain(c: char): char {
    var n := c as int;
    if n == 0x201C || n == 0x201D || n == 0x201E || n == 0xAB || n == 0xBB || n == 0x201F then '"'
    else if n == 0x2018 || n == 0x2019 || n == 0x201A || n == 0x2039 || n == 0x203A then '\''
    else if n == 0x2013 || n == 0x2014 || n == 0x2011 || n == 0x2212 then '-'
    else c
  }

  /** The scanner: text out, where each piece of it came from, and whether it is inside a run
      of white space. */
  datatype Scan = Scan(out: string, index: seq<nat>, inSpace: bool)

  const START := Scan("", [], false)

  function Step(scan: Scan, i: nat, c: char, fold: char -> string): Scan {
    if IsEmphasis(c) then scan
    else if IsSpace(c) then
      if scan.inSpace then scan else Scan(scan.out + " ", scan.index + [i], true)
    else Scan(scan.out + fold(Plain(c)), scan.index + [i], false)
  }

  /** The scan of text[lo..hi], numbered from the start of text. */
  function Scanned(text: string, lo: nat, hi: nat, fold: char -> string): Scan
    requires lo <= hi <= |text|
    decreases hi
  {
    if lo == hi then START else Step(Scanned(text, lo, hi - 1, fold), hi - 1, text[hi - 1], fold)
  }

  function Normalised(text: string, fold: char -> string): string {
    Scanned(text, 0, |text|, fold).out
  }

  function Index(text: string, fold: char -> string): seq<nat> {
    Scanned(text, 0, |text|, fold).index
  }

  /** What folding never does: lose a character, or make white space of one. */
  ghost predicate IsFold(fold: char -> string) {
    && (forall c :: |fold(c)| >= 1)
    && (forall c, k :: !IsSpace(c) && 0 <= k < |fold(Plain(c))| ==> !IsSpace(fold(Plain(c))[k]))
  }

  predicate Prints(c: char) {
    !IsEmphasis(c) && !IsSpace(c)
  }

  /** The map is aligned when every character that prints folds to one character. */
  predicate Aligned(text: string, fold: char -> string) {
    forall i :: 0 <= i < |text| && Prints(text[i]) ==> |fold(Plain(text[i]))| == 1
  }

  method Normalise(text: string, fold: char -> string) returns (out: string, index: seq<nat>)
    ensures out == Normalised(text, fold) && index == Index(text, fold)
  {
    out, index := "", [];
    var inSpace := false;
    for i := 0 to |text|
      invariant Scan(out, index, inSpace) == Scanned(text, 0, i, fold)
    {
      var raw := text[i];
      if IsEmphasis(raw) {
        continue;
      }
      if IsSpace(raw) {
        if inSpace {
          continue;
        }
        inSpace := true;
        out := out + " ";
        index := index + [i];
        continue;
      }
      inSpace := false;
      out := out + fold(Plain(raw));
      index := index + [i];
    }
  }

  // ---- facts about scans ----------------------------------------------------------------------------------

  /** Positions are strictly increasing and within what was scanned. */
  ghost predicate Increasing(index: seq<nat>, lo: nat, hi: nat) {
    && (forall k :: 0 <= k < |index| ==> lo <= index[k] < hi)
    && (forall j, k :: 0 <= j < k < |index| ==> index[j] < index[k])
  }

  lemma {:induction false} IndexIncreases(text: string, lo: nat, hi: nat, fold: char -> string)
    requires lo <= hi <= |text|
    ensures Increasing(Scanned(text, lo, hi, fold).index, lo, hi)
  {
    if lo < hi {
      IndexIncreases(text, lo, hi - 1, fold);
    }
  }

  /** A longer scan extends a shorter one, with later positions. */
  lemma {:induction false} ScansExtend(text: string, mid: nat, hi: nat, fold: char -> string)
    requires mid <= hi <= |text|
    ensures Scanned(text, 0, mid, fold).out <= Scanned(text, 0, hi, fold).out
    ensures Scanned(text, 0, mid, fold).index <= Scanned(text, 0, hi, fold).index
    ensures forall k :: |Scanned(text, 0, mid, fold).index| <= k < |Scanned(text, 0, hi, fold).index| ==>
              mid <= Scanned(text, 0, hi, fold).index[k]
  {
    if mid < hi {
      ScansExtend(text, mid, hi - 1, fold);
    }
  }

  lemma {:induction false} AlignedLengths(text: string, lo: nat, hi: nat, fold: char -> string)
    requires lo <= hi <= |text| && Aligned(text, fold)
    ensures |Scanned(text, lo, hi, fold).out| == |Scanned(text, lo, hi, fold).index|
  {
    if lo < hi {
      AlignedLengths(text, lo, hi - 1, fold);
    }
  }

  /** The map is as long as the output exactly when it is aligned, and never longer. */
  lemma {:induction false} AlignedIffLengths(text: string, n: nat, fold: char -> string)
    requires n <= |text| && IsFold(fold)
    ensures |Scanned(text, 0, n, fold).out| >= |Scanned(text, 0, n, fold).index|
    ensures |Scanned(text, 0, n, fold).out| == |Scanned(text, 0, n, fold).index| <==>
            forall i :: 0 <= i < n && Prints(text[i]) ==> |fold(Plain(text[i]))| == 1
  {
    if n > 0 {
      AlignedIffLengths(text, n - 1, fold);
    }
  }

  /** An entry of the map is a position that produced a character, and tells which. */
  lemma {:induction false} EntryAt(text: string, n: nat, k: nat, fold: char -> string)
    requires n <= |text| && Aligned(text, fold)
    requires |Scanned(text, 0, n, fold).out| == |Scanned(text, 0, n, fold).index|
      && k < |Scanned(text, 0, n, fold).index|
    ensures var i := Scanned(text, 0, n, fold).index[k];
            i < n && !IsEmphasis(text[i]) &&
            Scanned(text, 0, n, fold).out[k] == if IsSpace(text[i]) then ' ' else fold(Plain(text[i]))[0]
  {
    AlignedLengths(text, 0, n - 1, fold);
    if k < |Scanned(text, 0, n - 1, fold).index| {
      EntryAt(text, n - 1, k, fold);
    }
  }

  /** Scanning from s agrees with scanning from the start once a printing character at s has
      put both scanners in the same state. */
  lemma {:induction false} Resynchronised(text: string, s: nat, hi: nat, fold: char -> string)
    requires s < hi <= |text| && Prints(text[s])
    ensures var whole, part := Scanned(text, 0, hi, fold), Scanned(text, s, hi, fold);
            var before := Scanned(text, 0, s, fold);
            whole.out == before.out + part.out && whole.inSpace == part.inSpace
  {
    if s + 1 < hi {
      Resynchronised(text, s, hi - 1, fold);
    } else {
      assert Scanned(text, s, s, fold) == START;
    }
  }

  /** Scanning a slice is scanning that stretch of the text. */
  lemma {:induction false} SliceScans(text: string, s: nat, e: nat, hi: nat, fold: char -> string)
    requires s <= hi <= e <= |text|
    ensures var slice, part := Scanned(text[s..e], 0, hi - s, fold), Scanned(text, s, hi, fold);
            slice.out == part.out && slice.inSpace == part.inSpace
    decreases hi
  {
    if s < hi {
      SliceScans(text, s, e, hi - 1, fold);
      assert text[s..e][hi - 1 - s] == text[hi - 1];
    }
  }

  lemma {:induction false} SliceNormalises(text: string, s: nat, e: nat, fold: char -> string)
    requires s < e <= |text| && Prints(text[s])
    ensures Scanned(text, 0, e, fold).out == Scanned(text, 0, s, fold).out + Normalised(text[s..e], fold)
  {
    Resynchronised(text, s, e, fold);
    SliceScans(text, s, e, e, fold);
  }

  // ---- spellings that normalise alike ----------------------------------------------------------------------

  lemma {:induction false} PrefixScans(a: string, b: string, n: nat, fold: char -> string)
    requires n <= |a|
    ensures Scanned(a + b, 0, n, fold) == Scanned(a, 0, n, fold)
  {
    if n > 0 {
      PrefixScans(a, b, n - 1, fold);
    }
  }

  /** Two texts the scanner leaves in the same state go on alike. */
  ghost predicate ScanAlike(a: string, a': string, fold: char -> string) {
    var x, y := Scanned(a, 0, |a|, fold), Scanned(a', 0, |a'|, fold);
    x.out == y.out && x.inSpace == y.inSpace
  }

  lemma {:induction false} GoOnAlike(a: string, a': string, b: string, n: nat, fold: char -> string)
    requires ScanAlike(a, a', fold) && n <= |b|
    ensures var x, y := Scanned(a + b, 0, |a| + n, fold), Scanned(a' + b, 0, |a'| + n, fold);
            x.out == y.out && x.inSpace == y.inSpace
  {
    if n == 0 {
      PrefixScans(a, b, |a|, fold);
      PrefixScans(a', b, |a'|, fold);
    } else {
      GoOnAlike(a, a', b, n - 1, fold);
      assert (a + b)[|a| + n - 1] == b[n - 1] && (a' + b)[|a'| + n - 1] == b[n - 1];
    }
  }

  lemma {:induction false} ScansOne(a: string, c: char, fold: char -> string)
    ensures Scanned(a + [c], 0, |a| + 1, fold) == Step(Scanned(a, 0, |a|, fold), |a|, c, fold)
  {
    PrefixScans(a, [c], |a|, fold);
  }

  /** The marks that one plain mark stands for. */
  ghost predicate Spells(c: char, plain: char) {
    match plain
    case '"' => c in ['"', 0x201C as char, 0x201D as char, 0x201E as char, 0xAB as char, 0xBB as char, 0x201F as char]
    case '\'' =>
      c in ['\'', 0x2018 as char, 0x2019 as char, 0x201A as char, 0x2039 as char, 0x203A as char]
    case '-' => c in ['-', 0x2013 as char, 0x2014 as char, 0x2011 as char, 0x2212 as char]
    case ' ' => IsSpace(c)
    case _ => c == plain
  }

  /** A quotation mark, an apostrophe, a dash or a blank may be spelled in any of its ways, a blank may
      be repeated, and `*`, `_` and backquotes may stand anywhere: the text normalises alike. */
  lemma {:induction false} SpellingsAgree(a: string, b: string, c: char, plain: char, fold: char -> string)
    requires Spells(c, plain)
    ensures Normalised(a + [c] + b, fold) == Normalised(a + [plain] + b, fold)
    ensures IsSpace(c) ==> Normalised(a + [c] + [plain] + b, fold) == Normalised(a + [plain] + b, fold)
    ensures c in "*_`" ==> Normalised(a + [c] + b, fold) == Normalised(a + b, fold)
  {
    hide Scanned;
    ScansOne(a, c, fold);
    ScansOne(a, plain, fold);
    ScansOne(a + [c], plain, fold);
    assert ScanAlike(a + [c], a + [plain], fold);
    GoOnAlike(a + [c], a + [plain], b, |b|, fold);
    if IsSpace(c) {
      GoOnAlike(a + [c] + [plain], a + [plain], b, |b|, fold);
    }
    if c in "*_`" {
      GoOnAlike(a + [c], a, b, |b|, fold);
    }
  }

  /** Anything else that prints comes out case folded, where it stands. */
  lemma {:induction false} PrintedFolds(a: string, c: char, fold: char -> string)
    ensures Normalised("", fold) == ""
    ensures c !in "*_`" && !IsSpace(c) && (forall plain :: plain in "\"'-" ==> !Spells(c, plain)) ==>
              Normalised(a + [c], fold) == Normalised(a, fold) + fold(c)
    ensures c in "\"'-" ==> Normalised(a + [c], fold) == Normalised(a, fold) + fold(c)
    ensures IsSpace(c) && (a == "" || (a[|a| - 1] !in "*_`" && !IsSpace(a[|a| - 1]))) ==>
              Normalised(a + [c], fold) == Normalised(a, fold) + " "
  {
    ScansOne(a, c, fold);
    if forall plain :: plain in "\"'-" ==> !Spells(c, plain) {
      assert '"' in "\"'-" && '\'' in "\"'-" && '-' in "\"'-";
      assert !Spells(c, '"') && !Spells(c, '\'') && !Spells(c, '-');
    }
  }

  // ---- locating a quotation ---------------------------------------------------------------------------------

  predicate OccursAt(needle: string, hay: string, i: nat) {
    i + |needle| <= |hay| && hay[i..i + |needle|] == needle
  }

  /** The leftmost occurrence at or after i. */
  function Find(hay: string, needle: string, i: nat): (r: Option<nat>)
    requires i <= |hay|
    ensures r.Some? ==> i <= r.value && OccursAt(needle, hay, r.value)
    ensures forall k :: i <= k && (r.Some? ==> k < r.value) ==> !OccursAt(needle, hay, k)
    decreases |hay| - i
  {
    if OccursAt(needle, hay, i) then Some(i)
    else if i < |hay| then Find(hay, needle, i + 1)
    else None
  }

  const MIN_QUOTE_CHARS := 3

  /** `Raised` is an index past the end of the map; `Unmatched` leaves it to the fuzzy search. */
  datatype Verdict = Refused | Exact(start: nat, end: nat) | Normalized(start: nat, end: nat) | Raised | Unmatched

  function Locate(quote: string, text: string, fold: char -> string): Verdict {
    var stripped := Strip(quote);
    if text == "" || |stripped| < MIN_QUOTE_CHARS then Refused
    else
      var at := Find(text, stripped, 0);
      if at.Some? then Exact(at.value, at.value + |stripped|)
      else LocateNormalised(Strip(Normalised(stripped, fold)), Normalised(text, fold), Index(text, fold))
  }

  function LocateNormalised(quote: string, text: string, index: seq<nat>): Verdict {
    if quote == "" then Refused
    else
      var at := Find(text, quote, 0);
      if at.None? then Unmatched
      else if at.value + |quote| - 1 >= |index| then Raised
      else Normalized(index[at.value], index[at.value + |quote| - 1] + 1)
  }

  ghost predicate Occurs(needle: string, hay: string) {
    exists i :: 0 <= i && OccursAt(needle, hay, i)
  }

  /** i is the first place where the needle occurs. */
  ghost predicate FirstAt(needle: string, hay: string, i: nat) {
    OccursAt(needle, hay, i) && forall k :: 0 <= k < i ==> !OccursAt(needle, hay, k)
  }

  /** A normalised hit spans what the map gives for its first and last character, if it gives both. */
  ghost predicate HitAt(verdict: Verdict, wanted: string, out: string, index: seq<nat>, at: nat) {
    && FirstAt(wanted, out, at) && wanted != ""
    && verdict == if at + |wanted| <= |index| then Normalized(index[at], index[at + |wanted| - 1] + 1) else Raised
  }

  lemma {:induction false} FirstIsOne(needle: string, hay: string, i: nat, j: nat)
    requires FirstAt(needle, hay, i) && FirstAt(needle, hay, j)
    ensures i == j
  {
  }

  /** Which verdict a lookup comes to, by where the quotation occurs: verbatim in the passage, or
      normalised in the normalised passage, the first place counting in either. */
  lemma {:induction false} VerdictIff(quote: string, text: string, fold: char -> string)
    ensures var verdict, stripped := Locate(quote, text, fold), Strip(quote);
            var wanted, out, index := Strip(Normalised(stripped, fold)), Normalised(text, fold), Index(text, fold);
            var asked := |stripped| >= 3 && text != "";
            && (verdict == Refused <==> !asked || (!Occurs(stripped, text) && wanted == ""))
            && (forall s: nat, e: nat ::
                  verdict == Exact(s, e) <==> asked && FirstAt(stripped, text, s) && e == s + |stripped|)
            && (verdict.Exact? <==> asked && Occurs(stripped, text))
            && (verdict.Normalized? || verdict.Raised? <==>
                asked && !Occurs(stripped, text) && wanted != "" && Occurs(wanted, out))
            && (verdict.Normalized? || verdict.Raised? ==>
                exists at :: HitAt(verdict, wanted, out, index, at))
            && (verdict == Unmatched <==>
                asked && !Occurs(stripped, text) && wanted != "" && !Occurs(wanted, out))
  {
    var verdict, stripped := Locate(quote, text, fold), Strip(quote);
    if text != "" && |stripped| >= 3 {
      FindsFirst(stripped, text);
      if !Occurs(stripped, text) {
        NormalisedVerdict(Strip(Normalised(stripped, fold)), Normalised(text, fold), Index(text, fold));
      }
      forall s: nat, e: nat
        ensures verdict == Exact(s, e) <==> FirstAt(stripped, text, s) && e == s + |stripped|
      {
        if FirstAt(stripped, text, s) {
          FirstIsOne(stripped, text, s, Find(text, stripped, 0).value);
        }
      }
    }
  }

  lemma {:induction false} FindsFirst(needle: string, hay: string)
    ensures Find(hay, needle, 0).Some? <==> Occurs(needle, hay)
    ensures Find(hay, needle, 0).Some? ==> FirstAt(needle, hay, Find(hay, needle, 0).value)
  {
  }

  lemma {:induction false} NormalisedVerdict(wanted: string, out: string, index: seq<nat>)
    ensures var verdict := LocateNormalised(wanted, out, index);
            && !verdict.Exact?
            && (verdict == Refused <==> wanted == "")
            && (verdict == Unmatched <==> wanted != "" && !Occurs(wanted, out))
            && (verdict.Normalized? || verdict.Raised? ==>
                exists at :: HitAt(verdict, wanted, out, index, at))
  {
    FindsFirst(wanted, out);
    if wanted != "" && Occurs(wanted, out) {
      var at := Find(out, wanted, 0).value;
      assert HitAt(LocateNormalised(wanted, out, index), wanted, out, index, at);
    }
  }

  /** The promise of a normalised hit: the span is inside the passage and, normalised on its
      own, reads exactly as the stripped normalised quotation. */
  ghost predicate HitIsFaithful(quote: string, text: string, fold: char -> string) {
    match Locate(quote, text, fold)
    case Refused => true
    case Exact(s, e) => s < e <= |text| && text[s..e] == Strip(quote)
    case Normalized(s, e) => s < e <= |text| && Normalised(text[s..e], fold) == Strip(Normalised(Strip(quote), fold))
    case Raised => false
    case Unmatched => true
  }

  /** Every character of a scan's output is a space or printable. */
  lemma {:induction false} SpanReadsBack(text: string, at: nat, n: nat, fold: char -> string)
    requires Aligned(text, fold) && IsFold(fold) && n > 0
    requires at + n <= |Normalised(text, fold)|
    requires !IsSpace(Normalised(text, fold)[at])
    ensures at + n <= |Index(text, fold)|
    ensures var s, e := Index(text, fold)[at], Index(text, fold)[at + n - 1] + 1;
            s < e <= |text| && Normalised(text[s..e], fold) == Normalised(text, fold)[at..at + n]
  {
    var index := Index(text, fold);
    var whole := Normalised(text, fold);
    AlignedLengths(text, 0, |text|, fold);
    IndexIncreases(text, 0, |text|, fold);
    var s, e := index[at], index[at + n - 1] + 1;
    EntryAt(text, |text|, at, fold);
    EntryCount(text, s, at, fold);
    EntryCount(text, e, at + n, fold);
    SliceNormalises(text, s, e, fold);
    ScansExtend(text, s, |text|, fold);
    ScansExtend(text, e, |text|, fold);
    Sandwich(Scanned(text, 0, s, fold).out, Normalised(text[s..e], fold), whole, at, n);
  }

  lemma {:induction false} Sandwich(before: string, middle: string, whole: string, at: nat, n: nat)
    requires |before| == at && before + middle <= whole && |before + middle| == at + n
    ensures middle == whole[at..at + n]
  {
    assert whole[..at + n] == before + middle;
    assert middle == (before + middle)[at..];
  }

  /** How much has been put out before position i, read off the map. */
  lemma {:induction false} EntryCount(text: string, i: nat, k: nat, fold: char -> string)
    requires Aligned(text, fold) && i <= |text| && k <= |Index(text, fold)|
    requires k > 0 ==> Index(text, fold)[k - 1] < i
    requires k < |Index(text, fold)| ==> i <= Index(text, fold)[k]
    ensures |Scanned(text, 0, i, fold).out| == k
  {
    ScansExtend(text, i, |text|, fold);
    AlignedLengths(text, 0, i, fold);
    IndexIncreases(text, 0, i, fold);
    IndexIncreases(text, 0, |text|, fold);
    var part, index := Scanned(text, 0, i, fold).index, Index(text, fold);
    assert forall j :: 0 <= j < |part| ==> part[j] == index[j] && index[j] < i;
    var next := if |part| < |index| then index[|part|] else i;
    assert i <= next;
  }

  lemma {:induction false} StripEnds(s: string)
    ensures Strip(s) != "" ==> !IsSpace(Strip(s)[0]) && !IsSpace(Strip(s)[|Strip(s)| - 1])
  {
    LStripParts(s);
    RStripParts(LStrip(s));
  }

  lemma {:induction false} AlignedIsFaithful(quote: string, text: string, fold: char -> string)
    requires IsFold(fold) && Aligned(text, fold)
    ensures HitIsFaithful(quote, text, fold)
  {
    var stripped := Strip(quote);
    if |stripped| >= MIN_QUOTE_CHARS && text != "" && Find(text, stripped, 0).None? {
      var wanted := Strip(Normalised(stripped, fold));
      var at := Find(Normalised(text, fold), wanted, 0);
      if wanted != "" && at.Some? {
        StripEnds(Normalised(stripped, fold));
        assert Normalised(text, fold)[at.value] == wanted[0];
        SpanReadsBack(text, at.value, |wanted|, fold);
      }
    }
  }

  // ---- and only then ------------------------------------------------------------------------------------------

  /** The output ends with a space exactly while the scanner is inside white space, which then
      is where its last map entry points; and it never has two spaces in a row. */
  ghost predicate Spaced(text: string, scan: Scan) {
    && (scan.inSpace <==> scan.out != "" && IsSpace(scan.out[|scan.out| - 1]))
    && (scan.inSpace ==>
        scan.index != [] && scan.index[|scan.index| - 1] < |text|
        && IsSpace(text[scan.index[|scan.index| - 1]]))
    && (forall k :: 0 < k < |scan.out| && IsSpace(scan.out[k]) ==> !IsSpace(scan.out[k - 1]))
  }

  lemma {:induction false} ScansSpace(text: string, lo: nat, hi: nat, fold: char -> string)
    requires lo <= hi <= |text| && IsFold(fold)
    ensures Spaced(text, Scanned(text, lo, hi, fold))
  {
    if lo < hi {
      ScansSpace(text, lo, hi - 1, fold);
      var before, c := Scanned(text, lo, hi - 1, fold), text[hi - 1];
      if Prints(c) {
        assert !IsSpace(fold(Plain(c))[|fold(Plain(c))| - 1]);
      }
    }
  }

  /** Something that prints stays in the output. */
  lemma {:induction false} PrintedStays(text: string, i: nat, hi: nat, fold: char -> string)
    requires i < hi <= |text| && Prints(text[i]) && IsFold(fold)
    ensures !IsBlank(Scanned(text, 0, hi, fold).out)
  {
    if i == hi - 1 {
      var scan := Scanned(text, 0, hi, fold);
      ScansSpace(text, 0, hi, fold);
      assert !scan.inSpace && scan.out != "";
    } else {
      PrintedStays(text, i, hi - 1, fold);
      var before := Scanned(text, 0, hi - 1, fold).out;
      var k :| 0 <= k < |before| && !IsSpace(before[k]);
      assert Scanned(text, 0, hi, fold).out[k] == before[k];
    }
  }

  /** Emphasis marks around a text vanish. */
  function Starred(text: string): string {
    "**" + text + "**"
  }

  lemma {:induction false} StarsVanish(text: string, n: nat, fold: char -> string)
    requires n <= |text|
    ensures var inner, outer := Scanned(text, 0, n, fold), Scanned(Starred(text), 0, n + 2, fold);
            outer.out == inner.out && outer.inSpace == inner.inSpace
  {
    var starred := Starred(text);
    if n == 0 {
      assert starred[0] == '*' && starred[1] == '*';
      assert Scanned(starred, 0, 1, fold) == START;
    } else {
      StarsVanish(text, n - 1, fold);
      assert starred[n + 1] == text[n - 1];
    }
  }

  lemma {:induction false} StarredNormalises(text: string, fold: char -> string)
    ensures Normalised(Starred(text), fold) == Normalised(text, fold)
  {
    var starred, n := Starred(text), |text|;
    StarsVanish(text, n, fold);
    assert |starred| == n + 4 && starred[n + 2] == '*' && starred[n + 3] == '*';
    assert Scanned(starred, 0, n + 3, fold) == Scanned(starred, 0, n + 2, fold);
  }

  lemma {:induction false} StarredStrips(text: string)
    ensures Strip(Starred(text)) == Starred(text)
  {
    var s := Starred(text);
    assert s[0] == '*' && s[|s| - 1] == '*';
  }

  lemma {:induction false} CoreSits(s: string)
    ensures var lead, core := |s| - |LStrip(s)|, Strip(s);
            && 0 <= lead && lead + |core| <= |s| && core == s[lead..lead + |core|]
            && IsBlank(s[..lead]) && IsBlank(s[lead + |core|..])
  {
    var left, core := LStrip(s), Strip(s);
    LStripParts(s);
    RStripParts(left);
    var lead := |s| - |left|;
    assert s[lead + |core|..] == left[|core|..];
    assert s[lead..lead + |core|] == left[..|core|];
  }

  lemma {:induction false} AtMostOne(out: string, i: nat, j: nat)
    requires i <= j <= |out| && IsBlank(out[i..j])
    requires forall k :: 0 < k < |out| && IsSpace(out[k]) ==> !IsSpace(out[k - 1])
    ensures j - i <= 1 && (i < j ==> IsSpace(out[i]))
  {
    forall k | i <= k < j ensures IsSpace(out[k]) {
      assert out[k] == out[i..j][k - i];
    }
    if i + 1 < |out| {
      assert IsSpace(out[i + 1]) ==> !IsSpace(out[i]);
    }
  }

  /** What stripping leaves sits between at most one space on either side, and is first found
      there. */
  lemma {:induction false} StrippedSits(text: string, fold: char -> string, out: string, core: string)
    requires IsFold(fold) && out == Normalised(text, fold) && core == Strip(out) && !IsBlank(out)
    ensures core != "" && Find(out, core, 0).Some?
    ensures |out| - 1 <= Find(out, core, 0).value + |core| <= |out|
    ensures Find(out, core, 0).value + |core| < |out| ==> IsSpace(out[|out| - 1])
  {
    var lead := |out| - |LStrip(out)|;
    BlankStrips(out);
    CoreSits(out);
    StripEnds(out);
    ScansSpace(text, 0, |text|, fold);
    assert out[..lead] == out[0..lead] && out[lead + |core|..] == out[lead + |core|..|out|];
    AtMostOne(out, 0, lead);
    AtMostOne(out, lead + |core|, |out|);
    FoundAtLead(out, core, lead);
  }

  lemma {:induction false} FoundAtLead(out: string, core: string, lead: nat)
    requires core != "" && OccursAt(core, out, lead) && lead <= 1 && (lead == 1 ==> IsSpace(out[0]))
      && !IsSpace(core[0])
    ensures Find(out, core, 0) == Some(lead)
  {
    assert OccursAt(core, out, 0) ==> out[0] == out[0..|core|][0];
  }

  /** A span that ends in white space normalises to something that does. */
  lemma {:induction false} TrailingSpaceShows(text: string, s: nat, last: nat, fold: char -> string)
    requires s <= last < |text| && IsSpace(text[last]) && IsFold(fold)
    ensures var out := Normalised(text[s..last + 1], fold); out != "" && IsSpace(out[|out| - 1])
  {
    var slice := text[s..last + 1];
    assert slice[|slice| - 1] == text[last];
    ScansSpace(slice, 0, |slice|, fold);
    assert Scanned(slice, 0, |slice|, fold).inSpace;
  }

  /** Looking a misaligned passage's own text up in it: off the map, or a span that reads
      differently. */
  lemma {:induction false} LookupFails(text: string, fold: char -> string, out: string, core: string, index: seq<nat>)
    requires IsFold(fold) && out == Normalised(text, fold) && core == Strip(out) && !IsBlank(out)
    requires index == Index(text, fold) && |index| < |out|
    ensures var verdict := LocateNormalised(core, out, index);
            verdict.Raised? || (verdict.Normalized? && verdict.start <= verdict.end <= |text| &&
                                Normalised(text[verdict.start..verdict.end], fold) != core)
  {
    StrippedSits(text, fold, out, core);
    var at := Find(out, core, 0).value;
    if at + |core| - 1 < |index| {
      IndexIncreases(text, 0, |text|, fold);
      ScansSpace(text, 0, |text|, fold);
      assert at + |core| == |index|;
      TrailingSpaceShows(text, index[at], index[|index| - 1], fold);
      StripEnds(out);
    }
  }

  /** A passage whose map is not aligned defeats a quotation of itself. */
  lemma {:induction false} MisalignedIsUnfaithful(text: string, fold: char -> string)
    requires IsFold(fold) && !Aligned(text, fold)
    ensures !HitIsFaithful(Starred(text), text, fold)
  {
    var quote := Starred(text);
    StarredStrips(text);
    StarredNormalises(text, fold);
    assert |quote| > |text| && Find(text, quote, 0).None?;
    var i :| 0 <= i < |text| && Prints(text[i]) && |fold(Plain(text[i]))| != 1;
    PrintedStays(text, i, |text|, fold);
    AlignedIffLengths(text, |text|, fold);
    var out, index := Normalised(text, fold), Index(text, fold);
    LookupFails(text, fold, out, Strip(out), index);
    assert Locate(quote, text, fold) == LocateNormalised(Strip(out), out, index);
  }

  /** The index map does its job for every quotation exactly when case folding turns each
      printing character of the passage into one character. */
  lemma {:induction false} LocateFaithfulIff(text: string, fold: char -> string)
    requires IsFold(fold)
    ensures Aligned(text, fold) <==> forall quote :: HitIsFaithful(quote, text, fold)
  {
    if Aligned(text, fold) {
      forall quote ensures HitIsFaithful(quote, text, fold) {
        AlignedIsFaithful(quote, text, fold);
      }
    } else {
      MisalignedIsUnfaithful(text, fold);
    }
  }

  /** What a passage normalises to, up to its last printing character, is longer than its map. */
  predicate Overruns(text: string, fold: char -> string) {
    |RStrip(Normalised(text, fold))| > |Index(text, fold)|
  }

  lemma {:induction false} RaisingOverruns(quote: string, text: string, fold: char -> string)
    requires Locate(quote, text, fold).Raised?
    ensures Overruns(text, fold)
  {
    var out, wanted := Normalised(text, fold), Strip(Normalised(Strip(quote), fold));
    var at, kept := Find(out, wanted, 0).value, RStrip(out);
    StripEnds(Normalised(Strip(quote), fold));
    RStripParts(out);
    var last := at + |wanted| - 1;
    assert out[last] == out[at..at + |wanted|][|wanted| - 1];
    PrintingIsKept(out, last, kept);
  }

  lemma {:induction false} PrintingIsKept(out: string, i: nat, kept: string)
    requires i < |out| && !IsSpace(out[i]) && |kept| <= |out| && IsBlank(out[|kept|..])
    ensures i < |kept|
  {
    assert forall k :: |kept| <= k < |out| ==> out[|kept|..][k - |kept|] == out[k];
  }

  /** Where the stripped text ends in the whole is where its trailing white space begins. */
  lemma {:induction false} StrippedEnds(text: string, fold: char -> string, out: string, core: string)
    requires IsFold(fold) && out == Normalised(text, fold) && core == Strip(out) && !IsBlank(out)
    ensures core != "" && Find(out, core, 0).Some? && Find(out, core, 0).value + |core| == |RStrip(out)|
  {
    StrippedSits(text, fold, out, core);
    StripEnds(out);
    ScansSpace(text, 0, |text|, fold);
    var end := Find(out, core, 0).value + |core|;
    assert out[end - 1] == core[|core| - 1];
    if end < |out| {
      assert out[..|out| - 1][end - 1] == out[end - 1];
      assert RStrip(out) == RStrip(out[..|out| - 1]);
    }
  }

  lemma {:induction false} BlankEnds(s: string)
    ensures IsBlank(s) <==> RStrip(s) == ""
  {
    RStripParts(s);
    var r := RStrip(s);
    assert r != "" ==> s[|r| - 1] == r[|r| - 1];
    assert s[0..] == s;
  }

  /** Quoting all of it, in whatever spelling normalises alike, does. */
  lemma {:induction false} OverrunRaises(quote: string, text: string, fold: char -> string)
    requires IsFold(fold) && Overruns(text, fold)
    requires Strip(quote) == quote && |quote| > |text| + 3 && Normalised(quote, fold) == Normalised(text, fold)
    ensures Locate(quote, text, fold).Raised?
  {
    var out := Normalised(text, fold);
    RStripParts(out);
    BlankEnds(out);
    StrippedEnds(text, fold, out, Strip(out));
    assert Find(text, quote, 0).None?;
  }

  /** Some quotation drives the lookup off the map exactly when the passage overruns it. */
  lemma {:induction false} RaisesIff(text: string, fold: char -> string)
    requires IsFold(fold)
    ensures (exists quote :: Locate(quote, text, fold).Raised?) <==> Overruns(text, fold)
  {
    if Overruns(text, fold) {
      StarredStrips(text);
      StarredNormalises(text, fold);
      OverrunRaises(Starred(text), text, fold);
    }
    forall quote | Locate(quote, text, fold).Raised? ensures Overruns(text, fold) {
      RaisingOverruns(quote, text, fold);
    }
  }

  /** The German sharp s, which folds to two letters, is such a passage. */
  lemma {:induction false} SharpSRaises(fold: char -> string)
    requires IsFold(fold) && fold(0xDF as char) == "ss"
    ensures var text := [0xDF as char]; Locate(Starred(text), text, fold) == Raised
  {
    var text := [0xDF as char];
    var quote := Starred(text);
    StarredStrips(text);
    StarredNormalises(text, fold);
    assert Find(text, quote, 0).None?;
    assert Scanned(text, 0, 0, fold) == START;
    var core := "ss";
    assert Normalised(text, fold) == core && |Index(text, fold)| == 1;
    assert LStrip(core) == core && RStrip(core) == core;
    assert OccursAt(core, core, 0);
  }
}
