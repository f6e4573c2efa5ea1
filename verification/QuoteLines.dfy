/** How quotations and citations are written: what a line, a section and an answer must look like to be
    read as they are. */
module QuoteLines {
  import opened Common
  import opened Quotes
  import opened Resolution
  import opened Text

  // ---- a quotation line --------------------------------------------------------------------------------------

  ghost predicate AllDigits(s: string) {
    s != "" && forall i :: 0 <= i < |s| ==> IsDigit(s[i])
  }

  ghost predicate AllWrapping(s: string) {
    forall i :: 0 <= i < |s| ==> IsWrapping(s[i])
  }

  /** Quotation marks, with blanks around them. */
  datatype Wrap = Wrap(outer: string, marks: string, inner: string)

  /** The marks a quotation may stand in: double and single ones in all their spellings, and backquotes. */
  lemma {:induction false} MarksAre(c: char)
    ensures IsWrapping(c) <==> c == '`' || Spells(c, '"') || Spells(c, '\'')
  {
  }

  /** The parts of a line that quotes. */
  datatype Written = Written(lead: string, bullet: string, mid: string, digits: string, gap: string, colon: string,
                             open: Wrap, quote: string, close: Wrap)

  ghost predicate IsWrap(w: Wrap) {
    && IsBlank(w.outer) && IsBlank(w.inner) && AllWrapping(w.marks)
    && (w.marks == "" ==> w.inner == "")
  }

  /** The character at this end of the quotation belongs to it. */
  ghost predicate Ends(w: Wrap, c: char) {
    !IsSpace(c) && (IsWrapping(c) ==> w.inner != "")
  }

  function Wrapped(w: Written): string {
    w.open.outer + Unspaced(w) + w.close.outer
  }

  function Unspaced(w: Written): string {
    w.open.marks + Unmarked(w) + w.close.marks
  }

  function Unmarked(w: Written): string {
    w.open.inner + w.quote + w.close.inner
  }

  ghost predicate IsWritten(w: Written) {
    && IsBlank(w.lead) && w.bullet in ["", "-", "*", [0x2022 as char]] && IsBlank(w.mid)
    && (w.bullet == "" ==> w.mid == "")
    && AllDigits(w.digits) && IsBlank(w.gap) && w.colon in ["", ":"]
    && IsWrap(w.open) && IsWrap(w.close)
    && |w.quote| >= 3 && Ends(w.open, w.quote[0]) && Ends(w.close, w.quote[|w.quote| - 1])
    && (w.colon == "" ==> w.open.marks != "" || w.quote[0] != ':')
  }

  function AfterNumber(w: Written): string {
    w.gap + (w.colon + Wrapped(w))
  }

  function FromNumber(w: Written): string {
    ['['] + w.digits + [']'] + AfterNumber(w)
  }

  /** The line: blanks, perhaps a bullet and blanks, the number in brackets, blanks, perhaps a colon, and
      the quotation inside blanks and quotation marks. */
  function Line(w: Written): string {
    w.lead + (w.bullet + (w.mid + FromNumber(w)))
  }

  lemma {:induction false} LStripsBlank(blank: string, rest: string)
    requires IsBlank(blank) && rest != "" && !IsSpace(rest[0])
    ensures LStrip(blank + rest) == rest
  {
    BlankStrips(blank);
    LStripExtends(blank, rest);
  }

  lemma {:induction false} RStripsBlank(rest: string, blank: string)
    requires IsBlank(blank) && rest != "" && !IsSpace(rest[|rest| - 1])
    ensures RStrip(rest + blank) == rest
  {
    if blank == "" {
      assert rest + blank == rest;
    } else {
      var n := |blank| - 1;
      assert (rest + blank)[..|rest + blank| - 1] == rest + blank[..n];
      RStripsBlank(rest, blank[..n]);
    }
  }

  lemma {:induction false} StripsBlanks(a: string, core: string, b: string)
    requires IsBlank(a) && IsBlank(b) && core != "" && !IsSpace(core[0]) && !IsSpace(core[|core| - 1])
    ensures LStrip(a + core + b) == core + b && Strip(a + core + b) == core && Strip(core + b) == core
  {
    assert a + core + b == a + (core + b);
    LStripsBlank(a, core + b);
    LStripsBlank("", core + b);
    assert "" + (core + b) == core + b;
    RStripsBlank(core, b);
  }

  lemma {:induction false} LUnwraps(marks: string, rest: string)
    requires AllWrapping(marks) && rest != "" && !IsWrapping(rest[0])
    ensures LUnwrap(marks + rest) == rest
  {
    if marks == "" {
      assert marks + rest == rest;
    } else {
      assert (marks + rest)[1..] == marks[1..] + rest;
      LUnwraps(marks[1..], rest);
    }
  }

  lemma {:induction false} RUnwraps(rest: string, marks: string)
    requires AllWrapping(marks) && rest != "" && !IsWrapping(rest[|rest| - 1])
    ensures RUnwrap(rest + marks) == rest
  {
    if marks == "" {
      assert rest + marks == rest;
    } else {
      var n := |marks| - 1;
      assert (rest + marks)[..|rest + marks| - 1] == rest + marks[..n];
      RUnwraps(rest, marks[..n]);
    }
  }

  lemma {:induction false} SpaceIsNoMark(c: char)
    ensures IsSpace(c) ==> !IsWrapping(c)
  {
  }

  lemma {:induction false} Unwraps(w: Written)
    requires IsWrap(w.open) && IsWrap(w.close) && w.quote != ""
    requires Ends(w.open, w.quote[0]) && Ends(w.close, w.quote[|w.quote| - 1])
    ensures var s := Unspaced(w);
            && s != "" && !IsSpace(s[0]) && !IsSpace(s[|s| - 1])
            && Strip(RUnwrap(LUnwrap(s))) == w.quote
  {
    hide IsSpace, IsWrapping, LUnwrap, RUnwrap, Strip;
    var inner := Unmarked(w);
    var first, last := inner[0], inner[|inner| - 1];
    SpaceIsNoMark(first);
    SpaceIsNoMark(last);
    assert Unspaced(w) == w.open.marks + (inner + w.close.marks);
    LUnwraps(w.open.marks, inner + w.close.marks);
    RUnwraps(inner, w.close.marks);
    StripsBlanks(w.open.inner, w.quote, w.close.inner);
    var s := Unspaced(w);
    SpaceIsNoMark(s[0]);
    SpaceIsNoMark(s[|s| - 1]);
  }

  lemma {:induction false} RestReads(w: Written)
    requires IsWritten(w)
    ensures var rest := LStrip(AfterNumber(w));
            Strip(RUnwrap(LUnwrap(Strip(Skipping(rest, rest != "" && rest[0] == ':'))))) == w.quote
  {
    hide LUnwrap, RUnwrap;
    Unwraps(w);
    var core, after := Unspaced(w), AfterNumber(w);
    StripsBlanks(w.open.outer, core, w.close.outer);
    assert LStrip(Wrapped(w)) == core + w.close.outer;
    if w.colon == "" {
      assert w.colon + Wrapped(w) == Wrapped(w);
      BlankStrips(w.gap);
      LStripExtends(w.gap, Wrapped(w));
      assert core[0] == if w.open.marks != "" then w.open.marks[0] else w.quote[0];
      assert core[0] != ':';
    } else {
      LStripsBlank(w.gap, w.colon + Wrapped(w));
      assert (w.colon + Wrapped(w))[1..] == Wrapped(w);
    }
  }

  lemma {:induction false} NumberReads(digits: string, rest: string)
    requires AllDigits(digits)
    ensures var s := ['['] + digits + [']'] + rest;
            && Bracketed(s, 0) == Some((Number(digits), |digits| + 2))
            && s[|digits| + 2..] == rest
  {
    var s, j := ['['] + digits + [']'] + rest, 1 + |digits|;
    assert s[1..j] == digits && s[j] == ']';
    assert forall k :: 1 <= k < j ==> s[k] == digits[k - 1];
    DigitsReach(s, 1, j);
  }

  lemma {:induction false} FrontReads(w: Written)
    requires IsWritten(w)
    ensures var s := LStrip(Line(w)); Skipping(s, s != "" && IsBullet(s[0])) == FromNumber(w)
  {
    var from := FromNumber(w);
    assert from[0] == '[';
    if w.bullet == "" {
      assert w.bullet + (w.mid + from) == from;
      LStripsBlank(w.lead, from);
    } else {
      LStripsBlank(w.lead, w.bullet + (w.mid + from));
      assert (w.bullet + (w.mid + from))[1..] == w.mid + from;
      LStripsBlank(w.mid, from);
    }
  }

  /** A quotation written in any of these ways is read, with its number. */
  lemma {:induction false} WrittenIsRead(w: Written)
    requires IsWritten(w)
    ensures QuoteLine(Line(w)) == Some((Number(w.digits), w.quote))
  {
    FrontReads(w);
    NumberReads(w.digits, AfterNumber(w));
    RestReads(w);
  }

  // ---- and only so -------------------------------------------------------------------------------------------

  lemma {:induction false} BracketedWas(s: string)
    requires Bracketed(s, 0).Some?
    ensures var end := Bracketed(s, 0).value.1;
            var digits := s[1..end - 1];
            && AllDigits(digits) && Bracketed(s, 0).value.0 == Number(digits)
            && s == ['['] + digits + [']'] + s[end..]
  {
    DigitsAre(s, 1);
  }

  lemma {:induction false} DigitsAre(s: string, i: nat)
    requires i <= |s|
    ensures forall k :: i <= k < DigitsEnd(s, i) ==> IsDigit(s[k])
    decreases |s| - i
  {
    if i < |s| && IsDigit(s[i]) {
      DigitsAre(s, i + 1);
    }
  }

  lemma {:induction false} LUnwrapParts(s: string)
    ensures var r := LUnwrap(s);
            |r| <= |s| && s == s[..|s| - |r|] + r && AllWrapping(s[..|s| - |r|]) && (r != "" ==> !IsWrapping(r[0]))
  {
    if s != "" && IsWrapping(s[0]) {
      LUnwrapParts(s[1..]);
      var r := LUnwrap(s);
      assert s[..|s| - |r|] == [s[0]] + s[1..][..|s| - 1 - |r|];
    }
  }

  lemma {:induction false} RUnwrapParts(s: string)
    ensures var r := RUnwrap(s);
            |r| <= |s| && s == r + s[|r|..] && AllWrapping(s[|r|..]) && (r != "" ==> !IsWrapping(r[|r| - 1]))
  {
    if s != "" && IsWrapping(s[|s| - 1]) {
      RUnwrapParts(s[..|s| - 1]);
      var r := RUnwrap(s);
      assert s[|r|..] == s[..|s| - 1][|r|..] + [s[|s| - 1]];
    }
  }

  lemma {:induction false} StripParts(s: string) returns (a: string, b: string)
    ensures s == a + Strip(s) + b && IsBlank(a) && IsBlank(b)
    ensures Strip(s) != "" ==> !IsSpace(Strip(s)[0]) && !IsSpace(Strip(s)[|Strip(s)| - 1])
  {
    CoreSits(s);
    StripEnds(s);
    var lead := |s| - |LStrip(s)|;
    a, b := s[..lead], s[lead + |Strip(s)|..];
  }

  lemma {:induction false} CoreUnwraps(core: string, left: string, inner: string)
    requires left == LUnwrap(core) && inner == RUnwrap(left)
    ensures |left| <= |core| && |inner| <= |left|
    ensures core == core[..|core| - |left|] + left && left == inner + left[|inner|..]
    ensures AllWrapping(core[..|core| - |left|]) && AllWrapping(left[|inner|..])
    ensures inner != "" ==> !IsWrapping(left[0]) && !IsWrapping(inner[|inner| - 1])
  {
    LUnwrapParts(core);
    RUnwrapParts(left);
  }

  /** What unwrapping leaves was wrapped. */
  lemma {:induction false} WasWrapped(s: string, quote: string) returns (open: Wrap, close: Wrap)
    requires quote == Strip(RUnwrap(LUnwrap(Strip(s)))) && quote != ""
    ensures IsWrap(open) && IsWrap(close) && Ends(open, quote[0]) && Ends(close, quote[|quote| - 1])
    ensures s == open.outer + (open.marks + (open.inner + quote + close.inner) + close.marks) + close.outer
  {
    hide Strip, LUnwrap, RUnwrap, IsSpace, IsWrapping, IsWrap, Ends;
    var core := Strip(s);
    var left := LUnwrap(core);
    var inner := RUnwrap(left);
    var a, b := StripParts(s);
    CoreUnwraps(core, left, inner);
    var x, y := StripParts(inner);
    open := Wrap(a, core[..|core| - |left|], x);
    close := Wrap(b, left[|inner|..], y);
    assert inner == x + quote + y && left == inner + close.marks && core == open.marks + left;
    assert core != "" && inner != "";
    WrapIs(s, core, open, quote, close);
  }

  lemma {:induction false} WrapIs(s: string, core: string, open: Wrap, quote: string, close: Wrap)
    requires quote != "" && !IsSpace(quote[0]) && !IsSpace(quote[|quote| - 1])
    requires core == open.marks + ((open.inner + quote + close.inner) + close.marks)
    requires s == open.outer + core + close.outer
    requires !IsSpace(core[0]) && !IsSpace(core[|core| - 1])
    requires IsBlank(open.outer) && IsBlank(open.inner) && AllWrapping(open.marks)
    requires IsBlank(close.outer) && IsBlank(close.inner) && AllWrapping(close.marks)
    requires !IsWrapping((open.inner + quote + close.inner + close.marks)[0])
    requires !IsWrapping((open.inner + quote + close.inner)[|open.inner + quote + close.inner| - 1])
    ensures IsWrap(open) && IsWrap(close) && Ends(open, quote[0]) && Ends(close, quote[|quote| - 1])
    ensures s == open.outer + (open.marks + (open.inner + quote + close.inner) + close.marks) + close.outer
  {
    assert core == open.marks + (open.inner + quote + close.inner) + close.marks;
  }

  lemma {:induction false} LStripWas(s: string) returns (blank: string)
    ensures IsBlank(blank) && s == blank + LStrip(s) && (LStrip(s) != "" ==> !IsSpace(LStrip(s)[0]))
  {
    LStripParts(s);
    blank := s[..|s| - |LStrip(s)|];
  }

  /** What follows the number. */
  lemma {:induction false} RestWas(s: string, quote: string) returns (gap: string, colon: string, rest: string)
    requires var tail := LStrip(s);
             quote == Strip(RUnwrap(LUnwrap(Strip(Skipping(tail, tail != "" && tail[0] == ':')))))
    ensures IsBlank(gap) && colon in ["", ":"] && s == gap + (colon + rest)
    ensures quote == Strip(RUnwrap(LUnwrap(Strip(rest))))
    ensures colon == "" ==> rest == "" || (!IsSpace(rest[0]) && rest[0] != ':')
  {
    hide Strip, LUnwrap, RUnwrap, IsWrapping;
    var tail := LStrip(s);
    gap := LStripWas(s);
    if tail != "" && tail[0] == ':' {
      colon, rest := ":", tail[1..];
      assert tail == colon + rest;
      StripOfLStrip(rest);
    } else {
      colon, rest := "", tail;
      assert colon + rest == tail;
    }
  }

  lemma {:induction false} StripOfLStrip(s: string)
    ensures Strip(LStrip(s)) == Strip(s)
  {
    LStripParts(s);
    var r := LStrip(s);
    assert LStrip(r) == r;
  }

  /** What stands before the number. */
  lemma {:induction false} FrontWas(line: string) returns (lead: string, bullet: string, mid: string, from: string)
    requires var s := LStrip(line); Bracketed(Skipping(s, s != "" && IsBullet(s[0])), 0).Some?
    ensures var s := LStrip(line); from == Skipping(s, s != "" && IsBullet(s[0]))
    ensures IsBlank(lead) && bullet in ["", "-", "*", [0x2022 as char]] && IsBlank(mid) && (bullet == "" ==> mid == "")
    ensures line == lead + (bullet + (mid + from))
  {
    hide IsSpace;
    var s := LStrip(line);
    lead := LStripWas(line);
    if s != "" && IsBullet(s[0]) {
      bullet := [s[0]];
      mid := LStripWas(s[1..]);
      from := LStrip(s[1..]);
      assert s == bullet + s[1..];
    } else {
      bullet, mid, from := "", "", s;
      assert bullet + (mid + from) == from;
    }
  }

  lemma {:induction false} ReadWasWritten(line: string) returns (w: Written)
    requires QuoteLine(line).Some?
    ensures IsWritten(w) && Line(w) == line && QuoteLine(line) == Some((Number(w.digits), w.quote))
  {
    hide Strip, LUnwrap, RUnwrap, LStrip, IsWrapping, IsSpace, Bracketed, Number, IsDigit, Skipping, IsWrap, Ends;
    var lead, bullet, mid, from := FrontWas(line);
    BracketedWas(from);
    var end := Bracketed(from, 0).value.1;
    var digits, quote := from[1..end - 1], QuoteLine(line).value.1;
    var gap, colon, rest := RestWas(from[end..], quote);
    var open, close := WasWrapped(rest, quote);
    w := Written(lead, bullet, mid, digits, gap, colon, open, quote, close);
    assert Wrapped(w) == rest && AfterNumber(w) == from[end..] && FromNumber(w) == from;
    if colon == "" {
      NoColon(w, rest);
    }
  }

  lemma {:induction false} NoColon(w: Written, rest: string)
    requires Wrapped(w) == rest && IsWrap(w.open) && w.quote != "" && rest != ""
    requires !IsSpace(rest[0]) && rest[0] != ':'
    ensures w.open.marks != "" || w.quote[0] != ':'
  {
    if w.open.marks == "" {
      StartsBlank(w.open.outer, Unspaced(w) + w.close.outer, rest);
    }
  }

  lemma {:induction false} StartsBlank(blank: string, after: string, s: string)
    requires IsBlank(blank) && s == blank + after && s != "" && !IsSpace(s[0])
    ensures blank == "" && s == after
  {
  }

  /** A line is read as quotation q of block n exactly if it is written as one. */
  lemma {:induction false} QuoteLineIff(line: string, n: nat, quote: string)
    ensures QuoteLine(line) == Some((n, quote)) <==>
              exists w :: IsWritten(w) && Line(w) == line && Number(w.digits) == n && w.quote == quote
  {
    hide QuoteLine, IsWritten, Line;
    if QuoteLine(line) == Some((n, quote)) {
      var w := ReadWasWritten(line);
    }
    if w :| IsWritten(w) && Line(w) == line && Number(w.digits) == n && w.quote == quote {
      WrittenIsRead(w);
    }
  }

  // ---- a section -----------------------------------------------------------------------------------------------

  /** A text without a line break is one line; a line break ends a line and starts the next. */
  lemma {:induction false} LinesMean(a: string, c: char, b: string)
    ensures OneLine(a) ==> Lines(a) == [a]
    ensures IsBreak(c) ==> Lines(a + [c] + b) == Lines(a) + Lines(b)
  {
    if OneLine(a) {
      LineGrows("", a);
      assert "" + a == a && Lines("") == [""];
    }
    if IsBreak(c) {
      BreakSplits(a, c, b);
    }
  }

  lemma {:induction false} BreakSplits(a: string, c: char, b: string)
    requires IsBreak(c)
    ensures Lines(a + [c] + b) == Lines(a) + Lines(b)
  {
    if b == "" {
      assert a + [c] + b == a + [c] && (a + [c])[..|a|] == a;
    } else {
      var n := |b| - 1;
      BreakSplits(a, c, b[..n]);
      assert (a + [c] + b)[..|a| + 1 + n] == a + [c] + b[..n];
      var before, all := Lines(a), Lines(b[..n]);
      var x := b[n];
      if !IsBreak(x) {
        assert (before + all)[|before + all| - 1] == all[|all| - 1];
      }
    }
  }

  /** A section's quotations are those of its lines, in order. */
  lemma {:induction false} QuotesInOrder(a: seq<string>, b: seq<string>)
    ensures QuotesIn(a + b) == QuotesIn(a) + QuotesIn(b)
    ensures |a| == 1 ==> QuotesIn(a) == if QuoteLine(a[0]).Some? then [QuoteLine(a[0]).value] else []
  {
    hide QuoteLine;
    if |a| == 1 {
      assert a[..0] == [] && QuotesIn(a[..0]) == [];
    }
    if b == [] {
      assert a + b == a;
    } else {
      assert (a + b)[..|a + b| - 1] == a + b[..|b| - 1];
      QuotesInOrder(a, b[..|b| - 1]);
    }
  }

  // ---- citations -------------------------------------------------------------------------------------------------

  ghost predicate WritesNumber(text: string, n: nat, before: string, digits: string, after: string) {
    AllDigits(digits) && Number(digits) == n && text == before + ['['] + digits + [']'] + after
  }

  lemma {:induction false} CitedIsWritten(text: string, n: nat, i: nat) returns (digits: string, after: string)
    requires CitesAt(text, n, i)
    ensures WritesNumber(text, n, text[..i], digits, after)
  {
    DigitsAre(text, i + 1);
    var end := Bracketed(text, i).value.1;
    digits, after := text[i + 1..end - 1], text[end..];
  }

  lemma {:induction false} WrittenIsCited(text: string, n: nat, before: string, digits: string, after: string)
    requires WritesNumber(text, n, before, digits, after)
    ensures |before| <= |text| && CitesAt(text, n, |before|)
  {
    var i, j := |before|, |before| + 1 + |digits|;
    assert text[i] == '[' && text[j] == ']';
    Middle(text, before + ['['], digits, [']'] + after);
    forall k | i + 1 <= k < j ensures IsDigit(text[k]) {
      assert text[k] == digits[k - i - 1];
    }
    DigitsReach(text, i + 1, j);
  }

  lemma {:induction false} Middle(text: string, before: string, middle: string, after: string)
    requires text == before + middle + after
    ensures text[|before|..|before| + |middle|] == middle
  {
  }

  /** A text cites block n exactly if it has the number in brackets somewhere. */
  lemma {:induction false} CitesIff(text: string, n: nat)
    ensures Cites(text, n) <==> exists before, digits, after :: WritesNumber(text, n, before, digits, after)
  {
    hide CitesAt, WritesNumber;
    if Cites(text, n) {
      var i: nat :| i <= |text| && CitesAt(text, n, i);
      var digits, after := CitedIsWritten(text, n, i);
    }
    if before, digits, after :| WritesNumber(text, n, before, digits, after) {
      WrittenIsCited(text, n, before, digits, after);
    }
  }

  /** A number reads as its decimal numeral says. */
  lemma {:induction false} NumberIsDecimal(digits: string, d: char, n: nat)
    ensures IsDigit(d) ==> Number(digits + [d]) == 10 * Number(digits) + (d as int - '0' as int)
    ensures Number(Numeral(n)) == n
  {
    assert (digits + [d])[..|digits|] == digits;
    NumeralReads(n);
  }

  /** What stands under a number is the content of the last block with it. */
  lemma {:induction false} ContentIff(blocks: seq<Block>, n: nat, content: string)
    ensures ContentOf(blocks, n) == Some(content) <==>
              exists i :: 0 <= i < |blocks| && blocks[i] == Block(n, content)
                && forall j :: i < j < |blocks| ==> blocks[j].n != n
  {
    if blocks != [] {
      var last := |blocks| - 1;
      ContentIff(blocks[..last], n, content);
      if blocks[last].n != n {
        var init := blocks[..last];
        assert forall i :: 0 <= i < last ==> init[i] == blocks[i];
      }
    }
  }
}
