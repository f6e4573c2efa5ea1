/**
 From the quotes section to lookups in passages: which quotations a section holds, which blocks
 a text cites, and when resolving the one in the other raises.
 */
module Resolution {
  import opened Common
  import opened Text
  import opened Quotes

  /** A numbered context block; its content is where quotations are looked up. */
  datatype Block = Block(n: nat, content: string)

  /** What the similarity search makes of a normalised passage and quotation: a span, if any. */
  type Similarity = (string, string) -> Option<(nat, nat)>

  // ---- lines of the section ------------------------------------------------------------------------------

  predicate IsBreak(c: char) {
    var n := c as int;
    0x0A <= n <= 0x0D || 0x1C <= n <= 0x1E || n == 0x85 || n == 0x2028 || n == 0x2029
  }

  /** The lines of a text; a carriage return before a line feed yields an empty line more, which
      holds no quotation. */
  function Lines(s: string): (lines: seq<string>)
    ensures lines != []
  {
    if s == "" then [""]
    else
      var lines, c := Lines(s[..|s| - 1]), s[|s| - 1];
      if IsBreak(c) then lines + [""] else lines[|lines| - 1 := lines[|lines| - 1] + [c]]
  }

  predicate IsDigit(c: char) {
    '0' <= c <= '9'
  }

  function Number(s: string): nat {
    if s == "" || !IsDigit(s[|s| - 1]) then 0 else 10 * Number(s[..|s| - 1]) + (s[|s| - 1] as int - '0' as int)
  }

  /** The end of the digits from i on. */
  function DigitsEnd(s: string, i: nat): (j: nat)
    requires i <= |s|
    ensures i <= j <= |s|
    decreases |s| - i
  {
    if i < |s| && IsDigit(s[i]) then DigitsEnd(s, i + 1) else i
  }

  /** The number in brackets that starts at i, and where it ends. */
  function Bracketed(s: string, i: nat): (r: Option<(nat, nat)>)
    requires i <= |s|
    ensures r.Some? ==> i + 2 < r.value.1 <= |s|
  {
    if i == |s| || s[i] != '[' then None
    else
      var j := DigitsEnd(s, i + 1);
      if j == i + 1 || j == |s| || s[j] != ']' then None else Some((Number(s[i + 1..j]), j + 1))
  }

  predicate IsWrapping(c: char) {
    c == '`' || Plain(c) == '"' || Plain(c) == '\''
  }

  function LUnwrap(s: string): string {
    if s == "" || !IsWrapping(s[0]) then s else LUnwrap(s[1..])
  }

  function RUnwrap(s: string): string {
    if s == "" || !IsWrapping(s[|s| - 1]) then s else RUnwrap(s[..|s| - 1])
  }

  /** Without the one character c may stand for, and the white space after it. */
  function Skipping(s: string, skip: bool): string {
    if s != "" && skip then LStrip(s[1..]) else s
  }

  predicate IsBullet(c: char) {
    c == '-' || c == '*' || c as int == 0x2022
  }

  /** A quotation with its block number: an optional bullet, a number in brackets, an optional
      colon, and at least three characters inside white space and quotation marks. */
  function QuoteLine(line: string): Option<(nat, string)> {
    var s := LStrip(line);
    var s := Skipping(s, s != "" && IsBullet(s[0]));
    var number := Bracketed(s, 0);
    if number.None? then None
    else
      var rest := LStrip(s[number.value.1..]);
      var rest := Skipping(rest, rest != "" && rest[0] == ':');
      var quote := Strip(RUnwrap(LUnwrap(Strip(rest))));
      if |quote| < MIN_QUOTE_CHARS then None else Some((number.value.0, quote))
  }

  function QuotesIn(lines: seq<string>): seq<(nat, string)> {
    if lines == [] then []
    else
      var quotes, last := QuotesIn(lines[..|lines| - 1]), QuoteLine(lines[|lines| - 1]);
      if last.Some? then quotes + [last.value] else quotes
  }

  function ParseQuotes(section: string): seq<(nat, string)> {
    QuotesIn(Lines(section))
  }

  // ---- citations ---------------------------------------------------------------------------------------------

  predicate CitesAt(text: string, n: nat, i: nat) {
    i <= |text| && Bracketed(text, i).Some? && Bracketed(text, i).value.0 == n
  }

  predicate Cites(text: string, n: nat) {
    exists i: nat :: i <= |text| && CitesAt(text, n, i)
  }

  /** What stands under a number; of two blocks with one number, the later. */
  function ContentOf(blocks: seq<Block>, n: nat): Option<string> {
    if blocks == [] then None
    else if blocks[|blocks| - 1].n == n then Some(blocks[|blocks| - 1].content)
    else ContentOf(blocks[..|blocks| - 1], n)
  }

  // ---- raising -------------------------------------------------------------------------------------------------

  /** An index past the end of the map, in the normalised lookup or behind the similarity
      search. */
  predicate LookupRaises(quote: string, content: string, fold: char -> string, similar: Similarity) {
    match Locate(quote, content, fold)
    case Refused => false
    case Exact(_, _) => false
    case Normalized(_, _) => false
    case Raised => true
    case Unmatched =>
      var span := similar(Normalised(content, fold), Strip(Normalised(Strip(quote), fold)));
      span.Some? && span.value.0 < span.value.1 && span.value.1 > |Index(content, fold)|
  }

  predicate QuoteRaises(quote: (nat, string), text: string, blocks: seq<Block>, fold: char -> string,
                        similar: Similarity) {
    var content := ContentOf(blocks, quote.0);
    content.Some? && Cites(text, quote.0) && LookupRaises(quote.1, content.value, fold, similar)
  }

  /** Resolving the quotes of a section against a text raises: some quotation of a block that
      the text cites does. */
  predicate ResolveRaises(section: string, text: string, blocks: seq<Block>, fold: char -> string,
                          similar: Similarity) {
    exists quote :: quote in ParseQuotes(section) && QuoteRaises(quote, text, blocks, fold, similar)
  }

  /** The similarity search stays within the passage it is given. */
  ghost predicate StaysInside(similar: Similarity) {
    forall text, quote :: similar(text, quote).Some? ==> similar(text, quote).value.1 <= |text|
  }

  ghost predicate AllAligned(blocks: seq<Block>, fold: char -> string) {
    forall i :: 0 <= i < |blocks| ==> Aligned(blocks[i].content, fold)
  }

  /** Without a section there is nothing to look up. */
  lemma {:induction false} EmptySectionResolves(text: string, blocks: seq<Block>, fold: char -> string,
                                                similar: Similarity)
    ensures ParseQuotes("") == [] && !ResolveRaises("", text, blocks, fold, similar)
  {
    var lines := [""];
    assert Lines("") == lines && lines[..0] == [] && LStrip("") == "";
    assert QuoteLine("").None?;
    assert QuotesIn(lines) == QuotesIn([]) == [];
  }

  lemma {:induction false} ContentIsOfBlock(blocks: seq<Block>, n: nat)
    requires ContentOf(blocks, n).Some?
    ensures exists i :: 0 <= i < |blocks| && blocks[i] == Block(n, ContentOf(blocks, n).value)
  {
    if blocks[|blocks| - 1].n != n {
      ContentIsOfBlock(blocks[..|blocks| - 1], n);
      var i :| 0 <= i < |blocks| - 1 && blocks[..|blocks| - 1][i] == Block(n, ContentOf(blocks, n).value);
      assert blocks[i] == Block(n, ContentOf(blocks, n).value);
    } else {
      assert blocks[|blocks| - 1] == Block(n, ContentOf(blocks, n).value);
    }
  }

  /** Nor does anything raise while every passage folds character by character. */
  lemma {:induction false} AlignedNeverRaises(section: string, text: string, blocks: seq<Block>, fold: char -> string,
                                              similar: Similarity)
    requires IsFold(fold) && StaysInside(similar) && AllAligned(blocks, fold)
    ensures !ResolveRaises(section, text, blocks, fold, similar)
  {
    forall quote | quote in ParseQuotes(section) ensures !QuoteRaises(quote, text, blocks, fold, similar) {
      if ContentOf(blocks, quote.0).Some? {
        ContentIsOfBlock(blocks, quote.0);
        var content := ContentOf(blocks, quote.0).value;
        AlignedIsFaithful(quote.1, content, fold);
        AlignedLengths(content, 0, |content|, fold);
      }
    }
  }

  // ---- a section that raises -------------------------------------------------------------------------------------

  predicate OneLine(s: string) {
    forall i :: 0 <= i < |s| ==> !IsBreak(s[i])
  }

  lemma {:induction false} LineGrows(s: string, line: string)
    requires OneLine(line)
    ensures var lines := Lines(s); Lines(s + line) == lines[|lines| - 1 := lines[|lines| - 1] + line]
  {
    var lines := Lines(s);
    if line == "" {
      assert s + line == s && lines[|lines| - 1] + line == lines[|lines| - 1];
    } else {
      var init, c := line[..|line| - 1], line[|line| - 1];
      LineGrows(s, init);
      assert (s + line)[..|s + line| - 1] == s + init && init + [c] == line;
      assert lines[|lines| - 1] + init + [c] == lines[|lines| - 1] + (init + [c]);
    }
  }

  /** A line feed and one quotation. */
  lemma {:induction false} OneQuotation(line: string)
    requires OneLine(line) && QuoteLine(line).Some?
    ensures QuoteLine(line).value in ParseQuotes(['\n'] + line)
  {
    var feed := ['\n'];
    assert feed[..0] == "" && Lines("") == [""];
    assert Lines(feed) == ["", ""];
    LineGrows(feed, line);
    assert Lines(feed + line) == ["", "" + line] && "" + line == line;
    assert ["", line][..1] == [""];
  }

  function Digit(d: nat): char
    requires d < 10
  {
    ('0' as int + d) as char
  }

  function Numeral(n: nat): (s: string)
    ensures s != ""
  {
    if n < 10 then [Digit(n)] else Numeral(n / 10) + [Digit(n % 10)]
  }

  lemma {:induction false} NumeralReads(n: nat)
    ensures Number(Numeral(n)) == n && forall i :: 0 <= i < |Numeral(n)| ==> IsDigit(Numeral(n)[i])
  {
    var s := Numeral(n);
    if n < 10 {
      assert s[..0] == "";
    } else {
      NumeralReads(n / 10);
      assert s[..|s| - 1] == Numeral(n / 10);
    }
  }

  function Citation(n: nat): string {
    ['['] + Numeral(n) + [']']
  }

  lemma {:induction false} DigitsReach(s: string, i: nat, j: nat)
    requires i <= j < |s| && (forall k :: i <= k < j ==> IsDigit(s[k])) && !IsDigit(s[j])
    ensures DigitsEnd(s, i) == j
    decreases j - i
  {
    if i < j {
      DigitsReach(s, i + 1, j);
    }
  }

  lemma {:induction false} CitationReads(n: nat, rest: string)
    ensures Bracketed(Citation(n) + rest, 0) == Some((n, |Citation(n)|))
      && (Citation(n) + rest)[|Citation(n)|..] == rest
  {
    var number := Numeral(n);
    var s, j := Citation(n) + rest, 1 + |number|;
    NumeralReads(n);
    assert s[0] == '[' && s[j] == ']' && s[1..j] == number;
    assert forall k :: 1 <= k < j ==> s[k] == number[k - 1];
    DigitsReach(s, 1, j);
  }

  lemma {:induction false} CitationCites(n: nat)
    ensures Cites(Citation(n), n)
  {
    CitationReads(n, "");
    assert Citation(n) + "" == Citation(n);
    assert CitesAt(Citation(n), n, 0);
  }

  /** The line that quotes a text with emphasis marks around it. */
  function StarredLine(n: nat, text: string): string {
    Citation(n) + ([' '] + Starred(text))
  }

  lemma {:induction false} StarredReads(n: nat, text: string)
    ensures QuoteLine(StarredLine(n, text)) == Some((n, Starred(text)))
  {
    var s, quote := StarredLine(n, text), Starred(text);
    var rest := [' '] + quote;
    CitationReads(n, rest);
    assert s[0] == '[' && LStrip(s) == s;
    assert quote[0] == '*' && quote[|quote| - 1] == '*';
    assert rest[1..] == quote && LStrip(rest) == LStrip(quote) == quote;
    StarredStrips(text);
    assert LUnwrap(quote) == quote && RUnwrap(quote) == quote;
  }

  lemma {:induction false} StarredIsLine(n: nat, text: string)
    requires OneLine(text)
    ensures OneLine(StarredLine(n, text))
  {
    NumeralReads(n);
    CitationIsLine(n);
    LinesJoin("**", text);
    LinesJoin("**" + text, "**");
    LinesJoin([' '], Starred(text));
    LinesJoin(Citation(n), [' '] + Starred(text));
  }

  lemma {:induction false} LinesJoin(a: string, b: string)
    requires OneLine(a) && OneLine(b)
    ensures OneLine(a + b)
  {
  }

  lemma {:induction false} CitationIsLine(n: nat)
    ensures OneLine(Citation(n))
  {
    NumeralReads(n);
    var s := Citation(n);
    assert forall i :: 0 < i < |s| - 1 ==> s[i] == Numeral(n)[i - 1];
  }

  /** A passage on one line: line breaks become spaces. */
  function Flat(text: string): (s: string)
    ensures |s| == |text|
    ensures forall i :: 0 <= i < |text| ==> s[i] == if IsBreak(text[i]) then ' ' else text[i]
  {
    seq(|text|, i requires 0 <= i < |text| => if IsBreak(text[i]) then ' ' else text[i])
  }

  /** It normalises alike. */
  lemma {:induction false} FlatScans(text: string, n: nat, fold: char -> string)
    requires n <= |text|
    ensures Scanned(Flat(text), 0, n, fold) == Scanned(text, 0, n, fold)
  {
    if n > 0 {
      FlatScans(text, n - 1, fold);
    }
  }

  /** The section that quotes a whole passage of a block, on one line. */
  function QuotingAll(n: nat, content: string): string {
    ['\n'] + StarredLine(n, Flat(content))
  }

  /** Citing a passage that overruns its map and quoting all of it makes resolving raise. */
  lemma {:induction false} QuotingAllRaises(n: nat, content: string, text: string, blocks: seq<Block>,
                                            fold: char -> string,
                                            similar: Similarity)
    requires IsFold(fold) && Overruns(content, fold) && ContentOf(blocks, n) == Some(content) && Cites(text, n)
    ensures ResolveRaises(QuotingAll(n, content), text, blocks, fold, similar)
  {
    var flat := Flat(content);
    StarredReads(n, flat);
    StarredIsLine(n, flat);
    OneQuotation(StarredLine(n, flat));
    FlatScans(content, |content|, fold);
    StarredNormalises(flat, fold);
    StarredStrips(flat);
    OverrunRaises(Starred(flat), content, fold);
    assert QuoteRaises((n, Starred(flat)), text, blocks, fold, similar);
  }

  // ---- when resolving can raise -----------------------------------------------------------------------------------

  /** Behind the similarity search: some quotation a line can carry sends it past the map. */
  ghost predicate SearchOverruns(n: nat, content: string, fold: char -> string, similar: Similarity) {
    exists line :: IsQuotation(line, n) && SearchRaises(QuoteLine(line).value.1, content, fold, similar)
  }

  predicate IsQuotation(line: string, n: nat) {
    OneLine(line) && QuoteLine(line).Some? && QuoteLine(line).value.0 == n
  }

  predicate SearchRaises(quote: string, content: string, fold: char -> string, similar: Similarity) {
    Locate(quote, content, fold).Unmatched? && LookupRaises(quote, content, fold, similar)
  }

  /** Some numbered passage overruns its map, by itself or behind the similarity search. */
  ghost predicate SomeOverruns(blocks: seq<Block>, fold: char -> string, similar: Similarity) {
    exists n: nat {:trigger ContentOf(blocks, n)} :: ContentOf(blocks, n).Some? &&
      (Overruns(ContentOf(blocks, n).value, fold) || SearchOverruns(n, ContentOf(blocks, n).value, fold, similar))
  }

  lemma {:induction false} LinesAreLines(s: string)
    ensures forall k :: 0 <= k < |Lines(s)| ==> OneLine(Lines(s)[k])
  {
    if s != "" {
      LinesAreLines(s[..|s| - 1]);
      var lines := Lines(s[..|s| - 1]);
      assert OneLine(lines[|lines| - 1]);
    }
  }

  lemma {:induction false} QuotesAreOfLines(lines: seq<string>, quote: (nat, string))
    requires quote in QuotesIn(lines)
    ensures exists k :: 0 <= k < |lines| && QuoteLine(lines[k]) == Some(quote)
  {
    var init := lines[..|lines| - 1];
    if QuoteLine(lines[|lines| - 1]) != Some(quote) {
      QuotesAreOfLines(init, quote);
      var k :| 0 <= k < |init| && QuoteLine(init[k]) == Some(quote);
      assert lines[k] == init[k];
    }
  }

  lemma {:induction false} RaisingIsOverrun(section: string, text: string, blocks: seq<Block>, fold: char -> string,
                                            similar: Similarity)
    requires ResolveRaises(section, text, blocks, fold, similar)
    ensures SomeOverruns(blocks, fold, similar)
  {
    var quote :| quote in ParseQuotes(section) && QuoteRaises(quote, text, blocks, fold, similar);
    var content := ContentOf(blocks, quote.0).value;
    if Locate(quote.1, content, fold).Raised? {
      RaisingOverruns(quote.1, content, fold);
    } else {
      QuotesAreOfLines(Lines(section), quote);
      LinesAreLines(section);
      var k :| 0 <= k < |Lines(section)| && QuoteLine(Lines(section)[k]) == Some(quote);
      assert IsQuotation(Lines(section)[k], quote.0) && SearchRaises(quote.1, content, fold, similar);
    }
  }

  /** A section of one quotation that raises for the bare citation. */
  lemma {:induction false} OverrunIsRaised(blocks: seq<Block>, fold: char -> string, similar: Similarity)
    returns (n: nat, section: string)
    requires IsFold(fold) && SomeOverruns(blocks, fold, similar)
    ensures section != "" && section[0] == '\n' && ResolveRaises(section, Citation(n), blocks, fold, similar)
  {
    n :| ContentOf(blocks, n).Some? &&
      (Overruns(ContentOf(blocks, n).value, fold) || SearchOverruns(n, ContentOf(blocks, n).value, fold, similar));
    var content := ContentOf(blocks, n).value;
    CitationCites(n);
    if Overruns(content, fold) {
      section := QuotingAll(n, content);
      QuotingAllRaises(n, content, Citation(n), blocks, fold, similar);
    } else {
      var line :| IsQuotation(line, n) && SearchRaises(QuoteLine(line).value.1, content, fold, similar);
      section := ['\n'] + line;
      OneQuotation(line);
      assert QuoteRaises(QuoteLine(line).value, Citation(n), blocks, fold, similar);
    }
  }

  /** Some section and some text make resolving raise exactly when some numbered passage
      overruns its map, by itself or behind the similarity search. */
  lemma {:induction false} ResolvingRaisesIff(blocks: seq<Block>, fold: char -> string, similar: Similarity)
    requires IsFold(fold)
    ensures (exists section, text :: ResolveRaises(section, text, blocks, fold, similar))
      <==> SomeOverruns(blocks, fold, similar)
  {
    if SomeOverruns(blocks, fold, similar) {
      var n, section := OverrunIsRaised(blocks, fold, similar);
    }
    forall section, text | ResolveRaises(section, text, blocks, fold, similar)
      ensures SomeOverruns(blocks, fold, similar) {
      RaisingIsOverrun(section, text, blocks, fold, similar);
    }
  }
}
