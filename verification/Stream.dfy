/**
 The two buffers between the model's deltas and the client: the head buffer withholds text
 until it cannot become the refusal sentinel, the tail splitter holds a few characters back so
 that the quotes section at the end never reaches the client.
 */
module Stream {
  import opened Common
  import opened Text

  // ---- the refusal sentinel --------------------------------------------------------------------------

  const NO_ANSWER := "NO_ANSWER"

  datatype Head = Head(sentinel: string, buffer: string, decided: bool, refused: bool)

  function FreshHead(sentinel: string): Head {
    Head(sentinel, "", false, false)
  }

  function Cut(s: string, n: nat): string {
    s[..Min(|s|, n)]
  }

  function HeadFeed(h: Head, text: string): (Head, string) {
    if h.decided then (h, if h.refused then "" else text)
    else HeadJudge(h, h.buffer + text)
  }

  function HeadJudge(h: Head, buffer: string): (Head, string) {
    var stripped := LStrip(buffer);
    if h.sentinel <= stripped then (Head(h.sentinel, buffer, true, true), "")
    else if !(Cut(stripped, |h.sentinel|) <= h.sentinel) then (Head(h.sentinel, "", true, h.refused), buffer)
    else (Head(h.sentinel, buffer, false, h.refused), "")
  }

  function HeadFlush(h: Head): (Head, string) {
    if h.decided || h.buffer == "" then (h, "") else (Head(h.sentinel, "", true, h.refused), h.buffer)
  }

  /** The head after these deltas, and all it has let through. */
  function HeadRun(sentinel: string, deltas: seq<string>): (Head, string) {
    if deltas == [] then (FreshHead(sentinel), "")
    else
      var (h, out) := HeadRun(sentinel, deltas[..|deltas| - 1]);
      var (h', more) := HeadFeed(h, deltas[|deltas| - 1]);
      (h', out + more)
  }

  /** Everything let through once the stream has ended, and the verdict. */
  function Screened(sentinel: string, deltas: seq<string>): (string, bool) {
    var (h, out) := HeadRun(sentinel, deltas);
    var (h', tail) := HeadFlush(h);
    (out + tail, h'.refused)
  }

  /** What the verdict says about the text so far, white space in front aside: still a proper
      prefix of the sentinel, starting with it, or past the point where it could. */
  predicate Judged(h: Head, fed: string, stripped: string, out: string) {
    if !h.decided then h.buffer == fed && out == "" && !h.refused && !(h.sentinel <= stripped)
    else if h.refused then out == "" && h.sentinel <= stripped
    else out == fed && !(stripped <= h.sentinel) && !(h.sentinel <= stripped)
  }

  /** Looking at as many characters as the sentinel has is looking at them all. */
  lemma {:induction false} CutCompares(s: string, sentinel: string)
    requires !(sentinel <= s)
    ensures Cut(s, |sentinel|) <= sentinel <==> s <= sentinel
  {
    if |s| >= |sentinel| {
      var cut := Cut(s, |sentinel|);
      assert cut == s[..|sentinel|];
      assert cut <= sentinel ==> cut == sentinel;
    }
  }

  lemma {:induction false} DecidedStays(sentinel: string, stripped: string, text: string)
    ensures sentinel <= stripped ==> sentinel <= stripped + text
    ensures !(stripped <= sentinel) && !(sentinel <= stripped)
      ==> !(stripped + text <= sentinel) && !(sentinel <= stripped + text)
  {
    if stripped + text <= sentinel {
      assert stripped == sentinel[..|stripped|];
    }
    if sentinel <= stripped + text && |sentinel| <= |stripped| {
      assert sentinel == stripped[..|sentinel|];
    }
    if sentinel <= stripped + text && |stripped| <= |sentinel| {
      assert sentinel[..|stripped|] == stripped;
    }
  }

  lemma {:induction false} FeedJudges(h: Head, fed: string, out: string, text: string)
    requires Judged(h, fed, LStrip(fed), out) && h.sentinel != ""
    ensures var (h', more) := HeadFeed(h, text);
            Judged(h', fed + text, LStrip(fed + text), out + more) && h'.sentinel == h.sentinel
  {
    if h.decided {
      LStripExtends(fed, text);
      DecidedJudges(h, fed, LStrip(fed), out, text, LStrip(fed + text));
    } else {
      JudgeJudges(h, fed + text);
      var more := HeadJudge(h, fed + text).1;
      assert out + more == more;
    }
  }

  lemma {:induction false} DecidedJudges(h: Head, fed: string, stripped: string, out: string, text: string,
                                         stripped': string)
    requires h.decided && Judged(h, fed, stripped, out) && h.sentinel != ""
    requires stripped != "" ==> stripped' == stripped + text
    ensures Judged(h, fed + text, stripped', out + HeadFeed(h, text).1) && HeadFeed(h, text).0 == h
  {
    DecidedStays(h.sentinel, stripped, text);
  }

  lemma {:induction false} JudgeJudges(h: Head, buffer: string)
    requires !h.refused
    ensures var (h', more) := HeadJudge(h, buffer);
            Judged(h', buffer, LStrip(buffer), more) && h'.sentinel == h.sentinel
  {
    if !(h.sentinel <= LStrip(buffer)) {
      CutCompares(LStrip(buffer), h.sentinel);
    }
  }

  lemma {:induction false} RunJudges(sentinel: string, deltas: seq<string>)
    requires sentinel != ""
    ensures var (h, out) := HeadRun(sentinel, deltas);
            h.sentinel == sentinel && Judged(h, Concat(deltas), LStrip(Concat(deltas)), out)
  {
    if deltas != [] {
      RunJudges(sentinel, deltas[..|deltas| - 1]);
      var (h, out) := HeadRun(sentinel, deltas[..|deltas| - 1]);
      FeedJudges(h, Concat(deltas[..|deltas| - 1]), out, deltas[|deltas| - 1]);
    }
  }

  /** However the text is cut into deltas: it is refused exactly when, leading white space
      aside, it starts with the sentinel, and otherwise comes through whole. */
  lemma {:induction false} SentinelVerdict(sentinel: string, deltas: seq<string>)
    requires sentinel != ""
    ensures var (out, refused) := Screened(sentinel, deltas);
            && (refused <==> sentinel <= LStrip(Concat(deltas)))
            && out == if refused then "" else Concat(deltas)
  {
    RunJudges(sentinel, deltas);
  }

  // ---- the quotes marker ---------------------------------------------------------------------------------

  datatype Kind = Blanks | Decoration | Emphasis

  predicate OfKind(c: char, kind: Kind) {
    match kind
    case Blanks => c == ' ' || c == '\t'
    case Decoration => c == '*' || c == '_' || c == '#' || c == '>' || c == '-'
    case Emphasis => c == '*' || c == '_'
  }

  /** The first position at or after i whose character is not of this kind. */
  function Skip(s: string, i: nat, kind: Kind): (j: nat)
    requires i <= |s|
    ensures i <= j <= |s|
    decreases |s| - i
  {
    if i < |s| && OfKind(s[i], kind) then Skip(s, i + 1, kind) else i
  }

  /** The letters of the marker word, whatever their case (long s counts as an s). */
  function Folded(c: char): char {
    if 'A' <= c <= 'Z' then (c as int + 32) as char else if c as int == 0x17F then 's' else c
  }

  predicate IsWord(s: string, i: nat, word: string) {
    i + |word| <= |s| && forall k :: 0 <= k < |word| ==> Folded(s[i + k]) == word[k]
  }

  const MARKER := "quotes"

  /** Where the word of a marker line would start. */
  function WordStart(s: string, i: nat): (j: nat)
    requires i <= |s|
    ensures i <= j <= |s|
  {
    Skip(s, Skip(s, Skip(s, i, Blanks), Decoration), Blanks)
  }

  function PastColon(s: string, k: nat): (j: nat)
    requires k <= |s|
    ensures k <= j <= |s|
  {
    if k < |s| && s[k] == ':' then k + 1 else k
  }

  /** Where the line would end after the word. */
  function LineEnd(s: string, k: nat): (end: nat)
    requires k <= |s|
    ensures k <= end <= |s|
  {
    Skip(s, Skip(s, Skip(s, PastColon(s, Skip(s, k, Blanks)), Blanks), Emphasis), Blanks)
  }

  /** The end of a marker line whose text starts at i: the classes in it are disjoint, so
      there is only one way to read it. */
  function LineMatch(s: string, i: nat): (r: Option<nat>)
    requires i <= |s|
    ensures r.Some? ==> i + |MARKER| <= r.value <= |s|
  {
    var j := WordStart(s, i);
    if !IsWord(s, j, MARKER) then None
    else
      var end := LineEnd(s, j + |MARKER|);
      if end == |s| || s[end] == '\n' then Some(end) else None
  }

  function MatchAt(s: string, i: nat): (r: Option<nat>)
    requires i <= |s|
    ensures r.Some? ==> i + |MARKER| <= r.value <= |s|
  {
    if i == 0 && LineMatch(s, 0).Some? then LineMatch(s, 0)
    else if i < |s| && s[i] == '\n' then LineMatch(s, i + 1)
    else None
  }

  /** The leftmost match at or after i. */
  function Search(s: string, i: nat): (r: Option<(nat, nat)>)
    requires i <= |s|
    ensures r.Some? ==> i <= r.value.0 && r.value.0 + |MARKER| <= r.value.1 <= |s|
    decreases |s| - i
  {
    if MatchAt(s, i).Some? then Some((i, MatchAt(s, i).value))
    else if i < |s| then Search(s, i + 1)
    else None
  }

  ghost predicate IsMarker(marker: string) {
    exists s :: Search(s, 0).Some? && marker == s[Search(s, 0).value.0..Search(s, 0).value.1]
  }

  // ---- the tail splitter -----------------------------------------------------------------------------------

  const HOLD_BACK := 24

  datatype Tail = Tail(pending: string, section: string, collecting: bool)

  const FRESH_TAIL := Tail("", "", false)

  function TailFeed(t: Tail, text: string): (Tail, string) {
    if t.collecting then (t.(section := t.section + text), "") else TailTake(t.pending + text, HOLD_BACK)
  }

  function TailTake(pending: string, hold: nat): (Tail, string) {
    TakeAround(pending, Search(pending, 0), hold)
  }

  /** Give out what is sure to be answer text; hold back this much of the rest. */
  function TakeAround(pending: string, found: Option<(nat, nat)>, hold: nat): (Tail, string)
    requires found.Some? ==> found.value.0 <= found.value.1 <= |pending|
  {
    if found.Some? then (Tail("", pending[found.value.1..], true), RStrip(pending[..found.value.0]))
    else if |pending| <= hold then (Tail(pending, "", false), "")
    else (Tail(pending[|pending| - hold..], "", false), pending[..|pending| - hold])
  }

  function TailFlush(t: Tail): (Tail, string) {
    if t.collecting then (t, "") else TailTake(t.pending, 0)
  }

  function TailRun(deltas: seq<string>): (Tail, string) {
    if deltas == [] then (FRESH_TAIL, "")
    else
      var (t, out) := TailRun(deltas[..|deltas| - 1]);
      var (t', more) := TailFeed(t, deltas[|deltas| - 1]);
      (t', out + more)
  }

  function Split(deltas: seq<string>): (string, Tail) {
    var (t, out) := TailRun(deltas);
    var (t', tail) := TailFlush(t);
    (out + tail, t')
  }

  /** Nothing is lost and nothing invented: what went in is what came out, then white space,
      then a marker, then the section. */
  ghost predicate Parted(input: string, out: string, section: string) {
    exists gap, marker :: IsBlank(gap) && IsMarker(marker) && input == out + gap + marker + section
  }

  ghost predicate Kept(t: Tail, fed: string, out: string) {
    if t.collecting then t.pending == "" && Parted(fed, out, t.section)
    else t.section == "" && fed == out + t.pending && |t.pending| <= HOLD_BACK
  }

  lemma {:induction false} Quarters(s: string, i: nat, j: nat, k: nat)
    requires i <= j <= k <= |s|
    ensures s == s[..i] + s[i..j] + s[j..k] + s[k..]
  {
  }

  lemma {:induction false} Part(pending: string, fed: string, out: string, kept: string, gap: string, marker: string,
                                section: string)
    requires fed == out + pending && pending == kept + gap + marker + section && IsBlank(gap) && IsMarker(marker)
    ensures Parted(fed, out + kept, section)
  {
    assert fed == (out + kept) + gap + marker + section;
  }

  lemma {:induction false} MarkerParts(pending: string, fed: string, out: string)
    requires Search(pending, 0).Some? && fed == out + pending
    ensures var (i, j) := Search(pending, 0).value; Parted(fed, out + RStrip(pending[..i]), pending[j..])
  {
    var (i, j) := Search(pending, 0).value;
    var before := pending[..i];
    RStripParts(before);
    var kept := RStrip(before);
    assert before[|kept|..] == pending[|kept|..i] && before[..|kept|] == pending[..|kept|];
    assert IsMarker(pending[i..j]);
    Quarters(pending, |kept|, i, j);
    Part(pending, fed, out, kept, pending[|kept|..i], pending[i..j], pending[j..]);
  }

  lemma {:induction false} TakeKeeps(pending: string, hold: nat, fed: string, out: string)
    requires fed == out + pending && hold <= HOLD_BACK
    ensures var (t, more) := TailTake(pending, hold); Kept(t, fed, out + more) && |t.pending| <= hold
  {
    if Search(pending, 0).Some? {
      MarkerParts(pending, fed, out);
    } else if |pending| <= hold {
      assert out + "" == out;
    } else {
      assert pending == pending[..|pending| - hold] + pending[|pending| - hold..];
    }
  }

  lemma {:induction false} CollectKeeps(t: Tail, fed: string, out: string, text: string)
    requires t.collecting && Kept(t, fed, out)
    ensures Kept(t.(section := t.section + text), fed + text, out + "")
  {
    var gap, marker :| IsBlank(gap) && IsMarker(marker) && fed == out + gap + marker + t.section;
    assert out + "" == out;
    assert fed + text == out + gap + marker + (t.section + text);
  }

  lemma {:induction false} FeedKeeps(t: Tail, fed: string, out: string, text: string)
    requires Kept(t, fed, out)
    ensures Kept(TailFeed(t, text).0, fed + text, out + TailFeed(t, text).1)
  {
    if t.collecting {
      CollectKeeps(t, fed, out, text);
    } else {
      assert fed + text == out + (t.pending + text);
      TakeKeeps(t.pending + text, HOLD_BACK, fed + text, out);
    }
  }

  lemma {:induction false} RunKeeps(deltas: seq<string>)
    ensures var (t, out) := TailRun(deltas); Kept(t, Concat(deltas), out)
  {
    if deltas != [] {
      RunKeeps(deltas[..|deltas| - 1]);
      var (t, out) := TailRun(deltas[..|deltas| - 1]);
      FeedKeeps(t, Concat(deltas[..|deltas| - 1]), out, deltas[|deltas| - 1]);
    }
  }

  lemma {:induction false} FlushKeeps(t: Tail, fed: string, out: string)
    requires Kept(t, fed, out)
    ensures Ended(TailFlush(t).0, fed, out + TailFlush(t).1)
  {
    if t.collecting {
      assert out + "" == out;
    } else {
      TakeKeeps(t.pending, 0, fed, out);
      var (t', more) := TailTake(t.pending, 0);
      assert !t'.collecting ==> t'.pending == "" && out + more == out + more + t'.pending;
    }
  }

  /** The end of a stream: all of it came out, or the answer did and the section was kept. */
  ghost predicate Ended(t: Tail, input: string, out: string) {
    && t.pending == ""
    && if t.collecting then Parted(input, out, t.section) else out == input && t.section == ""
  }

  /** However the text is cut: either no marker was taken and all of it comes out, or it is the
      answer, white space, a marker and the section. */
  lemma {:induction false} SplitConserves(deltas: seq<string>)
    ensures Ended(Split(deltas).1, Concat(deltas), Split(deltas).0)
  {
    RunKeeps(deltas);
    var (t, out) := TailRun(deltas);
    FlushKeeps(t, Concat(deltas), out);
  }

  /** While text streams, at most the hold-back is withheld. */
  lemma {:induction false} LatencyIsBounded(deltas: seq<string>)
    ensures var (t, out) := TailRun(deltas); !t.collecting ==> |out| + 24 >= |Concat(deltas)|
  {
    RunKeeps(deltas);
  }

  lemma {:induction false} WordAlone(s: string)
    requires |s| >= 6 && s[..6] == MARKER
    ensures |s| == 6 ==> LineMatch(s, 0) == Some(6)
    ensures |s| == 7 && s[6] == 'x' ==> LineMatch(s, 0).None?
  {
    assert s[0] == s[..6][0] && forall k :: 0 <= k < 6 ==> s[k] == s[..6][k];
    assert Skip(s, 0, Blanks) == 0 && Skip(s, 0, Decoration) == 0;
  }

  lemma {:induction false} WordIsTaken()
    ensures Search("quotes", 0) == Some((0, 6))
  {
    WordAlone("quotes");
  }

  lemma {:induction false} LongerWordIsNot()
    ensures Search("quotesx", 0).None?
  {
    WordAlone("quotesx");
    NoNewlineNoMatch("quotesx", 1);
  }

  lemma {:induction false} AroundAll(word: string, hold: nat)
    ensures TakeAround(word, Some((0, |word|)), hold) == (Tail("", "", true), "")
  {
    var before, after := word[..0], word[|word|..];
    assert before == "" && after == "";
  }

  lemma {:induction false} TakesAll(word: string)
    requires Search(word, 0) == Some((0, |word|))
    ensures TailFeed(FRESH_TAIL, word) == (Tail("", "", true), "")
  {
    assert FRESH_TAIL.pending + word == word;
    AroundAll(word, HOLD_BACK);
  }

  lemma {:induction false} HoldsAll(text: string)
    requires Search(text, 0).None? && |text| <= HOLD_BACK
    ensures TailFeed(FRESH_TAIL, text) == (Tail(text, "", false), "")
    ensures TailFlush(Tail(text, "", false)) == (FRESH_TAIL, text)
  {
    assert FRESH_TAIL.pending + text == text;
    assert |text| > 0 ==> text[..|text| - 0] == text && text[|text| - 0..] == "";
  }

  /** Where the text is cut does matter (`Cuts` says when): the anchors see only the pending text, so a delta that
      ends with the word swallows the rest of a longer one that would have been shown. */
  lemma {:induction false} CutMatters()
    ensures var (first, out1) := TailFeed(FRESH_TAIL, "quotes");
            var (second, out2) := TailFeed(first, "x");
            TailFlush(second) == (Tail("", "x", true), "") && out1 == out2 == ""
    ensures var (only, out) := TailFeed(FRESH_TAIL, "quotesx");
            TailFlush(only) == (FRESH_TAIL, "quotesx") && out == ""
  {
    WordIsTaken();
    TakesAll("quotes");
    var rest := "x";
    assert "" + rest == rest;
    LongerWordIsNot();
    HoldsAll("quotesx");
  }

  lemma {:induction false} NoNewlineNoMatch(s: string, i: nat)
    requires 0 < i <= |s| && forall k :: 0 <= k < |s| ==> s[k] != '\n'
    ensures Search(s, i).None?
    decreases |s| - i
  {
    if i < |s| {
      NoNewlineNoMatch(s, i + 1);
    }
  }

  // ---- both together ------------------------------------------------------------------------------------------

  /** One generation attempt: the pieces shown to the client, in order, and what is left. */
  datatype Attempt = Attempt(head: Head, tail: Tail, shown: seq<string>)

  function NewAttempt(): Attempt {
    Attempt(FreshHead(NO_ANSWER), FRESH_TAIL, [])
  }

  function Show(shown: seq<string>, visible: string): seq<string> {
    if visible == "" then shown else shown + [visible]
  }

  function AttemptFeed(a: Attempt, text: string): Attempt {
    var (head, passed) := HeadFeed(a.head, text);
    var (tail, visible) := TailFeed(a.tail, passed);
    Attempt(head, tail, Show(a.shown, visible))
  }

  function AttemptEnd(a: Attempt): Attempt {
    var (head, passed) := HeadFlush(a.head);
    var (tail, visible) := TailFeed(a.tail, passed);
    var (tail', rest) := TailFlush(tail);
    Attempt(head, tail', Show(a.shown, visible + rest))
  }

  function AttemptRun(deltas: seq<string>): Attempt {
    if deltas == [] then NewAttempt() else AttemptFeed(AttemptRun(deltas[..|deltas| - 1]), deltas[|deltas| - 1])
  }

  /** The tail has seen exactly what the head let pass, and what it let pass was shown. */
  ghost predicate Piped(a: Attempt, deltas: seq<string>) {
    && a.head == HeadRun(NO_ANSWER, deltas).0
    && Kept(a.tail, HeadRun(NO_ANSWER, deltas).1, Concat(a.shown))
    && (HeadRun(NO_ANSWER, deltas).1 == "" ==> a.shown == [] && a.tail == FRESH_TAIL)
  }

  lemma {:induction false} ShowConcat(shown: seq<string>, visible: string)
    ensures Concat(Show(shown, visible)) == Concat(shown) + visible
  {
    if visible != "" {
      assert (shown + [visible])[..|shown|] == shown;
    }
  }

  lemma {:induction false} NothingFound()
    ensures Search("", 0).None?
  {
  }

  /** The tail's side of a feed. */
  lemma {:induction false} TailPipes(t: Tail, shown: seq<string>, passed: string, more: string)
    requires Kept(t, passed, Concat(shown)) && (passed == "" ==> shown == [] && t == FRESH_TAIL)
    ensures var (t', visible) := TailFeed(t, more);
            && Kept(t', passed + more, Concat(Show(shown, visible)))
            && (passed + more == "" ==> Show(shown, visible) == [] && t' == FRESH_TAIL)
  {
    var (t', visible) := TailFeed(t, more);
    FeedKeeps(t, passed, Concat(shown), more);
    ShowConcat(shown, visible);
    NothingFound();
  }

  lemma {:induction false} RunPipes(deltas: seq<string>)
    ensures Piped(AttemptRun(deltas), deltas)
  {
    if deltas != [] {
      var before := deltas[..|deltas| - 1];
      RunPipes(before);
      var a := AttemptRun(before);
      var (h, passed) := HeadRun(NO_ANSWER, before);
      TailPipes(a.tail, a.shown, passed, HeadFeed(h, deltas[|deltas| - 1]).1);
    }
  }

  /** Nothing of a refusal is ever shown, not even before the stream ends. */
  lemma {:induction false} RefusalShowsNothing(deltas: seq<string>)
    ensures AttemptRun(deltas).head.refused ==>
      AttemptRun(deltas).shown == []
      && AttemptEnd(AttemptRun(deltas)).shown == []
  {
    RunPipes(deltas);
    RunJudges(NO_ANSWER, deltas);
    NothingFound();
  }

  /** And an answer is shown whole, up to the marker line of its quotes section. */
  lemma {:induction false} AttemptConserves(deltas: seq<string>)
    ensures var a := AttemptEnd(AttemptRun(deltas));
            && (a.head.refused <==> NO_ANSWER <= LStrip(Concat(deltas)))
            && (!a.head.refused ==> Ended(a.tail, Concat(deltas), Concat(a.shown)))
  {
    RunPipes(deltas);
    SentinelVerdict(NO_ANSWER, deltas);
    EndConserves(AttemptRun(deltas), HeadRun(NO_ANSWER, deltas).1);
  }

  lemma {:induction false} EndConserves(a: Attempt, passed: string)
    requires Kept(a.tail, passed, Concat(a.shown))
    ensures Ended(AttemptEnd(a).tail, passed + HeadFlush(a.head).1, Concat(AttemptEnd(a).shown))
  {
    var more := HeadFlush(a.head).1;
    var (tail, visible) := TailFeed(a.tail, more);
    FeedKeeps(a.tail, passed, Concat(a.shown), more);
    var rest := TailFlush(tail).1;
    FlushKeeps(tail, passed + more, Concat(a.shown) + visible);
    ShowConcat(a.shown, visible + rest);
    Associates(Concat(a.shown), visible, rest);
  }

  lemma {:induction false} Associates(a: string, b: string, c: string)
    ensures a + b + c == a + (b + c)
  {
  }

  // ---- the buffers, updated in place ------------------------------------------------------------------------------

  class SentinelBuffer {
    const sentinel: string
    var buffer: string
    var decided: bool
    var refused: bool

    function Snapshot(): Head
      reads this
    {
      Head(sentinel, buffer, decided, refused)
    }

    constructor (sentinel: string)
      ensures Snapshot() == FreshHead(sentinel)
    {
      this.sentinel := sentinel;
      buffer, decided, refused := "", false, false;
    }

    /** The text safe to emit now; nothing while the verdict is open. */
    method Feed(text: string) returns (out: string)
      modifies this
      ensures (Snapshot(), out) == HeadFeed(old(Snapshot()), text)
    {
      if decided {
        return if refused then "" else text;
      }
      buffer := buffer + text;
      var stripped := LStrip(buffer);
      if sentinel <= stripped {
        decided, refused := true, true;
        return "";
      }
      if !(Cut(stripped, |sentinel|) <= sentinel) {
        decided := true;
        out := buffer;
        buffer := "";
        return;
      }
      out := "";
    }

    method Flush() returns (out: string)
      modifies this
      ensures (Snapshot(), out) == HeadFlush(old(Snapshot()))
    {
      if decided || buffer == "" {
        return "";
      }
      decided := true;
      out := buffer;
      buffer := "";
    }
  }

  class QuoteSplitter {
    var pending: string
    var section: string
    var collecting: bool

    function Snapshot(): Tail
      reads this
    {
      Tail(pending, section, collecting)
    }

    ghost predicate Valid()
      reads this
    {
      !collecting ==> section == ""
    }

    constructor ()
      ensures Snapshot() == FRESH_TAIL
    {
      pending, section, collecting := "", "", false;
    }

    method Feed(text: string) returns (out: string)
      requires Valid()
      modifies this
      ensures Valid() && (Snapshot(), out) == TailFeed(old(Snapshot()), text)
    {
      if collecting {
        section := section + text;
        return "";
      }
      pending := pending + text;
      var found := FindMarker();
      if found.Some? {
        out := Divide(found.value.0, found.value.1);
        return;
      }
      if |pending| <= HOLD_BACK {
        return "";
      }
      out, pending := pending[..|pending| - HOLD_BACK], pending[|pending| - HOLD_BACK..];
    }

    method Flush() returns (out: string)
      requires Valid()
      modifies this
      ensures Valid() && (Snapshot(), out) == TailFlush(old(Snapshot()))
    {
      if collecting {
        return "";
      }
      var found := FindMarker();
      if found.Some? {
        out := Divide(found.value.0, found.value.1);
        return;
      }
      out, pending := pending, "";
      assert out[..|out| - 0] == out && out[|out| - 0..] == "";
    }

    method Divide(start: nat, end: nat) returns (head: string)
      requires start <= end <= |pending|
      modifies this
      ensures collecting && pending == "" && section == old(pending)[end..] && head == RStrip(old(pending)[..start])
    {
      head := RStrip(pending[..start]);
      section := pending[end..];
      pending := "";
      collecting := true;
    }

    method FindMarker() returns (found: Option<(nat, nat)>)
      ensures found == Search(pending, 0)
    {
      var i := 0;
      while i < |pending| && MatchAt(pending, i).None?
        invariant i <= |pending| && Search(pending, 0) == Search(pending, i)
      {
        i := i + 1;
      }
      var end := MatchAt(pending, i);
      found := if end.Some? then Some((i, end.value)) else None;
    }
  }
}
