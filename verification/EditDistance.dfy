/**
 The word error rate of a recognised text: a two-row dynamic programme, proved to compute the
 least cost of any edit script.
 */
module EditDistance {
  import opened Common

  type Word = string

  // ---- edit scripts, the meaning of the distance ----------------------------------------------------

  /** One edit; putting a word in place of another costs nothing when they are the same. */
  datatype Edit = Delete(from: Word) | Insert(into: Word) | Replace(from: Word, into: Word)

  function Consumed(e: Edit): seq<Word> {
    match e
    case Delete(w) => [w]
    case Insert(_) => []
    case Replace(w, _) => [w]
  }

  function Produced(e: Edit): seq<Word> {
    match e
    case Delete(_) => []
    case Insert(w) => [w]
    case Replace(_, w) => [w]
  }

  function Price(e: Edit): nat {
    if e.Replace? && e.from == e.into then 0 else 1
  }

  function Source(script: seq<Edit>): seq<Word> {
    if script == [] then [] else Source(script[..|script| - 1]) + Consumed(script[|script| - 1])
  }

  function Target(script: seq<Edit>): seq<Word> {
    if script == [] then [] else Target(script[..|script| - 1]) + Produced(script[|script| - 1])
  }

  function Cost(script: seq<Edit>): nat {
    if script == [] then 0 else Cost(script[..|script| - 1]) + Price(script[|script| - 1])
  }

  predicate Turns(script: seq<Edit>, a: seq<Word>, b: seq<Word>) {
    Source(script) == a && Target(script) == b
  }

  /** The least cost of turning one list of words into the other. */
  ghost predicate IsDistance(d: nat, a: seq<Word>, b: seq<Word>) {
    && (exists script :: Turns(script, a, b) && Cost(script) == d)
    && (forall script :: Turns(script, a, b) ==> d <= Cost(script))
  }

  // ---- the recurrence over prefixes ---------------------------------------------------------------------

  function Least(x: int, y: int, z: int): int {
    Min(x, Min(y, z))
  }

  function Differs(v: Word, w: Word): nat {
    if v != w then 1 else 0
  }

  function Distance(a: seq<Word>, b: seq<Word>, i: nat, j: nat): (d: int)
    requires i <= |a| && j <= |b|
    ensures d >= 0
  {
    if i == 0 then j
    else if j == 0 then i
    else Least(Distance(a, b, i - 1, j) + 1, Distance(a, b, i, j - 1) + 1,
               Distance(a, b, i - 1, j - 1) + Differs(a[i - 1], b[j - 1]))
  }

  lemma {:induction false} Extend(script: seq<Edit>, e: Edit, a: seq<Word>, b: seq<Word>)
    requires Turns(script, a, b)
    ensures Turns(script + [e], a + Consumed(e), b + Produced(e)) && Cost(script + [e]) == Cost(script) + Price(e)
  {
    assert (script + [e])[..|script|] == script;
  }

  lemma {:induction false} ExtendInsert(rest: seq<Edit>, a: seq<Word>, b: seq<Word>, i: nat, j: nat)
    requires i <= |a| && 0 < j <= |b| && Turns(rest, a[..i], b[..j - 1])
    ensures Turns(rest + [Insert(b[j - 1])], a[..i], b[..j]) && Cost(rest + [Insert(b[j - 1])]) == Cost(rest) + 1
  {
    Extend(rest, Insert(b[j - 1]), a[..i], b[..j - 1]);
    assert a[..i] + [] == a[..i] && b[..j - 1] + [b[j - 1]] == b[..j];
  }

  lemma {:induction false} ExtendDelete(rest: seq<Edit>, a: seq<Word>, b: seq<Word>, i: nat, j: nat)
    requires 0 < i <= |a| && j <= |b| && Turns(rest, a[..i - 1], b[..j])
    ensures Turns(rest + [Delete(a[i - 1])], a[..i], b[..j]) && Cost(rest + [Delete(a[i - 1])]) == Cost(rest) + 1
  {
    Extend(rest, Delete(a[i - 1]), a[..i - 1], b[..j]);
    assert b[..j] + [] == b[..j] && a[..i - 1] + [a[i - 1]] == a[..i];
  }

  lemma {:induction false} ExtendReplace(rest: seq<Edit>, a: seq<Word>, b: seq<Word>, i: nat, j: nat)
    requires 0 < i <= |a| && 0 < j <= |b| && Turns(rest, a[..i - 1], b[..j - 1])
    ensures Turns(rest + [Replace(a[i - 1], b[j - 1])], a[..i], b[..j])
    ensures Cost(rest + [Replace(a[i - 1], b[j - 1])]) == Cost(rest) + Differs(a[i - 1], b[j - 1])
  {
    Extend(rest, Replace(a[i - 1], b[j - 1]), a[..i - 1], b[..j - 1]);
    assert a[..i - 1] + [a[i - 1]] == a[..i] && b[..j - 1] + [b[j - 1]] == b[..j];
  }

  /** Some script costs as little as the recurrence says. */
  lemma {:induction false} DistanceAttained(a: seq<Word>, b: seq<Word>, i: nat, j: nat) returns (script: seq<Edit>)
    requires i <= |a| && j <= |b|
    ensures Turns(script, a[..i], b[..j]) && Cost(script) == Distance(a, b, i, j)
    decreases i + j
  {
    if i == 0 && j == 0 {
      script := [];
    } else if i == 0 || (j > 0 && Distance(a, b, i, j) == Distance(a, b, i, j - 1) + 1) {
      var rest := DistanceAttained(a, b, i, j - 1);
      ExtendInsert(rest, a, b, i, j);
      script := rest + [Insert(b[j - 1])];
    } else if j == 0 || Distance(a, b, i, j) == Distance(a, b, i - 1, j) + 1 {
      var rest := DistanceAttained(a, b, i - 1, j);
      ExtendDelete(rest, a, b, i, j);
      script := rest + [Delete(a[i - 1])];
    } else {
      var rest := DistanceAttained(a, b, i - 1, j - 1);
      ExtendReplace(rest, a, b, i, j);
      script := rest + [Replace(a[i - 1], b[j - 1])];
    }
  }

  /** Dropping the last word of a list, if the last edit ends it. */
  lemma {:induction false} LastWord(rest: seq<Word>, w: Word, a: seq<Word>, i: nat)
    requires i <= |a| && rest + [w] == a[..i]
    ensures i > 0 && rest == a[..i - 1] && w == a[i - 1]
  {
    assert rest == (rest + [w])[..|rest|] && w == (rest + [w])[|rest|];
  }

  lemma {:induction false} DistanceSteps(a: seq<Word>, b: seq<Word>, i: nat, j: nat)
    requires i <= |a| && j <= |b|
    ensures i > 0 ==> Distance(a, b, i, j) <= Distance(a, b, i - 1, j) + 1
    ensures j > 0 ==> Distance(a, b, i, j) <= Distance(a, b, i, j - 1) + 1
    ensures i > 0 && j > 0 ==> Distance(a, b, i, j) <= Distance(a, b, i - 1, j - 1) + Differs(a[i - 1], b[j - 1])
  {
  }

  /** And none costs less. */
  lemma {:induction false} DistanceMinimal(a: seq<Word>, b: seq<Word>, i: nat, j: nat, script: seq<Edit>)
    requires i <= |a| && j <= |b| && Turns(script, a[..i], b[..j])
    ensures Distance(a, b, i, j) <= Cost(script)
  {
    if script == [] {
      assert i == |a[..i]| && j == |b[..j]|;
    } else {
      var rest, e := script[..|script| - 1], script[|script| - 1];
      DistanceSteps(a, b, i, j);
      if e.Delete? {
        LastWord(Source(rest), e.from, a, i);
        assert Target(rest) + [] == Target(rest);
        DistanceMinimal(a, b, i - 1, j, rest);
      } else if e.Insert? {
        LastWord(Target(rest), e.into, b, j);
        assert Source(rest) + [] == Source(rest);
        DistanceMinimal(a, b, i, j - 1, rest);
      } else {
        LastWord(Source(rest), e.from, a, i);
        LastWord(Target(rest), e.into, b, j);
        DistanceMinimal(a, b, i - 1, j - 1, rest);
      }
    }
  }

  lemma {:induction false} DistanceIsLeast(a: seq<Word>, b: seq<Word>)
    ensures IsDistance(Distance(a, b, |a|, |b|), a, b)
  {
    assert a[..|a|] == a && b[..|b|] == b;
    var best := DistanceAttained(a, b, |a|, |b|);
    forall script | Turns(script, a, b) ensures Distance(a, b, |a|, |b|) <= Cost(script) {
      DistanceMinimal(a, b, |a|, |b|, script);
    }
  }

  /** A script that costs nothing changes nothing. */
  lemma {:induction false} FreeScriptCopies(script: seq<Edit>)
    requires Cost(script) == 0
    ensures Source(script) == Target(script)
  {
    if script != [] {
      FreeScriptCopies(script[..|script| - 1]);
    }
  }

  lemma {:induction false} Copy(a: seq<Word>, n: nat) returns (script: seq<Edit>)
    requires n <= |a|
    ensures Turns(script, a[..n], a[..n]) && Cost(script) == 0
  {
    if n == 0 {
      script := [];
    } else {
      var rest := Copy(a, n - 1);
      Extend(rest, Replace(a[n - 1], a[n - 1]), a[..n - 1], a[..n - 1]);
      script := rest + [Replace(a[n - 1], a[n - 1])];
      assert a[..n - 1] + [a[n - 1]] == a[..n];
    }
  }

  /** A distance is zero exactly between equal lists. */
  lemma {:induction false} ZeroIffEqual(a: seq<Word>, b: seq<Word>, d: nat)
    requires IsDistance(d, a, b)
    ensures d == 0 <==> a == b
  {
    var best :| Turns(best, a, b) && Cost(best) == d;
    if d == 0 {
      FreeScriptCopies(best);
    }
    if a == b {
      var copy := Copy(a, |a|);
      assert a[..|a|] == a && Turns(copy, a, b);
    }
  }

  // ---- the word error rate ----------------------------------------------------------------------------------

  /** The words that are not empty once normalised. */
  function Normalised(words: seq<Word>, norm: Word -> Word): seq<Word> {
    if words == [] then []
    else
      var before, w := Normalised(words[..|words| - 1], norm), norm(words[|words| - 1]);
      if w == "" then before else before + [w]
  }

  method Normalise(words: seq<Word>, norm: Word -> Word) returns (kept: seq<Word>)
    ensures kept == Normalised(words, norm) && "" !in kept
  {
    kept := [];
    for i := 0 to |words|
      invariant kept == Normalised(words[..i], norm) && "" !in kept
    {
      assert words[..i + 1][..i] == words[..i];
      var w := norm(words[i]);
      if w != "" {
        kept := kept + [w];
      }
    }
    assert words[..|words|] == words;
  }

  /** Row i of the table: the distances of the first i words to every prefix. */
  ghost predicate IsRow(row: array<int>, a: seq<Word>, b: seq<Word>, i: nat, upto: nat)
    requires i <= |a| && upto <= |b| + 1
    reads row
  {
    row.Length == |b| + 1 && forall j :: 0 <= j < upto ==> row[j] == Distance(a, b, i, j)
  }

  method FillRow(prev: array<int>, cur: array<int>, a: seq<Word>, b: seq<Word>, i: nat)
    requires 0 < i <= |a| && prev != cur && IsRow(prev, a, b, i - 1, |b| + 1) && cur.Length == |b| + 1
    modifies cur
    ensures IsRow(cur, a, b, i, |b| + 1) && IsRow(prev, a, b, i - 1, |b| + 1)
  {
    cur[0] := i;
    for j := 1 to |b| + 1
      invariant IsRow(cur, a, b, i, j) && IsRow(prev, a, b, i - 1, |b| + 1)
    {
      cur[j] := Least(prev[j] + 1, cur[j - 1] + 1, prev[j - 1] + Differs(a[i - 1], b[j - 1]));
    }
  }

  /** Row after row, keeping only the last one. */
  method LeastEdits(a: seq<Word>, b: seq<Word>) returns (d: nat)
    ensures IsDistance(d, a, b)
  {
    var prev := new int[|b| + 1](j => j);
    for i := 0 to |a|
      invariant IsRow(prev, a, b, i, |b| + 1)
    {
      var cur := new int[|b| + 1](_ => 0);
      FillRow(prev, cur, a, b, i + 1);
      prev := cur;
    }
    DistanceIsLeast(a, b);
    d := prev[|b|];
  }

  /** Zero for an empty reference; otherwise the least number of edits, per reference word. */
  method WordErrorRate(reference: seq<Word>, hypothesis: seq<Word>, norm: Word -> Word) returns (rate: real)
    ensures var a, b := Normalised(reference, norm), Normalised(hypothesis, norm);
            if a == [] then rate == 0.0
            else exists d: nat :: IsDistance(d, a, b) && rate == d as real / |a| as real
  {
    var a := Normalise(reference, norm);
    var b := Normalise(hypothesis, norm);
    if a == [] {
      return 0.0;
    }
    var d := LeastEdits(a, b);
    rate := d as real / |a| as real;
  }

  /** A rate of zero means the words agree, unless there were none to recognise. */
  lemma {:induction false} PerfectIffEqual(a: seq<Word>, b: seq<Word>, d: nat)
    requires a != [] && IsDistance(d, a, b)
    ensures d as real / |a| as real == 0.0 <==> a == b
  {
    ZeroIffEqual(a, b, d);
  }
}
