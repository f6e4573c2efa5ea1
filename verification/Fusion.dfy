/**
 Reciprocal rank fusion of ranked result lists, with exact scores.
 */
module Fusion {
  import opened Common
  import opened RoundRobin

  // ---- scores ---------------------------------------------------------------------------------------------

  function Share(k: nat, position: nat): real {
    1.0 / (k + position + 1) as real
  }

  /** What the first n entries of a list give to an id. */
  function ListScore(results: seq<Chunk>, id: int, k: nat, n: nat): real
    requires n <= |results|
  {
    if n == 0 then 0.0
    else ListScore(results, id, k, n - 1) + if results[n - 1].id == id then Share(k, n - 1) else 0.0
  }

  /** What the first m lists give to an id. */
  function Score(lists: seq<seq<Chunk>>, id: int, k: nat, m: nat): real
    requires m <= |lists|
  {
    if m == 0 then 0.0 else Score(lists, id, k, m - 1) + ListScore(lists[m - 1], id, k, |lists[m - 1]|)
  }

  function Total(lists: seq<seq<Chunk>>, id: int, k: nat): real {
    Score(lists, id, k, |lists|)
  }

  /** All entries, list after list. */
  function Flat(lists: seq<seq<Chunk>>, m: nat): seq<Chunk>
    requires m <= |lists|
  {
    if m == 0 then [] else Flat(lists, m - 1) + lists[m - 1]
  }

  /** The candidates: one chunk per id, the first one met, in the order of meeting. */
  function Candidates(lists: seq<seq<Chunk>>): seq<Chunk> {
    Unique(Flat(lists, |lists|))
  }

  // ---- ranking ----------------------------------------------------------------------------------------------

  /** A candidate by its position, with its score. */
  datatype Entry = Entry(at: nat, score: real)

  predicate Ahead(a: Entry, b: Entry) {
    a.score > b.score || (a.score == b.score && a.at < b.at)
  }

  predicate IsSorted(entries: seq<Entry>) {
    forall i, j :: 0 <= i < j < |entries| ==> Ahead(entries[i], entries[j])
  }

  /** Every candidate once with its score, best first, ties in the order of meeting. */
  ghost predicate IsRanking(entries: seq<Entry>, lists: seq<seq<Chunk>>, k: nat) {
    && IsSorted(entries)
    && (forall e :: e in entries <==> IsEntry(e, lists, k))
  }

  ghost predicate IsEntry(e: Entry, lists: seq<seq<Chunk>>, k: nat) {
    e.at < |Candidates(lists)| && e.score == Total(lists, Candidates(lists)[e.at].id, k)
  }

  function Insert(entries: seq<Entry>, e: Entry): seq<Entry> {
    if entries == [] || Ahead(e, entries[0]) then [e] + entries else [entries[0]] + Insert(entries[1..], e)
  }

  lemma {:induction false} InsertHolds(entries: seq<Entry>, e: Entry, x: Entry)
    ensures x in Insert(entries, e) <==> x == e || x in entries
  {
    if entries != [] && !Ahead(e, entries[0]) {
      InsertHolds(entries[1..], e, x);
      assert entries == [entries[0]] + entries[1..];
    }
  }

  lemma {:induction false} InsertSorts(entries: seq<Entry>, e: Entry)
    requires IsSorted(entries) && forall i :: 0 <= i < |entries| ==> entries[i].at != e.at
    ensures IsSorted(Insert(entries, e))
  {
    if entries != [] && !Ahead(e, entries[0]) {
      var rest := Insert(entries[1..], e);
      InsertSorts(entries[1..], e);
      forall i | 0 <= i < |rest| ensures Ahead(entries[0], rest[i]) {
        InsertHolds(entries[1..], e, rest[i]);
        assert rest[i] in rest;
      }
    }
  }

  /** Sorted lists of the same entries have the same first one. */
  lemma {:induction false} FirstIsBest(entries: seq<Entry>, other: seq<Entry>)
    requires IsSorted(entries) && IsSorted(other) && entries != [] && (forall e :: e in entries <==> e in other)
    ensures other != [] && entries[0] == other[0]
  {
    assert entries[0] in other;
    assert other[0] in entries;
  }

  // ---- the loops --------------------------------------------------------------------------------------------

  datatype Scored = Scored(chunk: Chunk, score: real)

  /** The scores collected when `seen` are the candidates so far. */
  ghost predicate Collected(fused: map<int, real>, seen: seq<Chunk>, lists: seq<seq<Chunk>>, k: nat, m: nat, n: nat)
    requires m < |lists| && n <= |lists[m]|
  {
    && fused.Keys == Ids(seen)
    && forall id :: id in fused ==> fused[id] == Score(lists, id, k, m) + ListScore(lists[m], id, k, n)
  }

  ghost predicate Counted(fused: map<int, real>, seen: seq<Chunk>, lists: seq<seq<Chunk>>, k: nat, m: nat)
    requires m <= |lists|
  {
    fused.Keys == Ids(seen) && forall id :: id in fused ==> fused[id] == Score(lists, id, k, m)
  }

  /** An id that has not been met has no score yet. */
  lemma {:induction false} UnmetInList(results: seq<Chunk>, id: int, k: nat, n: nat)
    requires n <= |results| && forall i :: 0 <= i < n ==> results[i].id != id
    ensures ListScore(results, id, k, n) == 0.0
  {
    if n > 0 {
      UnmetInList(results, id, k, n - 1);
    }
  }

  lemma {:induction false} Unmet(lists: seq<seq<Chunk>>, id: int, k: nat, m: nat)
    requires m <= |lists| && id !in Ids(Flat(lists, m))
    ensures Score(lists, id, k, m) == 0.0
  {
    if m > 0 {
      var before, results := Flat(lists, m - 1), lists[m - 1];
      IdsHold(before + results, id);
      IdsHold(before, id);
      forall i | 0 <= i < |before| ensures before[i].id != id {
        assert (before + results)[i] == before[i];
      }
      forall i | 0 <= i < |results| ensures results[i].id != id {
        assert (before + results)[|before| + i] == results[i];
      }
      Unmet(lists, id, k, m - 1);
      UnmetInList(results, id, k, |results|);
    }
  }

  method Collect(lists: seq<seq<Chunk>>, k: nat) returns (fused: map<int, real>, seen: seq<Chunk>)
    ensures seen == Candidates(lists) && Counted(fused, seen, lists, k, |lists|)
  {
    fused, seen := map[], [];
    for m := 0 to |lists|
      invariant seen == Unique(Flat(lists, m)) && Counted(fused, seen, lists, k, m)
    {
      fused, seen := CollectList(lists, k, m, fused, seen);
    }
  }

  /** What has been read when the first n entries of list m have been visited. */
  function ReadTo(lists: seq<seq<Chunk>>, m: nat, n: nat): seq<Chunk>
    requires m < |lists| && n <= |lists[m]|
  {
    Flat(lists, m) + lists[m][..n]
  }

  lemma {:induction false} ReadSteps(lists: seq<seq<Chunk>>, m: nat, n: nat)
    requires m < |lists| && n <= |lists[m]|
    ensures ReadTo(lists, m, 0) == Flat(lists, m) && ReadTo(lists, m, |lists[m]|) == Flat(lists, m + 1)
    ensures n < |lists[m]| ==> ReadTo(lists, m, n + 1) == ReadTo(lists, m, n) + [lists[m][n]]
  {
    assert lists[m][..|lists[m]|] == lists[m];
  }

  method CollectList(lists: seq<seq<Chunk>>, k: nat, m: nat, fused: map<int, real>, seen: seq<Chunk>)
    returns (fused': map<int, real>, seen': seq<Chunk>)
    requires m < |lists| && seen == Unique(Flat(lists, m)) && Counted(fused, seen, lists, k, m)
    ensures seen' == Unique(Flat(lists, m + 1)) && Counted(fused', seen', lists, k, m + 1)
  {
    fused', seen' := fused, seen;
    ReadSteps(lists, m, 0);
    for n := 0 to |lists[m]|
      invariant seen' == Unique(ReadTo(lists, m, n)) && Collected(fused', seen', lists, k, m, n)
    {
      fused', seen' := Add(lists, k, m, n, fused', seen');
    }
  }

  method Add(lists: seq<seq<Chunk>>, k: nat, m: nat, n: nat, fused: map<int, real>, seen: seq<Chunk>)
    returns (fused': map<int, real>, seen': seq<Chunk>)
    requires m < |lists| && n < |lists[m]| && seen == Unique(ReadTo(lists, m, n))
      && Collected(fused, seen, lists, k, m, n)
    ensures seen' == Unique(ReadTo(lists, m, n + 1)) && Collected(fused', seen', lists, k, m, n + 1)
  {
    var chunk := lists[m][n];
    ReadSteps(lists, m, n);
    UniqueNext(ReadTo(lists, m, n), chunk);
    seen' := seen;
    var before := 0.0;
    if chunk.id in fused {
      before := fused[chunk.id];
    } else {
      UniqueKeepsIds(ReadTo(lists, m, n));
      NotYet(lists, chunk.id, k, m, n);
      IdsNext(seen, chunk);
      seen' := seen + [chunk];
    }
    fused' := fused[chunk.id := before + Share(k, n)];
    CollectedNext(lists, k, m, n, fused, seen, fused', seen');
  }

  lemma {:induction false} CollectedNext(lists: seq<seq<Chunk>>, k: nat, m: nat, n: nat, fused: map<int, real>,
                                         seen: seq<Chunk>,
                                         fused': map<int, real>, seen': seq<Chunk>)
    requires m < |lists| && n < |lists[m]| && Collected(fused, seen, lists, k, m, n)
    requires Ids(seen') == Ids(seen) + {lists[m][n].id}
    requires fused'
      == fused[lists[m][n].id := Score(lists, lists[m][n].id, k, m) + ListScore(lists[m], lists[m][n].id, k, n)
               + Share(k, n)]
    ensures Collected(fused', seen', lists, k, m, n + 1)
  {
  }

  lemma {:induction false} NotYet(lists: seq<seq<Chunk>>, id: int, k: nat, m: nat, n: nat)
    requires m < |lists| && n <= |lists[m]| && id !in Ids(ReadTo(lists, m, n))
    ensures Score(lists, id, k, m) + ListScore(lists[m], id, k, n) == 0.0
  {
    var before, results := Flat(lists, m), lists[m][..n];
    IdsHold(before + results, id);
    IdsHold(before, id);
    forall i | 0 <= i < |before| ensures before[i].id != id {
      assert (before + results)[i] == before[i];
    }
    forall i | 0 <= i < n ensures lists[m][i].id != id {
      assert (before + results)[|before| + i] == results[i];
    }
    Unmet(lists, id, k, m);
    UnmetInList(lists[m], id, k, n);
  }

  /** The best `topN` of all candidates, each with its exact score. */
  method Fuse(lists: seq<seq<Chunk>>, k: nat, topN: nat) returns (fusedList: seq<Scored>)
    ensures exists entries ::
      IsRanking(entries, lists, k) && |entries| == |Candidates(lists)|
      && AreBest(fusedList, entries, lists, topN)
  {
    var fused, seen := Collect(lists, k);
    var entries: seq<Entry> := [];
    UniqueIds(seen, lists);
    for i := 0 to |seen|
      invariant IsSorted(entries) && |entries| == i
      invariant forall e :: e in entries <==> e.at < i && IsEntry(e, lists, k)
    {
      IdsHold(seen, seen[i].id);
      var e := Entry(i, fused[seen[i].id]);
      InsertSorts(entries, e);
      InsertLength(entries, e);
      forall x ensures x in Insert(entries, e) <==> x.at < i + 1 && IsEntry(x, lists, k) {
        InsertHolds(entries, e, x);
      }
      entries := Insert(entries, e);
    }
    fusedList := [];
    for i := 0 to Min(topN, |entries|)
      invariant |fusedList| == i
      invariant forall j :: 0 <= j < i ==>
        entries[j].at < |seen|
        && fusedList[j] == Scored(seen[entries[j].at], entries[j].score)
    {
      assert entries[i] in entries;
      fusedList := fusedList + [Scored(seen[entries[i].at], entries[i].score)];
    }
  }

  lemma {:induction false} UniqueIds(seen: seq<Chunk>, lists: seq<seq<Chunk>>)
    requires seen == Candidates(lists)
    ensures Ids(seen) == Ids(Flat(lists, |lists|)) && Distinct(seen)
  {
    UniqueKeepsIds(Flat(lists, |lists|));
    UniqueIsDistinct(Flat(lists, |lists|));
  }

  lemma {:induction false} InsertLength(entries: seq<Entry>, e: Entry)
    ensures |Insert(entries, e)| == |entries| + 1
  {
    if entries != [] && !Ahead(e, entries[0]) {
      InsertLength(entries[1..], e);
    }
  }

  ghost predicate AreBest(best: seq<Scored>, entries: seq<Entry>, lists: seq<seq<Chunk>>, topN: nat) {
    && |best| == Min(topN, |entries|)
    && forall j :: 0 <= j < |best| ==>
         entries[j].at < |Candidates(lists)| && best[j] == Scored(Candidates(lists)[entries[j].at], entries[j].score)
  }

  // ---- main results ------------------------------------------------------------------------------------------

  /** Nothing left out beats anything kept. */
  lemma {:induction false} BestAreBest(best: seq<Scored>, entries: seq<Entry>, lists: seq<seq<Chunk>>, k: nat,
                                       topN: nat, i: nat, j: nat)
    requires IsRanking(entries, lists, k) && AreBest(best, entries, lists, topN)
    requires i < |best| && |best| <= j < |entries|
    ensures best[i].score == Total(lists, best[i].chunk.id, k)
    ensures entries[j].at < |Candidates(lists)| && best[i].score >= Total(lists, Candidates(lists)[entries[j].at].id, k)
  {
    assert entries[i] in entries && entries[j] in entries;
    assert IsEntry(entries[i], lists, k) && IsEntry(entries[j], lists, k);
  }

  lemma {:induction false} HoldsSomething(a: seq<Entry>, b: seq<Entry>)
    requires forall e :: e in a ==> e in b
    ensures a != [] ==> b != []
  {
    if a != [] {
      assert a[0] in b;
    }
  }

  lemma {:induction false} SortedUnique(a: seq<Entry>, b: seq<Entry>)
    requires IsSorted(a) && IsSorted(b) && forall e :: e in a <==> e in b
    ensures a == b
  {
    if a != [] {
      FirstIsBest(a, b);
      forall e ensures e in a[1..] <==> e in b[1..] {
        Rest(a, e);
        Rest(b, e);
      }
      SortedUnique(a[1..], b[1..]);
      assert a == [a[0]] + a[1..] && b == [b[0]] + b[1..];
    } else {
      HoldsSomething(b, a);
    }
  }

  /** Two rankings of the same lists are the same. */
  lemma {:induction false} RankingUnique(a: seq<Entry>, b: seq<Entry>, lists: seq<seq<Chunk>>, k: nat)
    requires IsRanking(a, lists, k) && IsRanking(b, lists, k)
    ensures a == b
  {
    SortedUnique(a, b);
  }

  lemma {:induction false} Rest(a: seq<Entry>, e: Entry)
    requires IsSorted(a) && a != []
    ensures e in a[1..] <==> e in a && e != a[0]
  {
    if i :| 1 <= i < |a| && a[i] == e {
      assert Ahead(a[0], a[i]) && a[1..][i - 1] == e;
    }
    if e in a[1..] {
      var j :| 0 <= j < |a| - 1 && a[1..][j] == e;
      assert Ahead(a[0], a[j + 1]);
    }
  }

  /** The position of an id in a list that has it once. */
  ghost predicate HasAt(results: seq<Chunk>, id: int, p: nat) {
    p < |results| && results[p].id == id
  }

  ghost predicate Has(results: seq<Chunk>, id: int) {
    exists p: nat :: HasAt(results, id, p)
  }

  lemma {:induction false} HasNot(results: seq<Chunk>, id: int)
    requires !Has(results, id)
    ensures forall i :: 0 <= i < |results| ==> results[i].id != id
  {
    forall i: nat | i < |results| ensures results[i].id != id {
      assert !HasAt(results, id, i);
    }
  }

  /** The id is found before this position. */
  ghost predicate HasBefore(results: seq<Chunk>, id: int, q: nat) {
    exists p: nat :: p < q && HasAt(results, id, p)
  }

  lemma {:induction false} ScoreAt(results: seq<Chunk>, id: int, k: nat, p: nat, n: nat)
    requires Distinct(results) && HasAt(results, id, p) && n <= |results|
    ensures ListScore(results, id, k, n) == if p < n then Share(k, p) else 0.0
  {
    if n > 0 {
      ScoreAt(results, id, k, p, n - 1);
    }
  }

  lemma {:induction false} ShareFalls(k: nat, p: nat, q: nat)
    requires p <= q
    ensures Share(k, p) >= Share(k, q) > 0.0
    ensures p < q ==> Share(k, p) > Share(k, q)
  {
    Reciprocal((k + p + 1) as real, (k + q + 1) as real);
  }

  lemma {:induction false} Reciprocal(x: real, y: real)
    requires 0.0 < x <= y
    ensures 1.0 / x >= 1.0 / y > 0.0 && (x < y ==> 1.0 / x > 1.0 / y)
  {
    assert 1.0 / y > 0.0;
    assert 1.0 / x * x == 1.0 && 1.0 / y * y == 1.0;
  }

  /** x is ahead of y in every list that has y. */
  ghost predicate Dominates(lists: seq<seq<Chunk>>, x: int, y: int) {
    forall l: nat, q: nat :: l < |lists| && HasAt(lists[l], y, q) ==> HasBefore(lists[l], x, q)
  }

  lemma {:induction false} DominatesList(results: seq<Chunk>, x: int, y: int, k: nat)
    requires Distinct(results)
    requires forall q: nat :: HasAt(results, y, q) ==> HasBefore(results, x, q)
    ensures ListScore(results, x, k, |results|) >= ListScore(results, y, k, |results|)
    ensures Has(results, y) ==> ListScore(results, x, k, |results|) > ListScore(results, y, k, |results|)
  {
    if Has(results, y) {
      var q: nat :| HasAt(results, y, q);
      assert HasBefore(results, x, q);
      var p: nat :| p < q && HasAt(results, x, p);
      ScoreAt(results, x, k, p, |results|);
      ScoreAt(results, y, k, q, |results|);
      ShareFalls(k, p, q);
    } else {
      HasNot(results, y);
      UnmetInList(results, y, k, |results|);
      ListScorePositive(results, x, k, |results|);
    }
  }

  lemma {:induction false} ListScorePositive(results: seq<Chunk>, id: int, k: nat, n: nat)
    requires n <= |results|
    ensures ListScore(results, id, k, n) >= 0.0
  {
    if n > 0 {
      ListScorePositive(results, id, k, n - 1);
      ShareFalls(k, n - 1, n - 1);
    }
  }

  /** A chunk ahead of another wherever that one is found scores strictly higher. */
  lemma {:induction false} AheadEverywhere(lists: seq<seq<Chunk>>, x: int, y: int, k: nat, m: nat)
    requires (forall l :: 0 <= l < |lists| ==> Distinct(lists[l])) && Dominates(lists, x, y) && m <= |lists|
    ensures Score(lists, x, k, m) >= Score(lists, y, k, m)
    ensures (exists l :: 0 <= l < m && Has(lists[l], y)) ==> Score(lists, x, k, m) > Score(lists, y, k, m)
  {
    if m > 0 {
      AheadEverywhere(lists, x, y, k, m - 1);
      DominatesList(lists[m - 1], x, y, k);
    }
  }

  lemma {:induction false} AtLeastOne(lists: seq<seq<Chunk>>, id: int, k: nat, m: nat, l: nat)
    requires l < m <= |lists|
    ensures Score(lists, id, k, m) >= ListScore(lists[l], id, k, |lists[l]|) && Score(lists, id, k, m) >= 0.0
  {
    ListScorePositive(lists[m - 1], id, k, |lists[m - 1]|);
    if l < m - 1 {
      AtLeastOne(lists, id, k, m - 1, l);
    } else {
      ScorePositive(lists, id, k, m - 1);
    }
  }

  lemma {:induction false} ScorePositive(lists: seq<seq<Chunk>>, id: int, k: nat, m: nat)
    requires m <= |lists|
    ensures Score(lists, id, k, m) >= 0.0
  {
    if m > 0 {
      ScorePositive(lists, id, k, m - 1);
      ListScorePositive(lists[m - 1], id, k, |lists[m - 1]|);
    }
  }

  lemma {:induction false} AtLeastTwo(lists: seq<seq<Chunk>>, id: int, k: nat, m: nat, a: nat, b: nat)
    requires a < b < m <= |lists|
    ensures Score(lists, id, k, m) >= ListScore(lists[a], id, k, |lists[a]|) + ListScore(lists[b], id, k, |lists[b]|)
  {
    ListScorePositive(lists[m - 1], id, k, |lists[m - 1]|);
    if b < m - 1 {
      AtLeastTwo(lists, id, k, m - 1, a, b);
    } else {
      AtLeastOne(lists, id, k, m - 1, a);
    }
  }

  /** The score of an id that only one list has. */
  lemma {:induction false} OnlyOne(lists: seq<seq<Chunk>>, id: int, k: nat, m: nat, l: nat)
    requires m <= |lists| && l < |lists| && (forall i :: 0 <= i < |lists| && i != l ==> !Has(lists[i], id))
    ensures Score(lists, id, k, m) == if l < m then ListScore(lists[l], id, k, |lists[l]|) else 0.0
  {
    if m > 0 {
      OnlyOne(lists, id, k, m - 1, l);
      if l != m - 1 {
        HasNot(lists[m - 1], id);
        UnmetInList(lists[m - 1], id, k, |lists[m - 1]|);
      }
    }
  }

  /** Two halves of the best single hit add up to more than it. */
  lemma {:induction false} TwoBeatOne(k: nat, p: nat, q: nat, r: nat)
    requires p <= k && q <= k
    ensures Share(k, p) + Share(k, q) > Share(k, r)
  {
    ShareFalls(k, p, k);
    ShareFalls(k, q, k);
    ShareFalls(k, 0, r);
    var x := (k + 1) as real;
    assert (k + k + 1) as real == 2.0 * x - 1.0;
    Halves(x);
  }

  lemma {:induction false} Halves(x: real)
    requires x >= 1.0
    ensures 1.0 / (2.0 * x - 1.0) + 1.0 / (2.0 * x - 1.0) > 1.0 / x
  {
    var y := 2.0 * x - 1.0;
    assert 1.0 / y + 1.0 / y == 2.0 / y;
    assert 2.0 / y > 1.0 / x by {
      assert 2.0 / y * y == 2.0 && 1.0 / x * x == 1.0;
      Reciprocal(y / 2.0, x);
      assert 1.0 / (y / 2.0) == 2.0 / y;
    }
  }

  /** A chunk among the best k + 1 of two lists outscores everything found by one list only:
      with k = 60, anything both searches have in their first 61. */
  lemma {:induction false} TwoListsBeatOne(lists: seq<seq<Chunk>>, x: int, y: int, k: nat, a: nat, b: nat, p: nat,
                                           q: nat, l: nat)
    requires forall i :: 0 <= i < |lists| ==> Distinct(lists[i])
    requires a < b < |lists| && HasAt(lists[a], x, p) && HasAt(lists[b], x, q) && p <= k && q <= k
    requires l < |lists| && forall i :: 0 <= i < |lists| && i != l ==> !Has(lists[i], y)
    ensures Total(lists, x, k) > Total(lists, y, k)
  {
    AtLeastTwo(lists, x, k, |lists|, a, b);
    ScoreAt(lists[a], x, k, p, |lists[a]|);
    ScoreAt(lists[b], x, k, q, |lists[b]|);
    OnlyOne(lists, y, k, |lists|, l);
    if Has(lists[l], y) {
      var r: nat :| HasAt(lists[l], y, r);
      ScoreAt(lists[l], y, k, r, |lists[l]|);
      TwoBeatOne(k, p, q, r);
    } else {
      HasNot(lists[l], y);
      UnmetInList(lists[l], y, k, |lists[l]|);
      ShareFalls(k, p, q + p);
      ShareFalls(k, q, q + p);
    }
  }

  /** A list that has the id at one place adds the reciprocal of k plus its rank, counted from one; a list
      that does not have it adds nothing. */
  lemma {:induction false} ListAdds(lists: seq<seq<Chunk>>, results: seq<Chunk>, id: int, k: nat, at: nat)
    requires forall i: nat :: i < |results| && i != at ==> results[i].id != id
    ensures at < |results| && results[at].id == id ==>
              Total(lists + [results], id, k) == Total(lists, id, k) + 1.0 / (k + (at + 1)) as real
    ensures at >= |results| ==> Total(lists + [results], id, k) == Total(lists, id, k)
    ensures Total([], id, k) == 0.0
  {
    var all := lists + [results];
    ScoreOfPrefix(lists, all, id, k, |lists|);
    OnePlace(results, id, k, at, |results|);
  }

  lemma {:induction false} ScoreOfPrefix(lists: seq<seq<Chunk>>, all: seq<seq<Chunk>>, id: int, k: nat, m: nat)
    requires m <= |lists| && lists <= all
    ensures Score(all, id, k, m) == Score(lists, id, k, m)
  {
    if m > 0 {
      ScoreOfPrefix(lists, all, id, k, m - 1);
    }
  }

  lemma {:induction false} OnePlace(results: seq<Chunk>, id: int, k: nat, at: nat, n: nat)
    requires n <= |results| && forall i: nat :: i < |results| && i != at ==> results[i].id != id
    ensures ListScore(results, id, k, n) == if at < n && results[at].id == id then 1.0 / (k + (at + 1)) as real else 0.0
  {
    if n > 0 {
      OnePlace(results, id, k, at, n - 1);
    }
  }
}
