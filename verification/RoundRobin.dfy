/**
 Merging ranked result lists by rank: first everybody's best, then everybody's second, without
 repeating a chunk, up to a limit.
 */
module RoundRobin {
  import opened Common

  datatype Chunk = Chunk(id: int, content: string)

  // ---- the reading order and duplicates -----------------------------------------------------------------

  /** The chunks at one rank, in group order, from the first n groups. */
  function Row(groups: seq<seq<Chunk>>, rank: nat, n: nat): seq<Chunk>
    requires n <= |groups|
  {
    if n == 0 then []
    else Row(groups, rank, n - 1) + if rank < |groups[n - 1]| then [groups[n - 1][rank]] else []
  }

  /** Rank by rank, the first r ranks of every group. */
  function Ranked(groups: seq<seq<Chunk>>, r: nat): seq<Chunk> {
    if r == 0 then [] else Ranked(groups, r - 1) + Row(groups, r - 1, |groups|)
  }

  function Ids(chunks: seq<Chunk>): set<int> {
    if chunks == [] then {} else Ids(chunks[..|chunks| - 1]) + {chunks[|chunks| - 1].id}
  }

  lemma {:induction false} IdsHold(chunks: seq<Chunk>, id: int)
    ensures id in Ids(chunks) <==> exists i :: 0 <= i < |chunks| && chunks[i].id == id
  {
    if chunks != [] {
      IdsHold(chunks[..|chunks| - 1], id);
      if id in Ids(chunks[..|chunks| - 1]) {
        var i :| 0 <= i < |chunks| - 1 && chunks[..|chunks| - 1][i].id == id;
        assert chunks[i].id == id;
      }
      if i :| 0 <= i < |chunks| - 1 && chunks[i].id == id {
        assert chunks[..|chunks| - 1][i].id == id;
      }
    }
  }

  lemma {:induction false} IdsNext(chunks: seq<Chunk>, c: Chunk)
    ensures Ids(chunks + [c]) == Ids(chunks) + {c.id}
  {
    assert (chunks + [c])[..|chunks|] == chunks;
  }

  /** First occurrences only. */
  function Unique(chunks: seq<Chunk>): seq<Chunk> {
    if chunks == [] then []
    else
      var before, c := Unique(chunks[..|chunks| - 1]), chunks[|chunks| - 1];
      if c.id in Ids(before) then before else before + [c]
  }

  function Capped(chunks: seq<Chunk>, limit: nat): seq<Chunk> {
    if |chunks| <= limit then chunks else chunks[..limit]
  }

  ghost predicate Distinct(chunks: seq<Chunk>) {
    forall i, j :: 0 <= i < j < |chunks| ==> chunks[i].id != chunks[j].id
  }

  lemma {:induction false} UniqueNext(chunks: seq<Chunk>, c: Chunk)
    ensures Unique(chunks + [c]) == if c.id in Ids(Unique(chunks)) then Unique(chunks) else Unique(chunks) + [c]
  {
    assert (chunks + [c])[..|chunks|] == chunks;
  }

  /** Reading on never changes what has been kept. */
  lemma {:induction false} UniqueGrows(a: seq<Chunk>, b: seq<Chunk>)
    requires a <= b
    ensures Unique(a) <= Unique(b)
  {
    if |a| == |b| {
      assert a == b;
    } else {
      var rest := b[..|b| - 1];
      assert a <= rest;
      UniqueGrows(a, rest);
    }
  }

  /** What uniqueness keeps: every id once, and only chunks that were there. */
  lemma {:induction false} UniqueKeepsIds(chunks: seq<Chunk>)
    ensures Ids(Unique(chunks)) == Ids(chunks) && |Unique(chunks)| <= |chunks|
  {
    if chunks != [] {
      var rest, c := chunks[..|chunks| - 1], chunks[|chunks| - 1];
      UniqueKeepsIds(rest);
      IdsNext(Unique(rest), c);
    }
  }

  lemma {:induction false} UniqueIsDistinct(chunks: seq<Chunk>)
    ensures Distinct(Unique(chunks))
  {
    if chunks != [] {
      var rest, c := chunks[..|chunks| - 1], chunks[|chunks| - 1];
      UniqueIsDistinct(rest);
      IdsHold(Unique(rest), c.id);
    }
  }

  lemma {:induction false} UniqueFromChunks(chunks: seq<Chunk>, c: Chunk)
    requires c in Unique(chunks)
    ensures c in chunks
  {
    if c in Unique(chunks[..|chunks| - 1]) {
      UniqueFromChunks(chunks[..|chunks| - 1], c);
    }
  }

  /** And it keeps the first chunk of an id. */
  lemma {:induction false} UniqueKeepsFirst(chunks: seq<Chunk>, i: nat)
    requires i < |chunks| && chunks[i].id !in Ids(chunks[..i])
    ensures chunks[i] in Unique(chunks)
  {
    var before, c := chunks[..i], chunks[i];
    UniqueNext(before, c);
    UniqueKeepsIds(before);
    var kept := Unique(before) + [c];
    assert kept[|kept| - 1] == c;
    assert before + [c] <= chunks;
    UniqueGrows(before + [c], chunks);
    assert kept <= Unique(chunks);
  }

  // ---- the merge -------------------------------------------------------------------------------------------

  function Longest(groups: seq<seq<Chunk>>, n: nat): nat
    requires n <= |groups|
  {
    if n == 0 then 0 else Max(Longest(groups, n - 1), |groups[n - 1]|)
  }

  lemma {:induction false} LongestBounds(groups: seq<seq<Chunk>>, n: nat, rank: nat)
    requires n <= |groups|
    ensures rank < Longest(groups, n) <==> exists i :: 0 <= i < n && rank < |groups[i]|
  {
    if n > 0 {
      LongestBounds(groups, n - 1, rank);
    }
  }

  /** The specification: the first `limit` of all chunks, rank by rank, without repetition. */
  function Merged(groups: seq<seq<Chunk>>, limit: nat): seq<Chunk> {
    Capped(Unique(Ranked(groups, Longest(groups, |groups|))), limit)
  }

  method AnyLonger(groups: seq<seq<Chunk>>, rank: nat) returns (any: bool)
    ensures any <==> rank < Longest(groups, |groups|)
  {
    any := false;
    for i := 0 to |groups|
      invariant any <==> rank < Longest(groups, i)
    {
      if rank < |groups[i]| {
        any := true;
      }
    }
  }

  /** The loop state after reading these chunks: what has been merged and which ids it has. */
  datatype Reader = Reader(merged: seq<Chunk>, seen: set<int>)

  function Take(r: Reader, c: Chunk, limit: nat): Reader {
    if |r.merged| >= limit || c.id in r.seen then r else Reader(r.merged + [c], r.seen + {c.id})
  }

  function Reading(read: seq<Chunk>, limit: nat): Reader {
    if read == [] then Reader([], {}) else Take(Reading(read[..|read| - 1], limit), read[|read| - 1], limit)
  }

  lemma {:induction false} ReadingNext(read: seq<Chunk>, c: Chunk, limit: nat)
    ensures Reading(read + [c], limit) == Take(Reading(read, limit), c, limit)
  {
    assert (read + [c])[..|read|] == read;
  }

  /** At the limit, reading on changes nothing. */
  lemma {:induction false} ReadingStops(read: seq<Chunk>, more: seq<Chunk>, limit: nat)
    requires |Reading(read, limit).merged| >= limit && read <= more
    ensures Reading(more, limit) == Reading(read, limit)
  {
    if |read| == |more| {
      assert read == more;
    } else {
      ReadingStops(read, more[..|more| - 1], limit);
    }
  }

  lemma {:induction false} TakeKeeps(kept: seq<Chunk>, c: Chunk, r: Reader, limit: nat)
    requires r.merged == Capped(kept, limit) && (|kept| <= limit ==> r.seen == Ids(kept)) && c.id !in Ids(kept)
    ensures Take(r, c, limit).merged == Capped(kept + [c], limit)
    ensures |kept| < limit ==> Take(r, c, limit).seen == Ids(kept + [c])
  {
    IdsNext(kept, c);
    PrefixStays(kept, c, limit);
  }

  lemma {:induction false} PrefixStays(kept: seq<Chunk>, c: Chunk, limit: nat)
    ensures |kept| >= limit ==> Capped(kept + [c], limit) == Capped(kept, limit)
    ensures |kept| < limit ==> Capped(kept + [c], limit) == kept + [c]
  {
  }

  /** Reading keeps first occurrences, up to the limit. */
  lemma {:induction false} ReadingIsUnique(read: seq<Chunk>, limit: nat)
    ensures Reading(read, limit).merged == Capped(Unique(read), limit)
    ensures |Unique(read)| <= limit ==> Reading(read, limit).seen == Ids(Unique(read))
  {
    if read != [] {
      var before, c := read[..|read| - 1], read[|read| - 1];
      ReadingIsUnique(before, limit);
      var kept, r := Unique(before), Reading(before, limit);
      assert Reading(read, limit) == Take(r, c, limit);
      if c.id in Ids(kept) {
        assert |kept| <= limit ==> Take(r, c, limit) == r;
      } else {
        TakeKeeps(kept, c, r, limit);
      }
    }
  }

  /** What has been read when the first n groups of a row have been visited. */
  function Visited(groups: seq<seq<Chunk>>, rank: nat, n: nat): seq<Chunk>
    requires n <= |groups|
  {
    Ranked(groups, rank) + Row(groups, rank, n)
  }

  lemma {:induction false} VisitNext(groups: seq<seq<Chunk>>, rank: nat, n: nat)
    requires n < |groups|
    ensures Visited(groups, rank, n + 1) == if rank < |groups[n]| then Visited(groups, rank, n) + [groups[n][rank]]
      else Visited(groups, rank, n)
  {
  }

  lemma {:induction false} VisitGrows(groups: seq<seq<Chunk>>, rank: nat, n: nat)
    requires n <= |groups|
    ensures Visited(groups, rank, n) <= Visited(groups, rank, |groups|) == Ranked(groups, rank + 1)
    ensures Visited(groups, rank, 0) == Ranked(groups, rank)
  {
    RowGrows(groups, rank, n, |groups|);
  }

  /** One row, stopping at the limit. */
  method ReadRow(groups: seq<seq<Chunk>>, rank: nat, limit: nat, merged: seq<Chunk>, seen: set<int>)
    returns (merged': seq<Chunk>, seen': set<int>)
    requires Reader(merged, seen) == Reading(Ranked(groups, rank), limit) && |merged| < limit
    ensures Reader(merged', seen') == Reading(Ranked(groups, rank + 1), limit) && |merged'| <= limit
  {
    merged', seen' := merged, seen;
    VisitGrows(groups, rank, 0);
    for n := 0 to |groups|
      invariant Reader(merged', seen') == Reading(Visited(groups, rank, n), limit) && |merged'| < limit
    {
      VisitNext(groups, rank, n);
      if rank >= |groups[n]| {
        continue;
      }
      var chunk := groups[n][rank];
      ReadingNext(Visited(groups, rank, n), chunk, limit);
      if chunk.id !in seen' {
        seen' := seen' + {chunk.id};
        merged' := merged' + [chunk];
        if |merged'| == limit {
          VisitGrows(groups, rank, n + 1);
          ReadingStops(Visited(groups, rank, n + 1), Ranked(groups, rank + 1), limit);
          return;
        }
      }
    }
    VisitGrows(groups, rank, |groups|);
  }

  method RoundRobinChunks(groups: seq<seq<Chunk>>, limit: nat) returns (merged: seq<Chunk>)
    ensures merged == Merged(groups, limit)
  {
    merged := [];
    var seen: set<int> := {};
    var rank := 0;
    var more := AnyLonger(groups, 0);
    while |merged| < limit && more
      invariant rank <= Longest(groups, |groups|) && |merged| <= limit
      invariant Reader(merged, seen) == Reading(Ranked(groups, rank), limit)
      invariant more <==> rank < Longest(groups, |groups|)
      decreases Longest(groups, |groups|) - rank
    {
      merged, seen := ReadRow(groups, rank, limit, merged, seen);
      rank := rank + 1;
      more := AnyLonger(groups, rank);
    }
    var longest := Longest(groups, |groups|);
    if more {
      RankedGrows(groups, rank, longest);
      ReadingStops(Ranked(groups, rank), Ranked(groups, longest), limit);
    }
    ReadingIsUnique(Ranked(groups, longest), limit);
  }

  lemma {:induction false} RowGrows(groups: seq<seq<Chunk>>, rank: nat, m: nat, n: nat)
    requires m <= n <= |groups|
    ensures Row(groups, rank, m) <= Row(groups, rank, n)
  {
    if m < n {
      RowGrows(groups, rank, m, n - 1);
    }
  }

  lemma {:induction false} RankedGrows(groups: seq<seq<Chunk>>, q: nat, r: nat)
    requires q <= r
    ensures Ranked(groups, q) <= Ranked(groups, r)
  {
    if q < r {
      RankedGrows(groups, q, r - 1);
    }
  }

  // ---- main results ------------------------------------------------------------------------------------------

  lemma {:induction false} RowHolds(groups: seq<seq<Chunk>>, rank: nat, n: nat, g: nat)
    requires g < n <= |groups| && rank < |groups[g]|
    ensures groups[g][rank] in Row(groups, rank, n) && |Row(groups, rank, n)| <= n
  {
    RowLength(groups, rank, n);
    if g < n - 1 {
      RowHolds(groups, rank, n - 1, g);
    }
  }

  lemma {:induction false} RowLength(groups: seq<seq<Chunk>>, rank: nat, n: nat)
    requires n <= |groups|
    ensures |Row(groups, rank, n)| <= n
  {
    if n > 0 {
      RowLength(groups, rank, n - 1);
    }
  }

  lemma {:induction false} RankedHolds(groups: seq<seq<Chunk>>, r: nat, g: nat, rank: nat)
    requires g < |groups| && rank < |groups[g]| && rank < r
    ensures groups[g][rank] in Ranked(groups, r)
  {
    RowHolds(groups, rank, |groups|, g);
    assert Ranked(groups, rank + 1) == Ranked(groups, rank) + Row(groups, rank, |groups|);
    assert groups[g][rank] in Ranked(groups, rank + 1);
    RankedGrows(groups, rank + 1, r);
  }

  lemma {:induction false} RankedLength(groups: seq<seq<Chunk>>, r: nat)
    ensures |Ranked(groups, r)| <= r * |groups|
  {
    if r > 0 {
      var q := r - 1;
      RankedLength(groups, q);
      RowLength(groups, q, |groups|);
      OneMore(q, |groups|, |Ranked(groups, q)|, |Row(groups, q, |groups|)|);
    }
  }

  lemma {:induction false} OneMore(q: nat, n: nat, a: nat, b: nat)
    requires a <= q * n && b <= n
    ensures a + b <= (q + 1) * n
  {
    assert (q + 1) * n == q * n + n;
  }

  /** No chunk twice, none from elsewhere, never more than the limit. */
  lemma {:induction false} MergeIsClean(groups: seq<seq<Chunk>>, limit: nat)
    ensures Distinct(Merged(groups, limit)) && |Merged(groups, limit)| <= limit
    ensures forall c :: c in Merged(groups, limit) ==> exists g, rank ::
      0 <= g < |groups| && 0 <= rank < |groups[g]|
      && groups[g][rank] == c
  {
    var all := Ranked(groups, Longest(groups, |groups|));
    UniqueIsDistinct(all);
    forall c | c in Merged(groups, limit) ensures exists g, rank ::
      0 <= g < |groups| && 0 <= rank < |groups[g]|
      && groups[g][rank] == c {
      UniqueFromChunks(all, c);
      FromGroups(groups, Longest(groups, |groups|), c);
    }
  }

  lemma {:induction false} FromGroups(groups: seq<seq<Chunk>>, r: nat, c: Chunk)
    requires c in Ranked(groups, r)
    ensures exists g, rank :: 0 <= g < |groups| && 0 <= rank < |groups[g]| && groups[g][rank] == c
  {
    var before, row := Ranked(groups, r - 1), Row(groups, r - 1, |groups|);
    assert c in before + row;
    if c in before {
      FromGroups(groups, r - 1, c);
    } else {
      FromRow(groups, r - 1, |groups|, c);
    }
  }

  lemma {:induction false} FromRow(groups: seq<seq<Chunk>>, rank: nat, n: nat, c: Chunk)
    requires n <= |groups| && c in Row(groups, rank, n)
    ensures exists g :: 0 <= g < |groups| && rank < |groups[g]| && groups[g][rank] == c
  {
    if c in Row(groups, rank, n - 1) {
      FromRow(groups, rank, n - 1, c);
    } else {
      assert rank < |groups[n - 1]| && groups[n - 1][rank] == c;
    }
  }

  /** An id that was read is among the ids kept. */
  lemma {:induction false} ReadIsKept(read: seq<Chunk>, c: Chunk)
    requires c in read
    ensures c.id in Ids(Unique(read))
  {
    UniqueKeepsIds(read);
    IdsHold(read, c.id);
  }

  lemma {:induction false} IdsGrow(a: seq<Chunk>, b: seq<Chunk>, id: int)
    requires a <= b && id in Ids(a)
    ensures id in Ids(b)
  {
    IdsHold(a, id);
    var i :| 0 <= i < |a| && a[i].id == id;
    assert b[i].id == id;
    IdsHold(b, id);
  }

  /** Complete when the limit is not reached: every id of every group is there. */
  lemma {:induction false} MergeIsComplete(groups: seq<seq<Chunk>>, limit: nat, g: nat, rank: nat)
    requires |Merged(groups, limit)| < limit && g < |groups| && rank < |groups[g]|
    ensures groups[g][rank].id in Ids(Merged(groups, limit))
  {
    LongestBounds(groups, |groups|, rank);
    var longest := Longest(groups, |groups|);
    RankedHolds(groups, longest, g, rank);
    ReadIsKept(Ranked(groups, longest), groups[g][rank]);
  }

  /** Fair: when there is room for r ranks of every group, every group's best r are there. */
  lemma {:induction false} MergeIsFair(groups: seq<seq<Chunk>>, limit: nat, r: nat, g: nat, rank: nat)
    requires r * |groups| <= limit && g < |groups| && rank < r && rank < |groups[g]|
    ensures groups[g][rank].id in Ids(Merged(groups, limit))
  {
    LongestBounds(groups, |groups|, rank);
    var longest := Longest(groups, |groups|);
    var top := Min(r, longest);
    var first := Ranked(groups, top);
    RoomForRanks(groups, r, top, limit);
    UniqueKeepsIds(first);
    RankedGrows(groups, top, longest);
    UniqueGrows(first, Ranked(groups, longest));
    RankedHolds(groups, top, g, rank);
    ReadIsKept(first, groups[g][rank]);
    IdsGrow(Unique(first), Merged(groups, limit), groups[g][rank].id);
  }

  lemma {:induction false} RoomForRanks(groups: seq<seq<Chunk>>, r: nat, top: nat, limit: nat)
    requires r * |groups| <= limit && top <= r
    ensures |Ranked(groups, top)| <= limit
  {
    RankedLength(groups, top);
    assert top * |groups| <= r * |groups|;
  }

  // ---- the order of the merge ------------------------------------------------------------------------------

  /** A rank in a group. */
  datatype Place = Place(rank: nat, group: nat)

  predicate Sooner(a: Place, b: Place) {
    a.rank < b.rank || (a.rank == b.rank && a.group < b.group)
  }

  predicate IsPlace(groups: seq<seq<Chunk>>, p: Place) {
    p.group < |groups| && p.rank < |groups[p.group]|
  }

  /** The chunks at these places, every one sooner than the next. */
  ghost predicate ReadsOff(groups: seq<seq<Chunk>>, chunks: seq<Chunk>, places: seq<Place>) {
    && |places| == |chunks|
    && (forall k :: 0 <= k < |places| ==>
          IsPlace(groups, places[k]) && chunks[k] == groups[places[k].group][places[k].rank])
    && (forall j, k :: 0 <= j < k < |places| ==> Sooner(places[j], places[k]))
  }

  lemma {:induction false} ReadsOn(groups: seq<seq<Chunk>>, a: seq<Chunk>, places: seq<Place>, b: seq<Chunk>,
                                   more: seq<Place>)
    requires ReadsOff(groups, a, places) && ReadsOff(groups, b, more)
    requires forall p, q :: p in places && q in more ==> Sooner(p, q)
    ensures ReadsOff(groups, a + b, places + more)
  {
    var all := places + more;
    forall j, k | 0 <= j < k < |all| ensures Sooner(all[j], all[k]) {
      if j < |places| <= k {
        assert all[j] in places && all[k] in more;
      }
    }
  }

  /** These are all the places of this rank in the first n groups. */
  ghost predicate AreRow(groups: seq<seq<Chunk>>, rank: nat, n: nat, places: seq<Place>) {
    forall p :: p in places <==> p.rank == rank && p.group < n && IsPlace(groups, p)
  }

  lemma {:induction false} RowReads(groups: seq<seq<Chunk>>, rank: nat, n: nat) returns (places: seq<Place>)
    requires n <= |groups|
    ensures ReadsOff(groups, Row(groups, rank, n), places) && AreRow(groups, rank, n, places)
  {
    hide ReadsOff;
    if n == 0 {
      places := [];
      NothingRead(groups);
    } else {
      var before := RowReads(groups, rank, n - 1);
      places := RowReadsOn(groups, rank, n - 1, before);
    }
  }

  lemma {:induction false} RowReadsOn(groups: seq<seq<Chunk>>, rank: nat, n: nat, before: seq<Place>)
    returns (places: seq<Place>)
    requires n < |groups| && ReadsOff(groups, Row(groups, rank, n), before) && AreRow(groups, rank, n, before)
    ensures ReadsOff(groups, Row(groups, rank, n + 1), places) && AreRow(groups, rank, n + 1, places)
  {
    hide ReadsOff;
    if rank < |groups[n]| {
      var last := Place(rank, n);
      places := before + [last];
      OneRead(groups, last);
      ReadsOn(groups, Row(groups, rank, n), before, [groups[n][rank]], [last]);
    } else {
      places := before;
      assert Row(groups, rank, n + 1) == Row(groups, rank, n);
    }
  }

  lemma {:induction false} NothingRead(groups: seq<seq<Chunk>>)
    ensures ReadsOff(groups, [], [])
  {
  }

  lemma {:induction false} OneRead(groups: seq<seq<Chunk>>, p: Place)
    requires IsPlace(groups, p)
    ensures ReadsOff(groups, [groups[p.group][p.rank]], [p])
  {
  }

  /** These are all the places of the first r ranks. */
  ghost predicate AreRanks(groups: seq<seq<Chunk>>, r: nat, places: seq<Place>) {
    forall p :: p in places <==> p.rank < r && IsPlace(groups, p)
  }

  lemma {:induction false} RankedReads(groups: seq<seq<Chunk>>, r: nat) returns (places: seq<Place>)
    ensures ReadsOff(groups, Ranked(groups, r), places) && AreRanks(groups, r, places)
  {
    hide ReadsOff;
    if r == 0 {
      places := [];
      NothingRead(groups);
    } else {
      var before := RankedReads(groups, r - 1);
      var row := RowReads(groups, r - 1, |groups|);
      places := before + row;
      ReadsOn(groups, Ranked(groups, r - 1), before, Row(groups, r - 1, |groups|), row);
    }
  }

  /** Where the chunks kept were read, each at the first place of its id. */
  ghost predicate KeptAt(chunks: seq<Chunk>, kept: seq<Chunk>, at: seq<nat>) {
    && |at| == |kept|
    && (forall k :: 0 <= k < |at| ==> at[k] < |chunks| && kept[k] == chunks[at[k]] && NoneBefore(chunks, at[k]))
    && (forall j, k :: 0 <= j < k < |at| ==> at[j] < at[k])
  }

  ghost predicate NoneBefore(chunks: seq<Chunk>, i: nat) {
    i < |chunks| && forall m :: 0 <= m < i ==> chunks[m].id != chunks[i].id
  }

  lemma {:induction false} KeptStays(chunks: seq<Chunk>, init: seq<Chunk>, kept: seq<Chunk>, at: seq<nat>)
    requires chunks != [] && init == chunks[..|chunks| - 1] && KeptAt(init, kept, at)
    ensures KeptAt(chunks, kept, at)
  {
    forall k | 0 <= k < |at| ensures NoneBefore(chunks, at[k]) {
      assert NoneBefore(init, at[k]);
    }
  }

  lemma {:induction false} KeptGrows(chunks: seq<Chunk>, kept: seq<Chunk>, at: seq<nat>, n: nat)
    requires KeptAt(chunks, kept, at) && NoneBefore(chunks, n) && forall k :: 0 <= k < |at| ==> at[k] < n
    ensures KeptAt(chunks, kept + [chunks[n]], at + [n])
  {
  }

  lemma {:induction false} UniqueKeptAt(chunks: seq<Chunk>) returns (at: seq<nat>)
    ensures KeptAt(chunks, Unique(chunks), at)
  {
    at := [];
    if chunks != [] {
      var n := |chunks| - 1;
      var init, c := chunks[..n], chunks[n];
      at := UniqueKeptAt(init);
      KeptStays(chunks, init, Unique(init), at);
      if c.id !in Ids(Unique(init)) {
        UniqueKeepsIds(init);
        IdsHold(init, c.id);
        assert forall m :: 0 <= m < n ==> init[m] == chunks[m];
        KeptGrows(chunks, Unique(init), at, n);
        at := at + [n];
      }
    }
  }

  /** p is where the chunk was met first. */
  ghost predicate FirstMet(groups: seq<seq<Chunk>>, c: Chunk, p: Place) {
    && IsPlace(groups, p) && groups[p.group][p.rank] == c
    && forall q :: IsPlace(groups, q) && Sooner(q, p) ==> groups[q.group][q.rank].id != c.id
  }

  lemma {:induction false} KeptIsFirst(groups: seq<seq<Chunk>>, r: nat, read: seq<Chunk>, places: seq<Place>, i: nat)
    requires read == Ranked(groups, r) && ReadsOff(groups, read, places) && i < |read|
    requires AreRanks(groups, r, places) && NoneBefore(read, i)
    ensures FirstMet(groups, read[i], places[i])
  {
    var p := places[i];
    assert p in places;
    forall q | IsPlace(groups, q) && Sooner(q, p) ensures groups[q.group][q.rank].id != read[i].id {
      assert q in places;
      var m: nat :| m < |places| && places[m] == q;
      assert m < i;
    }
  }

  /** The merge reads rank by rank, and within a rank group by group: of two chunks kept, the one that
      comes first was met first. */
  lemma {:induction false} MergeIsOrdered(groups: seq<seq<Chunk>>, limit: nat, i: nat, j: nat)
    returns (p: Place, q: Place)
    requires i < j < |Merged(groups, limit)|
    ensures FirstMet(groups, Merged(groups, limit)[i], p) && FirstMet(groups, Merged(groups, limit)[j], q)
    ensures Sooner(p, q)
  {
    var r := Longest(groups, |groups|);
    var read := Ranked(groups, r);
    var places := RankedReads(groups, r);
    var at := UniqueKeptAt(read);
    p, q := places[at[i]], places[at[j]];
    KeptIsFirst(groups, r, read, places, at[i]);
    KeptIsFirst(groups, r, read, places, at[j]);
  }
}
