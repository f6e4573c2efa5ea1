/** What the sections of a document are in terms of the page: which blocks are headings, which headings
    stand above a section, and where its label comes from. */
module Breadcrumbs {
  import opened Common
  import opened Sections
  import opened SlidingWindow

  // ---- a page's items ------------------------------------------------------------------------------

  function HeadingCount(items: seq<Item>): nat {
    if items == [] then 0 else (if items[0].Heading? then 1 else 0) + HeadingCount(items[1..])
  }

  /** The block at this place of the page, as an item: a heading exactly if it is the next expected one. */
  ghost predicate IsItem(item: Item, number: Option<int>, block: string, expected: seq<(int, string)>, passed: nat) {
    && item.text == block && item.page == number
    && (item.Heading? <==> passed < |expected| && block == expected[passed].1)
    && (item.Heading? ==> item.level == expected[passed].0)
  }

  /** The places from `from` on of the blocks that are not empty, in order. */
  ghost predicate ArePlaces(places: seq<nat>, blocks: seq<string>, from: nat) {
    && (forall k :: 0 <= k < |places| ==> from <= places[k] < |blocks| && blocks[places[k]] != "")
    && (forall j, k :: 0 <= j < k < |places| ==> places[j] < places[k])
    && (forall i: nat :: from <= i < |blocks| && blocks[i] != "" ==> i in places)
  }

  lemma {:induction false} PlacesGrow(places: seq<nat>, blocks: seq<string>, from: nat, all: seq<nat>)
    requires from < |blocks| && ArePlaces(places, blocks, from + 1)
    requires all == if blocks[from] == "" then places else [from] + places
    ensures ArePlaces(all, blocks, from)
  {
    forall i: nat | from <= i < |blocks| && blocks[i] != "" ensures i in all {
      assert i > from ==> i in places;
    }
  }

  ghost predicate AreItems(items: seq<Item>, number: Option<int>, blocks: seq<string>, places: seq<nat>,
                           expected: seq<(int, string)>) {
    && |items| == |places|
    && forall k :: 0 <= k < |items| ==>
      && places[k] < |blocks|
      && IsItem(items[k], number, blocks[places[k]], expected, HeadingCount(items[..k]))
  }

  lemma {:induction false} ItemComes(items: seq<Item>, number: Option<int>, blocks: seq<string>, places: seq<nat>,
                                     expected: seq<(int, string)>, pending: seq<(int, string)>, tail: seq<Item>,
                                     later: seq<nat>)
    requires items != [] && tail == items[1..] && places != [] && later == places[1..] && places[0] < |blocks|
    requires IsItem(items[0], number, blocks[places[0]], expected, 0)
    requires pending == if items[0].Heading? then expected[1..] else expected
    requires AreItems(tail, number, blocks, later, pending)
    ensures AreItems(items, number, blocks, places, expected)
  {
    forall k | 0 <= k < |items|
      ensures places[k] < |blocks| && IsItem(items[k], number, blocks[places[k]], expected, HeadingCount(items[..k]))
    {
      if k > 0 {
        assert items[..k][0] == items[0] && items[..k][1..] == tail[..k - 1];
        assert IsItem(tail[k - 1], number, blocks[later[k - 1]], pending, HeadingCount(tail[..k - 1]));
      }
    }
  }

  lemma {:induction false} ItemsFrom(number: Option<int>, blocks: seq<string>, from: nat, expected: seq<(int, string)>)
    returns (places: seq<nat>)
    requires from <= |blocks|
    ensures ArePlaces(places, blocks, from)
    ensures AreItems(PageItems(number, blocks[from..], expected), number, blocks, places, expected)
    decreases |blocks| - from
  {
    hide AreItems, ArePlaces, PageItems;
    if from == |blocks| {
      places := [];
      NoItems(number, blocks, expected);
      return;
    }
    var block := blocks[from];
    var next := if block != "" && expected != [] && block == expected[0].1 then expected[1..] else expected;
    var later := ItemsFrom(number, blocks, from + 1, next);
    places := if block == "" then later else [from] + later;
    PlacesGrow(later, blocks, from, places);
    FirstItem(number, blocks, from, expected, next);
    if block != "" {
      var items, tail := PageItems(number, blocks[from..], expected), PageItems(number, blocks[from + 1..], next);
      assert places[1..] == later;
      ItemComes(items, number, blocks, places, expected, next, tail, later);
    }
  }

  lemma {:induction false} NoItems(number: Option<int>, blocks: seq<string>, expected: seq<(int, string)>)
    ensures ArePlaces([], blocks, |blocks|)
    ensures AreItems(PageItems(number, blocks[|blocks|..], expected), number, blocks, [], expected)
  {
  }

  lemma {:induction false} FirstItem(number: Option<int>, blocks: seq<string>, from: nat,
                                     expected: seq<(int, string)>, next: seq<(int, string)>)
    requires from < |blocks|
    requires next == if blocks[from] != "" && expected != [] && blocks[from] == expected[0].1 then expected[1..]
                     else expected
    ensures var items, tail := PageItems(number, blocks[from..], expected), PageItems(number, blocks[from + 1..], next);
            if blocks[from] == "" then items == tail
            else
              && items != [] && items[1..] == tail && IsItem(items[0], number, blocks[from], expected, 0)
              && next == if items[0].Heading? then expected[1..] else expected
  {
    assert blocks[from..][1..] == blocks[from + 1..];
  }

  /** Every block of a page that is not empty is an item, in order, and it is a heading exactly if it is
      the next of the headings expected on the page. */
  lemma {:induction false} PageItemsMean(number: Option<int>, blocks: seq<string>, expected: seq<(int, string)>)
    returns (places: seq<nat>)
    ensures ArePlaces(places, blocks, 0)
    ensures AreItems(PageItems(number, blocks, expected), number, blocks, places, expected)
  {
    places := ItemsFrom(number, blocks, 0, expected);
    assert blocks[0..] == blocks;
  }

  /** The items of a document are those of its pages, one after another. */
  lemma {:induction false} ItemsConcat(a: seq<Page>, b: seq<Page>)
    ensures Items(a + b) == Items(a) + Items(b)
    ensures |a| == 1 ==> Items(a) == PageItems(a[0].number, a[0].blocks, a[0].expected)
  {
    if |a| == 1 {
      assert a[..0] == [] && Items(a[..0]) == [];
    }
    if b == [] {
      assert a + b == a;
    } else {
      assert (a + b)[..|a + b| - 1] == a + b[..|b| - 1];
      ItemsConcat(a, b[..|b| - 1]);
    }
  }

  /** A block keeps its item's text and page, and counts its tokens. */
  lemma {:induction false} BlocksAt(r: Reader, items: seq<Item>)
    ensures |Blocks(r, items)| == |items|
    ensures forall k :: 0 <= k < |items| ==>
              Blocks(r, items)[k] == Block(items[k].text, items[k].page, r.count(items[k].text))
  {
    if items != [] {
      BlocksAt(r, items[..|items| - 1]);
    }
  }

  // ---- the headings above a place ------------------------------------------------------------------

  /** Heading a stands above what comes at n with this level: everything headed since is below a. */
  ghost predicate Governs(items: seq<Item>, a: nat, n: nat, level: int) {
    && a < n <= |items| && items[a].Heading? && items[a].level < level
    && forall j :: a < j < n && items[j].Heading? ==> items[j].level > items[a].level
  }

  /** What stands above p, and p itself, is what stands above n, if p is the nearest lower heading. */
  lemma {:induction false} GovernedBy(items: seq<Item>, a: nat, n: nat, level: int)
    requires n <= |items|
    ensures var p := NearestBelow(items, n, level);
            Governs(items, a, n, level) <==>
              p.Some? && (a == p.value || Governs(items, a, p.value, items[p.value].level))
  {
    var p := NearestBelow(items, n, level);
    if p.Some? {
      forall j | p.value < j < n && items[j].Heading? ensures items[j].level >= level {
        assert !IsHeadingBelow(items[j], level);
      }
      if Governs(items, a, n, level) {
        assert IsHeadingBelow(items[a], level);
      }
    } else if Governs(items, a, n, level) {
      NoneBelow(items, a, n, level);
    }
  }

  lemma {:induction false} NoneBelow(items: seq<Item>, a: nat, n: nat, level: int)
    requires a < n <= |items| && IsHeadingBelow(items[a], level)
    ensures NearestBelow(items, n, level).Some?
  {
  }

  /** The headings above a place, outermost first. */
  ghost predicate ArePathTo(items: seq<Item>, path: seq<nat>, n: nat, level: int) {
    && (forall j, k :: 0 <= j < k < |path| ==> path[j] < path[k])
    && (forall a: nat :: a in path <==> Governs(items, a, n, level))
  }

  ghost predicate AreCrumbs(r: Reader, items: seq<Item>, path: seq<nat>, crumbs: seq<Crumb>) {
    && |crumbs| == |path|
    && forall k :: 0 <= k < |path| ==>
      && path[k] < |items| && items[path[k]].Heading?
      && crumbs[k] == Crumb(items[path[k]].level, items[path[k]].text, HeadingLabel(r, items, path[k]))
  }

  /** The breadcrumbs of a heading are exactly the headings that stand above it, from the outermost in,
      and itself. */
  lemma {:induction false} ChainIsPath(r: Reader, items: seq<Item>, i: nat) returns (path: seq<nat>)
    requires i < |items| && items[i].Heading?
    ensures path != [] && path[|path| - 1] == i && ArePathTo(items, path[..|path| - 1], i, items[i].level)
    ensures AreCrumbs(r, items, path, Chain(r, items, i))
    decreases i, 1
  {
    var above := ParentPath(r, items, i, items[i].level);
    path := above + [i];
    assert path[..|path| - 1] == above;
  }

  lemma {:induction false} ParentPath(r: Reader, items: seq<Item>, n: nat, level: int) returns (path: seq<nat>)
    requires n <= |items|
    ensures ArePathTo(items, path, n, level)
    ensures AreCrumbs(r, items, path, ParentChain(r, items, n, level))
    decreases n, 0
  {
    path := [];
    match NearestBelow(items, n, level)
    case None =>
      forall a: nat ensures !Governs(items, a, n, level) {
        GovernedBy(items, a, n, level);
      }
    case Some(p) =>
      path := ChainIsPath(r, items, p);
      var above := path[..|path| - 1];
      assert path == above + [p];
      forall a: nat ensures a in path <==> Governs(items, a, n, level) {
        GovernedBy(items, a, n, level);
      }
      PathIncreases(items, above, p, path);
  }

  lemma {:induction false} PathIncreases(items: seq<Item>, above: seq<nat>, p: nat, path: seq<nat>)
    requires p < |items| && items[p].Heading? && ArePathTo(items, above, p, items[p].level) && path == above + [p]
    ensures forall j, k :: 0 <= j < k < |path| ==> path[j] < path[k]
  {
    forall j | 0 <= j < |above| ensures above[j] < p {
      assert above[j] in above;
    }
  }

  // ---- where a label comes from --------------------------------------------------------------------

  /** The block right after this heading is an access marker. */
  ghost predicate Marked(r: Reader, items: seq<Item>, a: nat, access: string) {
    a + 1 < |items| && items[a + 1].Text? && r.marker(items[a + 1].text) == Some(access)
  }

  /** Block k labels the document: a marker with no heading before it. */
  ghost predicate LabelsAll(r: Reader, items: seq<Item>, k: nat, access: string) {
    && k < |items| && items[k].Text? && r.marker(items[k].text) == Some(access)
    && forall j :: 0 <= j < k ==> items[j].Text?
  }

  /** The document's label: its last marker before the first heading, or "all" without one. */
  ghost predicate IsDocumentLabel(r: Reader, items: seq<Item>, access: string) {
    if exists k: nat, m :: LabelsAll(r, items, k, m)
    then
      exists k: nat :: LabelsAll(r, items, k, access) && (forall j: nat, m :: k < j ==> !LabelsAll(r, items, j, m))
    else access == "all"
  }

  lemma {:induction false} DocLabelIs(r: Reader, items: seq<Item>)
    ensures IsDocumentLabel(r, items, DocLabel(r, items))
  {
    if items != [] {
      var n := |items| - 1;
      var before := items[..n];
      DocLabelIs(r, before);
      forall k: nat, m | k < n ensures LabelsAll(r, items, k, m) <==> LabelsAll(r, before, k, m) {
      }
      if LastHeading(before).None? && items[n].Text? && r.marker(items[n].text).Some? {
        assert LabelsAll(r, items, n, r.marker(items[n].text).value);
      } else {
        forall m ensures !LabelsAll(r, items, n, m) {
          if LabelsAll(r, items, n, m) {
            NoHeading(items, n);
          }
        }
        SameLabel(r, before, items, n, DocLabel(r, items));
      }
    }
  }

  lemma {:induction false} NoHeading(items: seq<Item>, n: nat)
    requires n <= |items| && forall j :: 0 <= j < n ==> items[j].Text?
    ensures LastHeading(items[..n]).None?
  {
  }

  /** The same blocks label two documents alike. */
  lemma {:induction false} SameLabel(r: Reader, items: seq<Item>, items': seq<Item>, n: nat, access: string)
    requires forall k: nat, m :: LabelsAll(r, items, k, m) <==> LabelsAll(r, items', k, m)
    requires IsDocumentLabel(r, items, access)
    ensures IsDocumentLabel(r, items', access)
  {
  }

  ghost predicate IsNearestMarked(r: Reader, items: seq<Item>, a: nat, i: nat, access: string)
    requires i < |items|
  {
    && Above(items, a, i) && Marked(r, items, a, access)
    && forall b: nat, m :: Above(items, b, i) && b > a ==> !Marked(r, items, b, m)
  }

  /** Label inheritance: a heading has the label of the nearest marked heading among itself and those
      that stand above it, and the document's label if none of them is marked. */
  ghost predicate InheritsLabel(r: Reader, items: seq<Item>, i: nat, access: string)
    requires i < |items|
  {
    || (exists a: nat :: IsNearestMarked(r, items, a, i, access))
    || ((forall b: nat, m :: Above(items, b, i) ==> !Marked(r, items, b, m)) && IsDocumentLabel(r, items, access))
  }

  ghost predicate Above(items: seq<Item>, a: nat, i: nat)
    requires i < |items|
  {
    a == i || Governs(items, a, i, if items[i].Heading? then items[i].level else 0)
  }

  lemma {:induction false} LabelInherited(r: Reader, items: seq<Item>, i: nat)
    requires i < |items| && items[i].Heading?
    ensures InheritsLabel(r, items, i, HeadingLabel(r, items, i))
    decreases i
  {
    var access := HeadingLabel(r, items, i);
    if Marked(r, items, i, access) {
      assert IsNearestMarked(r, items, i, i, access);
      return;
    }
    assert OwnMarker(r, items, i).None?;
    match NearestBelow(items, i, items[i].level)
    case Some(p) =>
      LabelInherited(r, items, p);
      forall b: nat ensures Above(items, b, i) <==> b == i || Above(items, b, p) {
        GovernedBy(items, b, i, items[i].level);
      }
      assert forall m :: !Marked(r, items, i, m);
      if a: nat :| IsNearestMarked(r, items, a, p, access) {
        assert IsNearestMarked(r, items, a, i, access);
      }
    case None =>
      forall b: nat ensures Above(items, b, i) <==> b == i {
        GovernedBy(items, b, i, items[i].level);
      }
      DocLabelIs(r, items[..i]);
      forall k: nat, m ensures LabelsAll(r, items[..i], k, m) <==> LabelsAll(r, items, k, m) {
      }
      SameLabel(r, items[..i], items, i, access);
  }
}
