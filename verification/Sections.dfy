/** Sections with heading breadcrumbs and inherited access labels. */
module Sections {
  import opened Common
  import opened SlidingWindow

  const LABEL_ALL := "all"

  /** A parsed page: its text blocks, stripped, and the headings expected on it, in order. */
  datatype Page = Page(number: Option<int>, blocks: seq<string>, expected: seq<(int, string)>)

  /** The two text tools the chunker calls: the token counter and the access-marker parser. */
  datatype Reader = Reader(count: string -> nat, marker: string -> Option<string>)

  datatype Section = Section(path: Option<string>, blocks: seq<Block>, access: string)

  /** A breadcrumb on the heading stack. */
  datatype Crumb = Crumb(level: int, text: string, access: string)

  // ---- the document as one list of items ------------------------------------------------------

  datatype Item = Heading(level: int, text: string, page: Option<int>) | Text(text: string, page: Option<int>)

  function PageItems(number: Option<int>, blocks: seq<string>, pending: seq<(int, string)>): seq<Item> {
    if blocks == [] then []
    else if blocks[0] == "" then PageItems(number, blocks[1..], pending)
    else if pending != [] && blocks[0] == pending[0].1
    then [Heading(pending[0].0, pending[0].1, number)] + PageItems(number, blocks[1..], pending[1..])
    else [Text(blocks[0], number)] + PageItems(number, blocks[1..], pending)
  }

  function Items(pages: seq<Page>): seq<Item> {
    if pages == [] then []
    else
      var page := pages[|pages| - 1];
      Items(pages[..|pages| - 1]) + PageItems(page.number, page.blocks, page.expected)
  }

  function BlockOf(r: Reader, item: Item): Block {
    Block(item.text, item.page, r.count(item.text))
  }

  function Blocks(r: Reader, items: seq<Item>): seq<Block> {
    if items == [] then [] else Blocks(r, items[..|items| - 1]) + [BlockOf(r, items[|items| - 1])]
  }

  // ---- what the labels mean -------------------------------------------------------------------

  predicate IsHeadingBelow(item: Item, level: int) {
    item.Heading? && item.level < level
  }

  /** The nearest heading before position n of a smaller level. */
  function NearestBelow(items: seq<Item>, n: nat, level: int): (parent: Option<nat>)
    requires n <= |items|
    ensures parent.Some? ==> parent.value < n && IsHeadingBelow(items[parent.value], level)
    ensures parent.Some? ==> forall j :: parent.value < j < n ==> !IsHeadingBelow(items[j], level)
    ensures parent.None? ==> forall j :: 0 <= j < n ==> !IsHeadingBelow(items[j], level)
  {
    if n == 0 then None
    else if IsHeadingBelow(items[n - 1], level) then Some(n - 1)
    else NearestBelow(items, n - 1, level)
  }

  function LastHeading(items: seq<Item>): (last: Option<nat>)
    ensures last.Some? ==> last.value < |items| && items[last.value].Heading?
    ensures last.Some? ==> forall j :: last.value < j < |items| ==> items[j].Text?
    ensures last.None? ==> forall j :: 0 <= j < |items| ==> items[j].Text?
  {
    if items == [] then None
    else if items[|items| - 1].Heading? then Some(|items| - 1)
    else LastHeading(items[..|items| - 1])
  }

  /** The marker in the block right after a heading. */
  function OwnMarker(r: Reader, items: seq<Item>, i: nat): Option<string> {
    if i + 1 < |items| && items[i + 1].Text? then r.marker(items[i + 1].text) else None
  }

  /** The label of the whole document: its last marker before the first heading. */
  function DocLabel(r: Reader, items: seq<Item>): string {
    if items == [] then LABEL_ALL
    else
      var before, last := items[..|items| - 1], items[|items| - 1];
      if LastHeading(before).None? && last.Text? && r.marker(last.text).Some?
      then r.marker(last.text).value
      else DocLabel(r, before)
  }

  /** A heading's own marker, else its parent's label, else the document's. */
  function HeadingLabel(r: Reader, items: seq<Item>, i: nat): string
    requires i < |items| && items[i].Heading?
    decreases i
  {
    if OwnMarker(r, items, i).Some? then OwnMarker(r, items, i).value
    else
      match NearestBelow(items, i, items[i].level)
      case Some(p) => HeadingLabel(r, items, p)
      case None => DocLabel(r, items[..i])
  }

  /** A heading under its ancestors, outermost first. */
  function Chain(r: Reader, items: seq<Item>, i: nat): seq<Crumb>
    requires i < |items| && items[i].Heading?
    decreases i
  {
    ParentChain(r, items, i, items[i].level) + [Crumb(items[i].level, items[i].text, HeadingLabel(r, items, i))]
  }

  function ParentChain(r: Reader, items: seq<Item>, n: nat, level: int): seq<Crumb>
    requires n <= |items|
    decreases n, 0
  {
    match NearestBelow(items, n, level)
    case Some(p) => Chain(r, items, p)
    case None => []
  }

  function Stack(r: Reader, items: seq<Item>): seq<Crumb> {
    match LastHeading(items)
    case Some(i) => Chain(r, items, i)
    case None => []
  }

  function Join(parts: seq<string>, separator: string): string {
    if parts == [] then ""
    else if |parts| == 1 then parts[0]
    else Join(parts[..|parts| - 1], separator) + separator + parts[|parts| - 1]
  }

  function Texts(stack: seq<Crumb>): seq<string> {
    if stack == [] then [] else Texts(stack[..|stack| - 1]) + [stack[|stack| - 1].text]
  }

  /** Label and breadcrumbs of the section that is open after these items. */
  function OpenLabel(r: Reader, items: seq<Item>): string {
    match LastHeading(items)
    case Some(i) => HeadingLabel(r, items, i)
    case None => DocLabel(r, items)
  }

  function OpenPath(r: Reader, items: seq<Item>): Option<string> {
    if LastHeading(items).None? then None else Some(Join(Texts(Stack(r, items)), " > "))
  }

  /** Where that section starts. */
  function OpenStart(items: seq<Item>): nat
    ensures OpenStart(items) <= |items|
    ensures items != [] ==> OpenStart(items) < |items|
  {
    match LastHeading(items)
    case Some(i) => i
    case None => 0
  }

  function SectionsOf(r: Reader, items: seq<Item>): seq<Section>
    decreases |items|
  {
    if items == [] then []
    else
      var start := OpenStart(items);
      SectionsOf(r, items[..start]) + [Section(OpenPath(r, items), Blocks(r, items[start..]), OpenLabel(r, items))]
  }

  // ---- facts about growing the item list ------------------------------------------------------

  lemma {:induction false} NearestBelowStable(items: seq<Item>, x: Item, n: nat, level: int)
    requires n <= |items|
    ensures NearestBelow(items + [x], n, level) == NearestBelow(items, n, level)
  {
    if n > 0 {
      NearestBelowStable(items, x, n - 1, level);
    }
  }

  /** A heading's label is settled once the item after it is known. */
  lemma {:induction false} HeadingLabelStable(r: Reader, items: seq<Item>, x: Item, i: nat)
    requires i + 1 < |items| && items[i].Heading?
    ensures HeadingLabel(r, items + [x], i) == HeadingLabel(r, items, i)
    decreases i
  {
    NearestBelowStable(items, x, i, items[i].level);
    assert (items + [x])[..i] == items[..i];
    if NearestBelow(items, i, items[i].level).Some? {
      HeadingLabelStable(r, items, x, NearestBelow(items, i, items[i].level).value);
    }
  }

  lemma {:induction false} ChainStable(r: Reader, items: seq<Item>, x: Item, i: nat)
    requires i + 1 < |items| && items[i].Heading?
    ensures Chain(r, items + [x], i) == Chain(r, items, i)
    decreases i
  {
    NearestBelowStable(items, x, i, items[i].level);
    HeadingLabelStable(r, items, x, i);
    if NearestBelow(items, i, items[i].level).Some? {
      ChainStable(r, items, x, NearestBelow(items, i, items[i].level).value);
    }
  }

  // ---- the filtered stack -----------------------------------------------------------------------

  function Below(stack: seq<Crumb>, level: int): seq<Crumb> {
    if stack == [] then []
    else if stack[|stack| - 1].level < level then Below(stack[..|stack| - 1], level) + [stack[|stack| - 1]]
    else Below(stack[..|stack| - 1], level)
  }

  ghost predicate Increasing(stack: seq<Crumb>) {
    forall i, j :: 0 <= i < j < |stack| ==> stack[i].level < stack[j].level
  }

  lemma {:induction false} BelowAll(stack: seq<Crumb>, level: int)
    requires forall i :: 0 <= i < |stack| ==> stack[i].level < level
    ensures Below(stack, level) == stack
  {
    if stack != [] {
      BelowAll(stack[..|stack| - 1], level);
    }
  }

  /** The breadcrumb stack is strictly increasing in level. */
  lemma {:induction false} ChainIncreasing(r: Reader, items: seq<Item>, i: nat)
    requires i < |items| && items[i].Heading?
    ensures Chain(r, items, i) != [] && Chain(r, items, i)[|Chain(r, items, i)| - 1].level == items[i].level
    ensures Increasing(Chain(r, items, i))
    decreases i
  {
    if NearestBelow(items, i, items[i].level).Some? {
      ChainIncreasing(r, items, NearestBelow(items, i, items[i].level).value);
    }
  }

  lemma {:induction false} NearestBelowSkips(items: seq<Item>, m: nat, n: nat, level: int)
    requires m <= n <= |items| && forall j :: m <= j < n ==> !IsHeadingBelow(items[j], level)
    ensures NearestBelow(items, n, level) == NearestBelow(items, m, level)
  {
    if m < n {
      NearestBelowSkips(items, m, n - 1, level);
    }
  }

  /** Filtering the stack by level leaves exactly the ancestors a new heading would have: its
      top is the nearest earlier heading of a smaller level. */
  lemma {:induction false} FilterIsParentChain(r: Reader, items: seq<Item>, i: nat, level: int)
    requires i < |items| && items[i].Heading?
    ensures Below(Chain(r, items, i), level) == ParentChain(r, items, i + 1, level)
    decreases i
  {
    var chain := Chain(r, items, i);
    ChainIncreasing(r, items, i);
    if items[i].level < level {
      BelowAll(chain, level);
    } else {
      var parent := NearestBelow(items, i, items[i].level);
      assert chain[..|chain| - 1] == ParentChain(r, items, i, items[i].level);
      match parent
      case Some(p) =>
        FilterIsParentChain(r, items, p, level);
        NearestBelowSkips(items, p + 1, i, level);
      case None =>
        NearestBelowSkips(items, 0, i, level);
    }
  }

  // ---- the loop -----------------------------------------------------------------------------------

  /** The variables of the section loop. */
  datatype Loop = Loop(
    sections: seq<Section>,
    stack: seq<Crumb>,
    current: seq<Block>,
    path: Option<string>,
    docLabel: string,
    openLabel: string,
    afterHeading: bool)

  const START := Loop([], [], [], None, LABEL_ALL, LABEL_ALL, false)

  function Closed(loop: Loop): seq<Section> {
    if loop.current == [] then loop.sections else loop.sections + [Section(loop.path, loop.current, loop.openLabel)]
  }

  /** The stack after a heading: the ancestors it keeps, and itself with the inherited label. */
  function Pushed(stack: seq<Crumb>, docLabel: string, level: int, text: string): seq<Crumb> {
    var parents := Below(stack, level);
    parents + [Crumb(level, text, if parents != [] then parents[|parents| - 1].access else docLabel)]
  }

  function Relabelled(stack: seq<Crumb>, access: string): seq<Crumb> {
    if stack == [] then [] else stack[|stack| - 1 := stack[|stack| - 1].(access := access)]
  }

  function Next(r: Reader, loop: Loop, item: Item): Loop {
    match item
    case Heading(level, text, page) =>
      var stack := Pushed(loop.stack, loop.docLabel, level, text);
      Loop(Closed(loop), stack, [BlockOf(r, item)], Some(Join(Texts(stack), " > ")), loop.docLabel,
           stack[|stack| - 1].access, true)
    case Text(text, page) =>
      var found := if loop.afterHeading || loop.stack == [] then r.marker(text) else None;
      loop.(current := loop.current + [BlockOf(r, item)],
            stack := if found.Some? then Relabelled(loop.stack, found.value) else loop.stack,
            docLabel := if found.Some? && loop.stack == [] then found.value else loop.docLabel,
            openLabel := if found.Some? then found.value else loop.openLabel,
            afterHeading := false)
  }

  function Feed(r: Reader, loop: Loop, items: seq<Item>): Loop
    decreases |items|
  {
    if items == [] then loop else Feed(r, Next(r, loop, items[0]), items[1..])
  }

  lemma {:induction false} FeedConcat(r: Reader, loop: Loop, a: seq<Item>, b: seq<Item>)
    ensures Feed(r, loop, a + b) == Feed(r, Feed(r, loop, a), b)
    decreases |a|
  {
    if a == [] {
      assert a + b == b;
    } else {
      assert (a + b)[1..] == a[1..] + b;
      FeedConcat(r, Next(r, loop, a[0]), a[1..], b);
    }
  }

  lemma {:induction false} FeedSnoc(r: Reader, loop: Loop, items: seq<Item>, x: Item)
    ensures Feed(r, loop, items + [x]) == Next(r, Feed(r, loop, items), x)
  {
    FeedConcat(r, loop, items, [x]);
    assert [x][1..] == [];
  }

  class SectionBuilder {
    const reader: Reader
    var sections: seq<Section>
    var stack: seq<Crumb>
    var current: seq<Block>
    var currentPath: Option<string>
    var docLabel: string
    var currentLabel: string
    var afterHeading: bool

    ghost function Snapshot(): Loop
      reads this
    {
      Loop(sections, stack, current, currentPath, docLabel, currentLabel, afterHeading)
    }

    constructor (reader: Reader)
      ensures Snapshot() == START && this.reader == reader
    {
      this.reader := reader;
      sections, stack, current, currentPath := [], [], [], None;
      docLabel, currentLabel, afterHeading := LABEL_ALL, LABEL_ALL, false;
    }

    method Close()
      modifies this`sections, this`current
      ensures sections == Closed(old(Snapshot())) && current == []
    {
      if current != [] {
        sections := sections + [Section(currentPath, current, currentLabel)];
        current := [];
      }
    }

    method AddHeading(level: int, text: string, page: Option<int>)
      modifies this
      ensures Snapshot() == Next(reader, old(Snapshot()), Heading(level, text, page))
    {
      Close();
      Push(level, text);
      currentPath := Some(Join(Texts(stack), " > "));
      currentLabel := stack[|stack| - 1].access;
      afterHeading := true;
      current := [Block(text, page, reader.count(text))];
    }

    /** The ancestors stay, and the heading inherits their label until it finds its own marker. */
    method Push(level: int, text: string)
      modifies this`stack
      ensures stack == Pushed(old(stack), docLabel, level, text)
    {
      var parents := FilterBelow(stack, level);
      var inherited := if parents != [] then parents[|parents| - 1].access else docLabel;
      stack := parents + [Crumb(level, text, inherited)];
    }

    method FilterBelow(crumbs: seq<Crumb>, level: int) returns (kept: seq<Crumb>)
      ensures kept == Below(crumbs, level)
    {
      kept := [];
      for k := 0 to |crumbs|
        invariant kept == Below(crumbs[..k], level)
      {
        assert crumbs[..k + 1][..k] == crumbs[..k];
        if crumbs[k].level < level {
          kept := kept + [crumbs[k]];
        }
      }
      assert crumbs[..|crumbs|] == crumbs;
    }

    method AddText(text: string, page: Option<int>)
      modifies this
      ensures Snapshot() == Next(reader, old(Snapshot()), Text(text, page))
    {
      if afterHeading || stack == [] {
        var found := reader.marker(text);
        if found.Some? {
          if stack != [] {
            stack := stack[|stack| - 1 := stack[|stack| - 1].(access := found.value)];
          } else {
            docLabel := found.value;
          }
          currentLabel := found.value;
        }
      }
      afterHeading := false;
      current := current + [Block(text, page, reader.count(text))];
    }

    /** The loop over the blocks of one page. */
    method AddPage(page: Page)
      modifies this
      ensures Snapshot() == Feed(reader, old(Snapshot()), PageItems(page.number, page.blocks, page.expected))
    {
      var pending := page.expected;
      for b := 0 to |page.blocks|
        invariant Feed(reader, Snapshot(), PageItems(page.number, page.blocks[b..], pending))
               == Feed(reader, old(Snapshot()), PageItems(page.number, page.blocks, page.expected))
      {
        var block := page.blocks[b];
        assert page.blocks[b..][1..] == page.blocks[b + 1..];
        if block == "" {
          continue;
        }
        if pending != [] && block == pending[0].1 {
          AddHeading(pending[0].0, pending[0].1, page.number);
          pending := pending[1..];
        } else {
          AddText(block, page.number);
        }
      }
    }
  }

  /** What one heading does to the specification functions. */
  lemma {:induction false} HeadingAdded(r: Reader, done: seq<Item>, x: Item)
    requires x.Heading?
    ensures LastHeading(done + [x]) == Some(|done|)
    ensures OpenStart(done + [x]) == |done|
    ensures (done + [x])[..|done|] == done && Blocks(r, (done + [x])[|done|..]) == [BlockOf(r, x)]
    ensures DocLabel(r, done + [x]) == DocLabel(r, done)
    ensures OpenLabel(r, done + [x]) == Stack(r, done + [x])[|Stack(r, done + [x])| - 1].access
  {
    var done' := done + [x];
    assert done'[..|done|] == done && done'[|done|..] == [x] && [x][..0] == [];
  }

  lemma {:induction false} HeadingPushed(r: Reader, done: seq<Item>, x: Item)
    requires x.Heading?
    ensures Stack(r, done + [x]) == Pushed(Stack(r, done), DocLabel(r, done), x.level, x.text)
  {
    if LastHeading(done).None? {
      FirstHeadingPushed(r, done, x);
    } else {
      LaterHeadingPushed(r, done, x, LastHeading(done).value);
    }
  }

  lemma {:induction false} FirstHeadingPushed(r: Reader, done: seq<Item>, x: Item)
    requires x.Heading? && LastHeading(done).None?
    ensures Stack(r, done + [x]) == Pushed([], DocLabel(r, done), x.level, x.text)
  {
    var done' := done + [x];
    HeadingAdded(r, done, x);
    NearestBelowSkips(done', 0, |done|, x.level);
    assert HeadingLabel(r, done', |done|) == DocLabel(r, done);
    assert Chain(r, done', |done|) == [Crumb(x.level, x.text, DocLabel(r, done))];
  }

  lemma {:induction false} LaterHeadingPushed(r: Reader, done: seq<Item>, x: Item, i: nat)
    requires x.Heading? && LastHeading(done) == Some(i)
    ensures Stack(r, done + [x]) == Pushed(Chain(r, done, i), DocLabel(r, done), x.level, x.text)
  {
    HeadingAdded(r, done, x);
    FilterIsParentChain(r, done, i, x.level);
    NearestBelowSkips(done, i + 1, |done|, x.level);
    NearestBelowStable(done, x, |done|, x.level);
    var done' := done + [x];
    assert done'[|done|] == x && done'[..|done|] == done;
    assert Stack(r, done') == Chain(r, done', |done|);
    if NearestBelow(done, |done|, x.level).Some? {
      var p := NearestBelow(done, |done|, x.level).value;
      ParentStays(r, done, x, p);
      assert ParentChain(r, done', |done|, x.level) == Chain(r, done', p);
      assert HeadingLabel(r, done', |done|) == HeadingLabel(r, done', p);
    } else {
      assert ParentChain(r, done', |done|, x.level) == [];
      assert HeadingLabel(r, done', |done|) == DocLabel(r, done);
    }
  }

  /** A new heading leaves the one it hangs under as it was. */
  lemma {:induction false} ParentStays(r: Reader, done: seq<Item>, x: Item, p: nat)
    requires x.Heading? && p < |done| && done[p].Heading?
    ensures Chain(r, done + [x], p) == Chain(r, done, p) && HeadingLabel(r, done + [x], p) == HeadingLabel(r, done, p)
    ensures Chain(r, done, p) != [] && Chain(r, done, p)[|Chain(r, done, p)| - 1].access == HeadingLabel(r, done, p)
  {
    ChainIncreasing(r, done, p);
    LastLabel(r, done, p);
    if p + 1 < |done| {
      ChainStable(r, done, x, p);
      HeadingLabelStable(r, done, x, p);
    } else {
      SettledByHeading(r, done, x, p);
    }
  }

  lemma {:induction false} LastLabel(r: Reader, items: seq<Item>, i: nat)
    requires i < |items| && items[i].Heading?
    ensures Chain(r, items, i) != [] && Chain(r, items, i)[|Chain(r, items, i)| - 1].access == HeadingLabel(r, items, i)
  {
  }

  /** A heading at the end keeps its inherited label when another heading follows. */
  lemma {:induction false} SettledByHeading(r: Reader, items: seq<Item>, x: Item, i: nat)
    requires i + 1 == |items| && items[i].Heading? && (x.Heading? || r.marker(x.text).None?)
    ensures HeadingLabel(r, items + [x], i) == HeadingLabel(r, items, i)
    ensures Chain(r, items + [x], i) == Chain(r, items, i)
  {
    NearestBelowStable(items, x, i, items[i].level);
    assert (items + [x])[..i] == items[..i];
    if NearestBelow(items, i, items[i].level).Some? {
      HeadingLabelStable(r, items, x, NearestBelow(items, i, items[i].level).value);
      ChainStable(r, items, x, NearestBelow(items, i, items[i].level).value);
    }
  }

  lemma {:induction false} LastHeadingPrefix(done: seq<Item>, x: Item)
    ensures LastHeading(done + [x]) == if x.Heading? then Some(|done|) else LastHeading(done)
  {
    assert (done + [x])[..|done|] == done;
  }

  /** A text block joins the open section. */
  lemma {:induction false} TextJoinsOpen(r: Reader, done: seq<Item>, x: Item)
    requires x.Text?
    ensures LastHeading(done + [x]) == LastHeading(done) && OpenStart(done + [x]) == OpenStart(done)
    ensures (done + [x])[..OpenStart(done)] == done[..OpenStart(done)]
    ensures Blocks(r, (done + [x])[OpenStart(done)..]) == Blocks(r, done[OpenStart(done)..]) + [BlockOf(r, x)]
  {
    LastHeadingPrefix(done, x);
    var open := done[OpenStart(done)..];
    assert (done + [x])[OpenStart(done)..] == open + [x] && (open + [x])[..|open|] == open;
  }

  /** Does a marker in x count?  Only right after a heading, or before the first one. */
  predicate MarkerCounts(r: Reader, done: seq<Item>, x: Item) {
    (done == [] || done[|done| - 1].Heading? || LastHeading(done).None?) && r.marker(x.text).Some?
  }

  /** What one text block does: a marker right after a heading relabels that heading, a marker
      before the first heading relabels the document, anything else relabels nothing. */
  lemma {:induction false} TextAdded(r: Reader, done: seq<Item>, x: Item)
    requires x.Text?
    ensures LastHeading(done + [x]) == LastHeading(done)
    ensures Stack(r, done + [x]) == if MarkerCounts(r, done, x)
      then Relabelled(Stack(r, done), r.marker(x.text).value) else Stack(r, done)
    ensures OpenLabel(r, done + [x]) == if MarkerCounts(r, done, x) then r.marker(x.text).value else OpenLabel(r, done)
    ensures DocLabel(r, done + [x]) ==
      if MarkerCounts(r, done, x) && LastHeading(done).None? then r.marker(x.text).value else DocLabel(r, done)
  {
    LastHeadingPrefix(done, x);
    assert (done + [x])[..|done|] == done;
    match LastHeading(done)
    case None =>
    case Some(i) =>
      if i + 1 < |done| {
        HeadingLabelStable(r, done, x, i);
        ChainStable(r, done, x, i);
      } else if r.marker(x.text).None? {
        SettledByHeading(r, done, x, i);
      } else {
        ParentChainSame(r, done, x, i);
      }
  }

  lemma {:induction false} RelabelledTexts(stack: seq<Crumb>, access: string)
    ensures Texts(Relabelled(stack, access)) == Texts(stack)
  {
    if stack != [] {
      assert Relabelled(stack, access)[..|stack| - 1] == stack[..|stack| - 1];
    }
  }

  lemma {:induction false} ParentChainSame(r: Reader, done: seq<Item>, x: Item, i: nat)
    requires i + 1 == |done| && done[i].Heading?
    ensures ParentChain(r, done + [x], i, done[i].level) == ParentChain(r, done, i, done[i].level)
  {
    NearestBelowStable(done, x, i, done[i].level);
    if NearestBelow(done, i, done[i].level).Some? {
      ChainStable(r, done, x, NearestBelow(done, i, done[i].level).value);
    }
  }

  /** The loop variables after any item list, in the terms of the specification. */
  function Specified(r: Reader, items: seq<Item>): Loop {
    Loop(SectionsOf(r, items[..OpenStart(items)]), Stack(r, items), Blocks(r, items[OpenStart(items)..]),
         OpenPath(r, items), DocLabel(r, items), OpenLabel(r, items), items != [] && items[|items| - 1].Heading?)
  }

  lemma {:induction false} ClosedIsSectionsOf(r: Reader, items: seq<Item>)
    ensures Closed(Specified(r, items)) == SectionsOf(r, items)
  {
    if items != [] {
      assert Blocks(r, items[OpenStart(items)..]) != [];
    }
  }

  lemma {:induction false} NextHeadingIsSpecified(r: Reader, done: seq<Item>, x: Item)
    requires x.Heading?
    ensures Next(r, Specified(r, done), x) == Specified(r, done + [x])
  {
    HeadingAdded(r, done, x);
    HeadingPushed(r, done, x);
    ClosedIsSectionsOf(r, done);
  }

  lemma {:induction false} NextTextIsSpecified(r: Reader, done: seq<Item>, x: Item)
    requires x.Text?
    ensures Next(r, Specified(r, done), x) == Specified(r, done + [x])
  {
    TextAdded(r, done, x);
    TextJoinsOpen(r, done, x);
    if MarkerCounts(r, done, x) {
      RelabelledTexts(Stack(r, done), r.marker(x.text).value);
    }
    StackEmpty(r, done);
  }

  lemma {:induction false} StackEmpty(r: Reader, items: seq<Item>)
    ensures Stack(r, items) == [] <==> LastHeading(items).None?
  {
    if LastHeading(items).Some? {
      ChainIncreasing(r, items, LastHeading(items).value);
    }
  }

  lemma {:induction false} NextIsSpecified(r: Reader, done: seq<Item>, x: Item)
    ensures Next(r, Specified(r, done), x) == Specified(r, done + [x])
  {
    if x.Heading? {
      NextHeadingIsSpecified(r, done, x);
    } else {
      NextTextIsSpecified(r, done, x);
    }
  }

  ghost predicate MeetsSpecification(r: Reader, items: seq<Item>) {
    Feed(r, START, items) == Specified(r, items)
  }

  lemma {:induction false} StartIsSpecified(r: Reader)
    ensures MeetsSpecification(r, [])
  {
  }

  /** items[..n], built up one item at a time. */
  function Prefix(items: seq<Item>, n: nat): seq<Item>
    requires n <= |items|
  {
    if n == 0 then [] else Prefix(items, n - 1) + [items[n - 1]]
  }

  lemma {:induction false} PrefixIsSlice(items: seq<Item>, n: nat)
    requires n <= |items|
    ensures Prefix(items, n) == items[..n]
  {
    if n > 0 {
      PrefixIsSlice(items, n - 1);
    }
  }

  lemma {:induction false} FeedIsSpecified(r: Reader, items: seq<Item>, n: nat, built: seq<Item>)
    requires n <= |items| && built == Prefix(items, n)
    ensures MeetsSpecification(r, built)
  {
    if n == 0 {
      StartIsSpecified(r);
    } else {
      var before := Prefix(items, n - 1);
      FeedIsSpecified(r, items, n - 1, before);
      FeedStep(r, before, items[n - 1], built);
    }
  }

  lemma {:induction false} FeedMeetsSpecification(r: Reader, items: seq<Item>)
    ensures MeetsSpecification(r, items)
  {
    PrefixIsSlice(items, |items|);
    assert items[..|items|] == items;
    FeedIsSpecified(r, items, |items|, items);
  }

  lemma {:induction false} FeedStep(r: Reader, before: seq<Item>, x: Item, after: seq<Item>)
    requires MeetsSpecification(r, before) && after == before + [x]
    ensures MeetsSpecification(r, after)
  {
    FeedSnoc(r, START, before, x);
    NextIsSpecified(r, before, x);
  }

  method BuildSections(r: Reader, pages: seq<Page>) returns (sections: seq<Section>)
    ensures sections == SectionsOf(r, Items(pages))
  {
    var builder := new SectionBuilder(r);
    for p := 0 to |pages|
      invariant fresh(builder) && builder.reader == r
      invariant builder.Snapshot() == Feed(r, START, Items(pages[..p]))
    {
      assert pages[..p + 1][..p] == pages[..p];
      FeedConcat(r, START, Items(pages[..p]), PageItems(pages[p].number, pages[p].blocks, pages[p].expected));
      builder.AddPage(pages[p]);
    }
    assert pages[..|pages|] == pages;
    FeedMeetsSpecification(r, Items(pages));
    ClosedIsSectionsOf(r, Items(pages));
    builder.Close();
    sections := builder.sections;
  }

  // ---- what the sections are -----------------------------------------------------------------------

  function AllBlocks(sections: seq<Section>): seq<Block> {
    if sections == [] then [] else AllBlocks(sections[..|sections| - 1]) + sections[|sections| - 1].blocks
  }

  lemma {:induction false} BlocksConcat(r: Reader, a: seq<Item>, b: seq<Item>)
    ensures Blocks(r, a + b) == Blocks(r, a) + Blocks(r, b)
  {
    if b == [] {
      assert a + b == a;
    } else {
      assert (a + b)[..|a + b| - 1] == a + b[..|b| - 1];
      BlocksConcat(r, a, b[..|b| - 1]);
    }
  }

  /** Sections concatenate back to every block of the document, in order. */
  lemma {:induction false} SectionsConserve(r: Reader, items: seq<Item>)
    ensures AllBlocks(SectionsOf(r, items)) == Blocks(r, items)
    decreases |items|
  {
    if items != [] {
      var start := OpenStart(items);
      var last := Section(OpenPath(r, items), Blocks(r, items[start..]), OpenLabel(r, items));
      SectionsConserve(r, items[..start]);
      SectionsUnfold(r, items);
      AllBlocksGrow(SectionsOf(r, items[..start]), last);
      BlocksSplit(r, items, start);
    }
  }

  lemma {:induction false} SectionsUnfold(r: Reader, items: seq<Item>)
    requires items != []
    ensures SectionsOf(r, items) == SectionsOf(r, items[..OpenStart(items)])
      + [Section(OpenPath(r, items), Blocks(r, items[OpenStart(items)..]), OpenLabel(r, items))]
  {
  }

  lemma {:induction false} BlocksSplit(r: Reader, items: seq<Item>, n: nat)
    requires n <= |items|
    ensures Blocks(r, items) == Blocks(r, items[..n]) + Blocks(r, items[n..])
  {
    BlocksConcat(r, items[..n], items[n..]);
    assert items[..n] + items[n..] == items;
  }

  lemma {:induction false} AllBlocksGrow(sections: seq<Section>, section: Section)
    ensures AllBlocks(sections + [section]) == AllBlocks(sections) + section.blocks
  {
    assert (sections + [section])[..|sections|] == sections;
  }

  /** Label and breadcrumbs of the section starting at item s, judged on the whole document. */
  ghost predicate LabelledAt(r: Reader, items: seq<Item>, section: Section, s: nat)
    requires s < |items|
  {
    if items[s].Heading?
    then section.access == HeadingLabel(r, items, s) && section.path == Some(Join(Texts(Chain(r, items, s)), " > "))
    else s == 0 && section.access == DocLabel(r, items) && section.path == None
  }

  lemma {:induction false} LabelledStays(r: Reader, items: seq<Item>, n: nat, section: Section, s: nat)
    requires s < n <= |items| && (n == |items| || items[n].Heading?) && LabelledAt(r, items[..n], section, s)
    ensures LabelledAt(r, items, section, s)
    decreases |items| - n
  {
    if n == |items| {
      assert items[..n] == items;
      return;
    }
    var m := |items| - 1;
    var x := items[m];
    assert items[..m] + [x] == items;
    assert items[..m][..n] == items[..n];
    if n < m {
      LabelledStays(r, items[..m], n, section, s);
    } else {
      assert items[..m] == items[..n];
    }
    if items[s].Heading? {
      if s + 1 < m {
        HeadingLabelStable(r, items[..m], x, s);
        ChainStable(r, items[..m], x, s);
      } else {
        SettledByHeading(r, items[..m], x, s);
      }
    } else {
      HeadingBlocksDocLabel(r, items[..m], x, n);
    }
  }

  lemma {:induction false} HeadingBlocksDocLabel(r: Reader, items: seq<Item>, x: Item, n: nat)
    requires n <= |items| && (n == |items| ==> x.Heading?) && (n < |items| ==> items[n].Heading?)
    ensures DocLabel(r, items + [x]) == DocLabel(r, items)
  {
    assert (items + [x])[..|items|] == items;
  }

  /** One section's own stretch of the document: from its first item up to the next heading. */
  ghost predicate Spans(r: Reader, items: seq<Item>, section: Section, s: nat, e: nat) {
    && s < e <= |items| && section.blocks == Blocks(r, items[s..e])
    && (forall i :: s < i < e ==> items[i].Text?)
    && (e == |items| || items[e].Heading?)
  }

  lemma {:induction false} OpenSpans(r: Reader, items: seq<Item>, section: Section)
    requires items != [] && section.blocks == Blocks(r, items[OpenStart(items)..])
    ensures Spans(r, items, section, OpenStart(items), |items|)
  {
    assert items[OpenStart(items)..|items|] == items[OpenStart(items)..];
  }

  lemma {:induction false} SpansStay(r: Reader, items: seq<Item>, n: nat, section: Section, s: nat, e: nat)
    requires n <= |items| && (n == |items| || items[n].Heading?) && Spans(r, items[..n], section, s, e)
    ensures Spans(r, items, section, s, e)
  {
    assert items[..n][s..e] == items[s..e];
    forall i | s < i < e ensures items[i].Text? {
      assert items[i] == items[..n][i];
    }
  }

  /** Label inheritance: every section is the stretch from its own heading (or the start of the
      document) to the next one, and carries that heading's own marker, else the label of its
      nearest earlier heading of smaller level, else the document's; its breadcrumbs are the
      headings on that path. */
  lemma {:induction false} SectionsLabelled(r: Reader, items: seq<Item>, k: nat) returns (s: nat, e: nat)
    requires k < |SectionsOf(r, items)|
    ensures Spans(r, items, SectionsOf(r, items)[k], s, e) && LabelledAt(r, items, SectionsOf(r, items)[k], s)
    decreases |items|
  {
    var start := OpenStart(items);
    if k < |SectionsOf(r, items[..start])| {
      s, e := SectionsLabelled(r, items[..start], k);
      LabelledStays(r, items, start, SectionsOf(r, items)[k], s);
      SpansStay(r, items, start, SectionsOf(r, items)[k], s, e);
    } else {
      s, e := start, |items|;
      OpenSpans(r, items, SectionsOf(r, items)[k]);
    }
  }
}
