/** What the chunks of a document say: their text, blank lines and spaces included, and every
    printing character of the document once and in order. */
module ChunkContents {
  import opened Chunking
  import opened Common
  import opened Sections
  import opened SlidingWindow
  import opened Text

  // ---- texts, in order -----------------------------------------------------------------------

  lemma {:induction false} BlockTextsInOrder(blocks: seq<Block>)
    ensures |BlockTexts(blocks)| == |blocks|
    ensures forall i :: 0 <= i < |blocks| ==> BlockTexts(blocks)[i] == blocks[i].text
  {
    if blocks != [] {
      BlockTextsInOrder(blocks[..|blocks| - 1]);
    }
  }

  lemma {:induction false} TextsInOrder(stack: seq<Crumb>)
    ensures |Texts(stack)| == |stack|
    ensures forall i :: 0 <= i < |stack| ==> Texts(stack)[i] == stack[i].text
  {
    if stack != [] {
      TextsInOrder(stack[..|stack| - 1]);
    }
  }

  lemma {:induction false} UnitPartsInOrder(units: seq<Block>)
    ensures |UnitParts(units)| == |units|
    ensures forall i :: 0 <= i < |units| ==> UnitParts(units)[i] == UnitPart(units[i])
  {
    hide UnitPart;
    if units != [] {
      UnitPartsInOrder(units[..|units| - 1]);
    }
  }

  /** Joining puts the separator between the parts, and nowhere else. */
  lemma {:induction false} JoinSplits(a: seq<string>, b: seq<string>, separator: string)
    ensures b == [] ==> Join(a + b, separator) == Join(a, separator)
    ensures a == [] ==> Join(a + b, separator) == Join(b, separator)
    ensures a != [] && b != [] ==> Join(a + b, separator) == Join(a, separator) + separator + Join(b, separator)
    ensures |a| == 1 ==> Join(a, separator) == a[0]
  {
    if b == [] {
      assert a + b == a;
    } else if a == [] {
      assert a + b == b;
    } else {
      var n := |b| - 1;
      assert (a + b)[..|a + b| - 1] == a + b[..n];
      JoinSplits(a, b[..n], separator);
      if n == 0 {
        assert a + b[..n] == a;
      } else {
        JoinAssociates(Join(a, separator), separator, Join(b[..n], separator), b[n]);
      }
    }
  }

  lemma {:induction false} JoinAssociates(a: string, separator: string, b: string, last: string)
    ensures (a + separator + b) + separator + last == a + separator + (b + separator + last)
  {
  }

  lemma {:induction false} ConcatSplits<T>(a: seq<seq<T>>, b: seq<seq<T>>)
    ensures Concat(a + b) == Concat(a) + Concat(b)
    ensures |a| == 1 ==> Concat(a) == a[0]
  {
    if |a| == 1 {
      assert a[..0] == [] && Concat(a[..0]) == [];
    }
    if b == [] {
      assert a + b == a;
    } else {
      assert (a + b)[..|a + b| - 1] == a + b[..|b| - 1];
      ConcatSplits(a, b[..|b| - 1]);
    }
  }

  /** Every piece of a split table is its own rows under the header, on the table's page. */
  lemma {:induction false} TablePieceAt(count: string -> nat, page: Option<int>, header: seq<string>,
                                        groups: seq<seq<string>>, k: nat)
    requires k < |groups|
    ensures |TablePieces(count, page, header, groups)| == |groups|
    ensures var text := Join(header + groups[k], "\n");
            TablePieces(count, page, header, groups)[k] == Block(text, page, count(text))
  {
    TablePiecesLength(count, page, header, groups);
    TablePiecesLength(count, page, header, groups[..|groups| - 1]);
    if k < |groups| - 1 {
      TablePieceAt(count, page, header, groups[..|groups| - 1], k);
    }
  }

  lemma {:induction false} TablePiecesLength(count: string -> nat, page: Option<int>, header: seq<string>,
                                             groups: seq<seq<string>>)
    ensures |TablePieces(count, page, header, groups)| == |groups|
  {
    if groups != [] {
      TablePiecesLength(count, page, header, groups[..|groups| - 1]);
    }
  }

  // ---- printing characters -------------------------------------------------------------------

  function BlockInk(blocks: seq<Block>): string {
    if blocks == [] then "" else BlockInk(blocks[..|blocks| - 1]) + Ink(blocks[|blocks| - 1].text)
  }

  lemma {:induction false} BlockInkConcat(a: seq<Block>, b: seq<Block>)
    ensures BlockInk(a + b) == BlockInk(a) + BlockInk(b)
  {
    hide Ink;
    hide IsSpace;
    if b == [] {
      assert a + b == a;
    } else {
      assert (a + b)[..|a + b| - 1] == a + b[..|b| - 1];
      BlockInkConcat(a, b[..|b| - 1]);
    }
  }

  lemma {:induction false} JoinGrows(texts: seq<string>, last: string)
    requires texts != []
    ensures Ink(Join(texts + [last], "\n\n")) == Ink(Join(texts, "\n\n")) + Ink(last)
  {
    hide Ink;
    assert (texts + [last])[..|texts|] == texts;
    var joined := Join(texts, "\n\n");
    InkConcat(joined + "\n\n", last);
    InkConcat(joined, "\n\n");
    InkBlank("\n\n");
    assert Ink(joined) + "" == Ink(joined);
  }

  lemma {:induction false} JoinedInk(blocks: seq<Block>)
    ensures Ink(Join(BlockTexts(blocks), "\n\n")) == BlockInk(blocks)
  {
    hide Ink, IsSpace;
    if blocks == [] {
      InkBlank("");
    } else {
      var init, last := blocks[..|blocks| - 1], blocks[|blocks| - 1].text;
      JoinedInk(init);
      BlockTextsInOrder(init);
      if init == [] {
        assert BlockTexts(blocks) == [last] && BlockInk(init) + Ink(last) == Ink(last);
      } else {
        JoinGrows(BlockTexts(init), last);
      }
    }
  }

  lemma {:induction false} PartInk(unit: Block)
    ensures Ink(UnitPart(unit)) == Ink(unit.text)
  {
    InkBlank("\n\n");
    InkBlank(" ");
    if IsTable(unit.text) {
      InkConcat("\n\n" + unit.text, "\n\n");
      InkConcat("\n\n", unit.text);
    } else {
      InkConcat(unit.text, " ");
    }
  }

  lemma {:induction false} PartsInk(units: seq<Block>)
    ensures Ink(Concat(UnitParts(units))) == BlockInk(units)
  {
    if units != [] {
      var init, last := units[..|units| - 1], units[|units| - 1];
      PartsInk(init);
      PartInk(last);
      assert UnitParts(units)[..|UnitParts(init)|] == UnitParts(init);
      InkConcat(Concat(UnitParts(init)), UnitPart(last));
    }
  }

  lemma {:induction false} WindowInk(units: seq<Block>)
    ensures Ink(JoinUnits(units)) == BlockInk(units)
  {
    InkStrip(Concat(UnitParts(units)));
    PartsInk(units);
  }

  // ---- what one chunk holds --------------------------------------------------------------------

  /** A chunk of short sections: all their blocks' texts in document order with a blank line
      between them, under the first section's breadcrumbs and the label they share. */
  ghost predicate HoldsSections(c: Chunker, sections: seq<Section>, lo: nat, hi: nat, body: Body) {
    && lo < hi <= |sections|
    && (exists texts: seq<string> ::
          IsTextOf(texts, AllBlocks(sections[lo..hi])) && body.content == Join(texts, "\n\n"))
    && body.tokens == c.count(body.content)
    && body.pages == PageSpan(AllBlocks(sections[lo..hi]))
    && body.path == sections[lo].path
    && (forall s :: lo <= s < hi ==> sections[s].access == body.access)
  }

  ghost predicate IsTextOf(texts: seq<string>, blocks: seq<Block>) {
    |texts| == |blocks| && forall i :: 0 <= i < |blocks| ==> texts[i] == blocks[i].text
  }

  /** A chunk of a long section: one window of its units, each followed by a space, tables set
      off by blank lines, and stripped at both ends. */
  ghost predicate HoldsWindow(c: Chunker, section: Section, window: seq<Block>, body: Body) {
    && (exists parts: seq<string> :: IsLaidOut(parts, window) && body.content == Strip(Concat(parts)))
    && body.tokens == c.count(body.content)
    && body.pages == PageSpan(window)
    && body.path == section.path && body.access == section.access
  }

  ghost predicate IsLaidOut(parts: seq<string>, units: seq<Block>) {
    && |parts| == |units|
    && forall i :: 0 <= i < |units| ==>
      parts[i] == if IsTable(units[i].text) then "\n\n" + units[i].text + "\n\n" else units[i].text + " "
  }

  lemma {:induction false} MergedHolds(c: Chunker, sections: seq<Section>, lo: nat, hi: nat)
    requires lo < hi <= |sections| && Together(c, sections, lo, hi)
    ensures HoldsSections(c, sections, lo, hi, MergedBody(c, sections[lo..hi]))
  {
    var blocks := AllBlocks(sections[lo..hi]);
    BlockTextsInOrder(blocks);
    assert IsTextOf(BlockTexts(blocks), blocks);
    MergedLabelled(c, sections, lo, hi);
    assert sections[lo..hi][0] == sections[lo];
  }

  lemma {:induction false} WindowHolds(c: Chunker, section: Section, window: seq<Block>)
    ensures HoldsWindow(c, section, window, WindowBody(c, section, window))
  {
    UnitPartsInOrder(window);
    assert IsLaidOut(UnitParts(window), window);
  }

  lemma {:induction false} WindowBodyAt(c: Chunker, section: Section, windows: seq<seq<Block>>, k: nat)
    requires k < |windows|
    ensures |WindowBodies(c, section, windows)| == |windows|
    ensures WindowBodies(c, section, windows)[k] == WindowBody(c, section, windows[k])
  {
    WindowBodiesLength(c, section, windows);
    WindowBodiesLength(c, section, windows[..|windows| - 1]);
    if k < |windows| - 1 {
      WindowBodyAt(c, section, windows[..|windows| - 1], k);
    }
  }

  lemma {:induction false} SliceAt(units: seq<Block>, cuts: seq<Cut>, k: nat)
    requires k < |cuts|
    ensures |Slices(units, cuts)| == |cuts| && Slices(units, cuts)[k] == Slice(units, cuts[k])
  {
    SlicesLength(units, cuts);
    SlicesLength(units, cuts[..|cuts| - 1]);
    if k < |cuts| - 1 {
      SliceAt(units, cuts[..|cuts| - 1], k);
    }
  }

  lemma {:induction false} SlicesLength(units: seq<Block>, cuts: seq<Cut>)
    ensures |Slices(units, cuts)| == |cuts|
  {
    if cuts != [] {
      SlicesLength(units, cuts[..|cuts| - 1]);
    }
  }

  /** A piece of a plan makes one chunk of its sections, or one chunk for every window of its
      section, in order. */
  lemma {:induction false} PieceHolds(c: Chunker, sections: seq<Section>, piece: Piece)
    requires IsPiece(c, sections, piece)
    ensures var bodies := PieceBodies(c, sections, piece);
            match piece
            case Merged(lo, hi) => |bodies| == 1 && HoldsSections(c, sections, lo, hi, bodies[0])
            case Split(long, cuts) =>
              && |bodies| == |cuts|
              && forall k :: 0 <= k < |cuts| ==>
                HoldsWindow(c, sections[long], Slice(c.units(sections[long]), cuts[k]), bodies[k])
  {
    match piece
    case Merged(lo, hi) => MergedHolds(c, sections, lo, hi);
    case Split(long, cuts) =>
      var section, units := sections[long], c.units(sections[long]);
      SlicesLength(units, cuts);
      WindowBodiesLength(c, section, Slices(units, cuts));
      forall k | 0 <= k < |cuts|
        ensures HoldsWindow(c, section, Slice(units, cuts[k]), PieceBodies(c, sections, piece)[k])
      {
        SliceAt(units, cuts, k);
        WindowBodyAt(c, section, Slices(units, cuts), k);
        WindowHolds(c, section, Slice(units, cuts[k]));
      }
  }

  // ---- reading the chunks ----------------------------------------------------------------------

  function Contents(bodies: seq<Body>): seq<string> {
    if bodies == [] then [] else Contents(bodies[..|bodies| - 1]) + [bodies[|bodies| - 1].content]
  }

  /** The ink of the chunks one after another, with the first skips[i] characters of chunk i left out. */
  function Reading(contents: seq<string>, skips: seq<nat>): string
    requires |skips| == |contents|
  {
    if contents == [] then ""
    else
      var n := |contents| - 1;
      Reading(contents[..n], skips[..n]) + Unread(contents[n], skips[n])
  }

  function Unread(content: string, skip: nat): string {
    if skip <= |Ink(content)| then Ink(content)[skip..] else ""
  }

  /** What is left out of a chunk is what the chunk before it ended with. */
  ghost predicate Repeats(contents: seq<string>, i: nat, skip: nat)
    requires i < |contents|
  {
    && skip <= |Ink(contents[i])|
    && (skip > 0 ==>
        && i > 0 && skip <= |Ink(contents[i - 1])|
        && Ink(contents[i])[..skip] == Ink(contents[i - 1])[|Ink(contents[i - 1])| - skip..])
  }

  ghost predicate OnlyRepeats(contents: seq<string>, skips: seq<nat>) {
    |skips| == |contents| && forall i: nat :: i < |contents| ==> Repeats(contents, i, skips[i])
  }

  lemma {:induction false} ReadsOn(contents: seq<string>, skips: seq<nat>, next: string, skip: nat,
                                   contents': seq<string>, skips': seq<nat>)
    requires OnlyRepeats(contents, skips) && contents' == contents + [next] && skips' == skips + [skip]
    requires Repeats(contents', |contents|, skip)
    ensures OnlyRepeats(contents', skips')
    ensures Reading(contents', skips') == Reading(contents, skips) + Unread(next, skip)
  {
    assert contents'[..|contents|] == contents && skips'[..|contents|] == skips;
    forall i: nat | i < |contents'| ensures Repeats(contents', i, skips'[i]) {
      if i < |contents| {
        assert Repeats(contents, i, skips[i]);
      }
    }
  }

  lemma {:induction false} ContentsConcat(a: seq<Body>, b: seq<Body>)
    ensures Contents(a + b) == Contents(a) + Contents(b)
  {
    if b == [] {
      assert a + b == a;
    } else {
      assert (a + b)[..|a + b| - 1] == a + b[..|b| - 1];
      ContentsConcat(a, b[..|b| - 1]);
    }
  }

  lemma {:induction false} ContentsAt(bodies: seq<Body>)
    ensures |Contents(bodies)| == |bodies|
    ensures forall i :: 0 <= i < |bodies| ==> Contents(bodies)[i] == bodies[i].content
  {
    if bodies != [] {
      ContentsAt(bodies[..|bodies| - 1]);
    }
  }

  /** The texts of a list of windows. */
  function WindowTexts(units: seq<Block>, cuts: seq<Cut>): seq<string> {
    if cuts == [] then []
    else WindowTexts(units, cuts[..|cuts| - 1]) + [JoinUnits(Slice(units, cuts[|cuts| - 1]))]
  }

  lemma {:induction false} WindowTextsAre(c: Chunker, section: Section, units: seq<Block>, cuts: seq<Cut>)
    ensures Contents(WindowBodies(c, section, Slices(units, cuts))) == WindowTexts(units, cuts)
  {
    if cuts != [] {
      var init := cuts[..|cuts| - 1];
      WindowTextsAre(c, section, units, init);
      var windows := Slices(units, cuts);
      assert windows[..|windows| - 1] == Slices(units, init);
      ContentsConcat(WindowBodies(c, section, Slices(units, init)), [WindowBody(c, section, windows[|windows| - 1])]);
      var last := [WindowBody(c, section, windows[|windows| - 1])];
      assert last[..0] == [];
    }
  }

  lemma {:induction false} FreshUnitsInit(units: seq<Block>, cuts: seq<Cut>, init: seq<Cut>, k: nat)
    requires cuts != [] && init == cuts[..|cuts| - 1] && k <= |init|
    ensures FreshUnits(units, init, k) == FreshUnits(units, cuts, k)
  {
    if k > 0 {
      FreshUnitsInit(units, cuts, init, k - 1);
      assert init[k - 1] == cuts[k - 1];
      if k > 1 {
        assert init[k - 2] == cuts[k - 2];
      }
    }
  }

  lemma {:induction false} SliceInk(units: seq<Block>, i: nat, j: nat, k: nat)
    requires i <= j <= k <= |units|
    ensures BlockInk(units[i..k]) == BlockInk(units[i..j]) + BlockInk(units[j..k])
  {
    BlockInkConcat(units[i..j], units[j..k]);
    assert units[i..j] + units[j..k] == units[i..k];
  }

  /** The ink of a window: what it repeats, and then what it adds. */
  lemma {:induction false} WindowSplits(units: seq<Block>, cut: Cut, seen: nat, skip: nat)
    requires cut.start <= seen <= cut.end <= |units| && skip == |BlockInk(units[cut.start..seen])|
    ensures var ink := Ink(JoinUnits(Slice(units, cut)));
            && skip <= |ink| && ink[..skip] == BlockInk(units[cut.start..seen])
            && ink[skip..] == BlockInk(Slice(units, Cut(seen, cut.end)))
  {
    WindowInk(units[cut.start..cut.end]);
    SliceInk(units, cut.start, seen, cut.end);
  }

  lemma {:induction false} WindowEnds(units: seq<Block>, cut: Cut, from: nat, skip: nat)
    requires cut.start <= from <= cut.end <= |units| && skip == |BlockInk(units[from..cut.end])|
    ensures var ink := Ink(JoinUnits(Slice(units, cut)));
            skip <= |ink| && ink[|ink| - skip..] == BlockInk(units[from..cut.end])
  {
    WindowInk(units[cut.start..cut.end]);
    SliceInk(units, cut.start, from, cut.end);
  }

  lemma {:induction false} CarriesWithin(units: seq<Block>, target: nat, overlap: nat, max: nat, cuts: seq<Cut>, k: nat)
    requires IsPartialCutting(units, target, overlap, max, cuts) && k < |cuts|
    ensures cuts[k].start <= Fresh(cuts, k) < cuts[k].end <= |units|
    ensures k == 0 ==> cuts[k].start == 0
    ensures k > 0 ==> cuts[k - 1].start <= cuts[k].start <= cuts[k - 1].end
  {
    CutAt(units, target, overlap, max, cuts, k);
    if k > 0 {
      var before := cuts[k - 1];
      var tail: nat :| tail <= before.end && IsTailStart(units, before.start, before.end, overlap, tail)
        && cuts[k].start == if Sum(units, tail, before.end + 1) <= max then tail else before.end;
    }
  }

  /** A window repeats only the end of the window before it. */
  lemma {:induction false} WindowRepeats(units: seq<Block>, target: nat, overlap: nat, max: nat, cuts: seq<Cut>,
                                         before: seq<string>, next: string, skip: nat)
    requires IsPartialCutting(units, target, overlap, max, cuts) && cuts != []
    requires |cuts| > 1 ==> before != [] && before[|before| - 1] == JoinUnits(Slice(units, cuts[|cuts| - 2]))
    requires next == JoinUnits(Slice(units, cuts[|cuts| - 1]))
    requires var cut, seen := cuts[|cuts| - 1], Fresh(cuts, |cuts| - 1);
             cut.start <= seen <= |units| && skip == |BlockInk(units[cut.start..seen])|
    ensures Repeats(before + [next], |before|, skip)
    ensures Unread(next, skip)
         == BlockInk(Slice(units, Cut(Fresh(cuts, |cuts| - 1), cuts[|cuts| - 1].end)))
  {
    hide BlockInk, JoinUnits, IsPartialCutting, Ink;
    var n := |cuts| - 1;
    var cut, seen := cuts[n], Fresh(cuts, n);
    CarriesWithin(units, target, overlap, max, cuts, n);
    WindowSplits(units, cut, seen, skip);
    if n > 0 {
      WindowEnds(units, cuts[n - 1], cut.start, skip);
    } else {
      assert units[cut.start..seen] == [];
      NoInk();
    }
  }

  lemma {:induction false} NoInk()
    ensures BlockInk([]) == ""
  {
  }

  lemma {:induction false} WindowTextsEnd(units: seq<Block>, cuts: seq<Cut>, contents: seq<string>)
    requires cuts != []
    ensures var texts, last := WindowTexts(units, cuts), JoinUnits(Slice(units, cuts[|cuts| - 1]));
            && contents + texts == contents + WindowTexts(units, cuts[..|cuts| - 1]) + [last]
            && |contents + texts| > 0 && (contents + texts)[|contents + texts| - 1] == last
  {
  }

  lemma {:induction false} WindowReads(units: seq<Block>, target: nat, overlap: nat, max: nat, cuts: seq<Cut>,
                                       init: seq<Cut>, before: seq<string>, earlier: seq<nat>, next: string)
    returns (skips: seq<nat>)
    requires IsPartialCutting(units, target, overlap, max, cuts) && OnlyRepeats(before, earlier)
    requires cuts != [] && init == cuts[..|cuts| - 1]
    requires |cuts| > 1 ==> before != [] && before[|before| - 1] == JoinUnits(Slice(units, cuts[|cuts| - 2]))
    requires next == JoinUnits(Slice(units, cuts[|cuts| - 1]))
    ensures OnlyRepeats(before + [next], skips) && |skips| == |before| + 1 && |earlier| == |before|
    ensures Reading(before + [next], skips)
         == Reading(before, earlier) + BlockInk(Slice(units, Cut(Fresh(cuts, |init|), cuts[|init|].end)))
  {
    hide BlockInk, JoinUnits, Ink, OnlyRepeats, Repeats, Reading, IsPartialCutting;
    var n := |cuts| - 1;
    CarriesWithin(units, target, overlap, max, cuts, n);
    var skip := |BlockInk(units[cuts[n].start..Fresh(cuts, n)])|;
    WindowRepeats(units, target, overlap, max, cuts, before, next, skip);
    skips := earlier + [skip];
    SameLength(before, earlier);
    ReadsOn(before, earlier, next, skip, before + [next], skips);
  }

  lemma {:induction false} FreshInk(units: seq<Block>, cuts: seq<Cut>, init: seq<Cut>)
    requires cuts != [] && init == cuts[..|cuts| - 1]
    ensures BlockInk(FreshUnits(units, cuts, |cuts|))
         == BlockInk(FreshUnits(units, init, |init|))
           + BlockInk(Slice(units, Cut(Fresh(cuts, |init|), cuts[|init|].end)))
  {
    hide BlockInk;
    FreshUnitsInit(units, cuts, init, |init|);
    BlockInkConcat(FreshUnits(units, init, |init|), Slice(units, Cut(Fresh(cuts, |init|), cuts[|init|].end)));
  }

  lemma {:induction false} InitCutting(units: seq<Block>, target: nat, overlap: nat, max: nat, cuts: seq<Cut>,
                                       init: seq<Cut>)
    requires IsPartialCutting(units, target, overlap, max, cuts) && cuts != [] && init == cuts[..|cuts| - 1]
    ensures IsPartialCutting(units, target, overlap, max, init)
    ensures |init| > 0 ==> init[|init| - 1] == cuts[|cuts| - 2]
  {
  }

  lemma {:induction false} NoWindows(units: seq<Block>, contents: seq<string>)
    ensures contents + WindowTexts(units, []) == contents && BlockInk(FreshUnits(units, [], 0)) == ""
  {
  }

  /** Windows read on where the text before them stopped. */
  lemma {:induction false} WindowsRead(units: seq<Block>, target: nat, overlap: nat, max: nat, cuts: seq<Cut>,
                                       contents: seq<string>, skips: seq<nat>, all: seq<string>)
    returns (skips': seq<nat>)
    requires IsPartialCutting(units, target, overlap, max, cuts) && OnlyRepeats(contents, skips)
    requires all == contents + WindowTexts(units, cuts)
    ensures |skips| == |contents| && OnlyRepeats(all, skips') && |skips'| == |all|
    ensures Reading(all, skips') == Reading(contents, skips) + BlockInk(FreshUnits(units, cuts, |cuts|))
    decreases |cuts|
  {
    hide *;
    SameLength(contents, skips);
    if |cuts| == 0 {
      skips' := skips;
      assert cuts == [];
      NoWindows(units, contents);
      return;
    }
    var n := |cuts| - 1;
    var init, next := cuts[..n], JoinUnits(Slice(units, cuts[n]));
    var before := contents + WindowTexts(units, init);
    InitCutting(units, target, overlap, max, cuts, init);
    var earlier := WindowsRead(units, target, overlap, max, init, contents, skips, before);
    if n > 0 {
      WindowTextsEnd(units, init, contents);
    }
    WindowTextsEnd(units, cuts, contents);
    skips' := WindowReads(units, target, overlap, max, cuts, init, before, earlier, next);
    FreshInk(units, cuts, init);
  }

  lemma {:induction false} SameLength(contents: seq<string>, skips: seq<nat>)
    requires OnlyRepeats(contents, skips)
    ensures |skips| == |contents|
  {
  }

  lemma {:induction false} PieceReads(c: Chunker, sections: seq<Section>, piece: Piece, contents: seq<string>,
                                      skips: seq<nat>)
    returns (skips': seq<nat>)
    requires IsPiece(c, sections, piece) && OnlyRepeats(contents, skips)
    ensures var all := contents + Contents(PieceBodies(c, sections, piece));
            && OnlyRepeats(all, skips')
            && Reading(all, skips') == Reading(contents, skips) + BlockInk(PieceUnits(c, sections, piece))
  {
    match piece
    case Merged(lo, hi) =>
      var blocks, body := AllBlocks(sections[lo..hi]), MergedBody(c, sections[lo..hi]);
      JoinedInk(blocks);
      assert [body][..0] == [] && Contents([body]) == [body.content];
      skips' := skips + [0];
      ReadsOn(contents, skips, body.content, 0, contents + [body.content], skips');
    case Split(long, cuts) =>
      var units := c.units(sections[long]);
      WindowTextsAre(c, sections[long], units, cuts);
      skips' := WindowsRead(units, c.target, c.overlap, c.max, cuts, contents, skips,
                            contents + WindowTexts(units, cuts));
  }

  lemma {:induction false} PlanReads(c: Chunker, sections: seq<Section>, plan: seq<Piece>) returns (skips: seq<nat>)
    requires IsPlan(c, sections, plan)
    ensures OnlyRepeats(Contents(PlanBodies(c, sections, plan)), skips)
    ensures Reading(Contents(PlanBodies(c, sections, plan)), skips) == BlockInk(PlanUnits(c, sections, plan))
  {
    skips := [];
    if plan != [] {
      var n := |plan| - 1;
      var earlier := PlanReads(c, sections, plan[..n]);
      var before, bodies := PlanBodies(c, sections, plan[..n]), PieceBodies(c, sections, plan[n]);
      ContentsConcat(before, bodies);
      skips := PieceReads(c, sections, plan[n], Contents(before), earlier);
      BlockInkConcat(PlanUnits(c, sections, plan[..n]), PieceUnits(c, sections, plan[n]));
    }
  }

  // ---- blank chunks are no loss ------------------------------------------------------------------

  function DraftTexts(drafts: seq<ChunkDraft>): seq<string> {
    if drafts == [] then [] else DraftTexts(drafts[..|drafts| - 1]) + [drafts[|drafts| - 1].body.content]
  }

  lemma {:induction false} DraftTextsGrow(drafts: seq<ChunkDraft>, draft: ChunkDraft)
    ensures DraftTexts(drafts + [draft]) == DraftTexts(drafts) + [draft.body.content]
  {
    assert (drafts + [draft])[..|drafts|] == drafts;
  }

  /** The last numbered chunk is the last body, unless that is blank. */
  lemma {:induction false} LastDraft(bodies: seq<Body>)
    requires bodies != [] && !IsBlank(bodies[|bodies| - 1].content)
    ensures var texts := DraftTexts(Numbered(bodies));
            texts != [] && texts[|texts| - 1] == bodies[|bodies| - 1].content
  {
    var n := |bodies| - 1;
    DraftTextsGrow(Numbered(bodies[..n]), ChunkDraft(n, bodies[n]));
  }

  /** A blank chunk has nothing to read and nothing that the next could repeat. */
  lemma {:induction false} StillRepeats(bodies: seq<Body>, contents: seq<string>, skip: nat, texts: seq<string>,
                                        init: seq<Body>, all: seq<string>)
    requires bodies != [] && contents == Contents(bodies) && init == bodies[..|bodies| - 1] && |contents| == |bodies|
    requires Repeats(contents, |bodies| - 1, skip) && texts == DraftTexts(Numbered(init))
    requires all == texts + [bodies[|bodies| - 1].content]
    ensures Repeats(all, |texts|, skip)
  {
    ContentsAt(bodies);
    var n := |bodies| - 1;
    if skip > 0 {
      InkBlank(bodies[n - 1].content);
      LastDraft(init);
      assert all[|texts| - 1] == contents[n - 1];
    }
  }

  lemma {:induction false} ContentsInit(bodies: seq<Body>, init: seq<Body>)
    requires bodies != [] && init == bodies[..|bodies| - 1]
    ensures |Contents(bodies)| == |bodies| && |init| + 1 == |bodies|
      && Contents(bodies)[|init|] == bodies[|init|].content
    ensures Contents(bodies)[..|init|] == Contents(init)
  {
    ContentsAt(bodies);
    ContentsAt(init);
  }

  lemma {:induction false} BlankReads(contents: seq<string>, skips: seq<nat>, n: nat)
    requires OnlyRepeats(contents, skips) && n + 1 == |contents|
    ensures Repeats(contents, n, skips[n])
    ensures Reading(contents, skips) == Reading(contents[..n], skips[..n]) + Unread(contents[n], skips[n])
    ensures IsBlank(contents[n]) ==> Unread(contents[n], skips[n]) == ""
  {
    InkBlank(contents[n]);
  }

  lemma {:induction false} NumberedGrows(bodies: seq<Body>, init: seq<Body>)
    requires bodies != [] && init == bodies[..|bodies| - 1]
    ensures IsBlank(bodies[|init|].content) ==> Numbered(bodies) == Numbered(init)
    ensures !IsBlank(bodies[|init|].content) ==>
              Numbered(bodies) == Numbered(init) + [ChunkDraft(|init|, bodies[|init|])]
  {
    hide IsBlank;
  }

  lemma {:induction false} DraftReads(bodies: seq<Body>, init: seq<Body>, contents: seq<string>, skip: nat,
                                      earlier: seq<nat>)
    returns (kept: seq<nat>)
    requires bodies != [] && init == bodies[..|bodies| - 1] && contents == Contents(bodies) && |contents| == |bodies|
    requires Repeats(contents, |init|, skip) && OnlyRepeats(DraftTexts(Numbered(init)), earlier)
    requires IsBlank(bodies[|init|].content) ==> Unread(bodies[|init|].content, skip) == ""
    ensures OnlyRepeats(DraftTexts(Numbered(bodies)), kept) && |kept| == |DraftTexts(Numbered(bodies))|
    ensures |earlier| == |DraftTexts(Numbered(init))|
    ensures Reading(DraftTexts(Numbered(bodies)), kept)
         == Reading(DraftTexts(Numbered(init)), earlier) + Unread(bodies[|init|].content, skip)
  {
    hide Reading, Repeats, Unread, IsBlank, OnlyRepeats, DraftTexts;
    var texts, body := DraftTexts(Numbered(init)), bodies[|init|];
    SameLength(texts, earlier);
    NumberedGrows(bodies, init);
    if IsBlank(body.content) {
      kept := earlier;
      assert Reading(texts, kept) + "" == Reading(texts, kept);
      return;
    }
    DraftTextsGrow(Numbered(init), ChunkDraft(|init|, body));
    var all := texts + [body.content];
    StillRepeats(bodies, contents, skip, texts, init, all);
    kept := earlier + [skip];
    ReadsOn(texts, earlier, body.content, skip, all, kept);
  }

  lemma {:induction false} NoBodies(bodies: seq<Body>, contents: seq<string>, skips: seq<nat>, kept: seq<nat>)
    requires bodies == [] && contents == Contents(bodies) && OnlyRepeats(contents, skips) && kept == []
    ensures OnlyRepeats(DraftTexts(Numbered(bodies)), kept) && |kept| == |DraftTexts(Numbered(bodies))|
    ensures |skips| == |contents| && Reading(DraftTexts(Numbered(bodies)), kept) == Reading(contents, skips)
  {
  }

  lemma {:induction false} BlanksDrop(bodies: seq<Body>, contents: seq<string>, skips: seq<nat>)
    returns (kept: seq<nat>)
    requires contents == Contents(bodies) && OnlyRepeats(contents, skips)
    ensures OnlyRepeats(DraftTexts(Numbered(bodies)), kept) && |kept| == |DraftTexts(Numbered(bodies))|
    ensures |skips| == |contents| && Reading(DraftTexts(Numbered(bodies)), kept) == Reading(contents, skips)
    decreases |bodies|
  {
    hide *;
    SameLength(contents, skips);
    if |bodies| == 0 {
      kept := [];
      NoBodies(bodies, contents, skips, kept);
      return;
    }
    var n := |bodies| - 1;
    var init := bodies[..n];
    ContentsInit(bodies, init);
    InitRepeats(contents, skips, n);
    var earlier := BlanksDrop(init, contents[..n], skips[..n]);
    BlankReads(contents, skips, n);
    kept := DraftReads(bodies, init, contents, skips[n], earlier);
  }

  lemma {:induction false} InitRepeats(contents: seq<string>, skips: seq<nat>, n: nat)
    requires OnlyRepeats(contents, skips) && n <= |contents|
    ensures OnlyRepeats(contents[..n], skips[..n])
  {
    forall i: nat | i < n ensures Repeats(contents[..n], i, skips[..n][i]) {
      assert Repeats(contents, i, skips[i]);
    }
  }

  /** Nothing is lost, repeated or reordered: reading the chunks of a document one after another,
      without what a chunk repeats of the end of the one before it, gives every printing character
      of the document's sections once and in order. */
  lemma {:induction false} ChunksConserve(c: Chunker, sections: seq<Section>, plan: seq<Piece>, drafts: seq<ChunkDraft>)
    returns (skips: seq<nat>)
    requires IsPlan(c, sections, plan) && PlanEnd(plan) == |sections|
    requires drafts == Numbered(PlanBodies(c, sections, plan))
    ensures OnlyRepeats(DraftTexts(drafts), skips)
    ensures Reading(DraftTexts(drafts), skips) == BlockInk(AllUnits(c, sections))
  {
    var all := PlanReads(c, sections, plan);
    var bodies := PlanBodies(c, sections, plan);
    skips := BlanksDrop(bodies, Contents(bodies), all);
    PiecesConserve(c, sections, plan);
    assert sections[..|sections|] == sections;
  }
}
