/** From sections to chunks: short neighbours merged, long sections cut by the window, one
    access label per chunk. */
module Chunking {
  import opened Common
  import opened SlidingWindow
  import opened Sections
  import opened Text

  /** Settings and text tools.  `units` cuts a section into sentence and table units. */
  datatype Chunker = Chunker(
    target: nat,
    overlap: nat,
    max: nat,
    count: string -> nat,
    units: Section -> seq<Block>)

  /** A chunk before it is numbered. */
  datatype Body = Body(content: string, tokens: nat, pages: Option<(int, int)>, path: Option<string>, access: string)

  datatype ChunkDraft = ChunkDraft(index: nat, body: Body)

  /** First and last page a chunk touches; absent for formats without pages. */
  function PageSpan(blocks: seq<Block>): (span: Option<(int, int)>)
    ensures span.None? <==> forall b :: b in blocks ==> b.page.None?
    ensures span.Some? ==> forall b :: b in blocks && b.page.Some? ==> span.value.0 <= b.page.value <= span.value.1
    ensures span.Some? ==> exists b :: b in blocks && b.page == Some(span.value.0)
    ensures span.Some? ==> exists b :: b in blocks && b.page == Some(span.value.1)
  {
    if blocks == [] then None
    else
      var last := blocks[|blocks| - 1];
      assert last in blocks;
      assert forall b :: b in blocks <==> b in blocks[..|blocks| - 1] || b == last;
      match (PageSpan(blocks[..|blocks| - 1]), last.page)
      case (span, None) => span
      case (None, Some(p)) => Some((p, p))
      case (Some(span), Some(p)) => Some((Min(span.0, p), Max(span.1, p)))
  }

  function BlockTexts(blocks: seq<Block>): seq<string> {
    if blocks == [] then [] else BlockTexts(blocks[..|blocks| - 1]) + [blocks[|blocks| - 1].text]
  }

  function SectionTokens(sections: seq<Section>): nat {
    if sections == [] then 0 else SectionTokens(sections[..|sections| - 1]) + Tokens(sections[|sections| - 1].blocks)
  }

  function MergedBody(c: Chunker, merged: seq<Section>): Body
    requires merged != []
  {
    var blocks := AllBlocks(merged);
    var content := Join(BlockTexts(blocks), "\n\n");
    Body(content, c.count(content), PageSpan(blocks), merged[0].path, merged[0].access)
  }

  predicate IsTable(text: string) {
    var stripped := LStrip(text);
    stripped != "" && stripped[0] == '|'
  }

  /** Sentences flow with spaces; tables stay on their own lines. */
  function UnitPart(unit: Block): string {
    if IsTable(unit.text) then "\n\n" + unit.text + "\n\n" else unit.text + " "
  }

  function UnitParts(units: seq<Block>): seq<string> {
    if units == [] then [] else UnitParts(units[..|units| - 1]) + [UnitPart(units[|units| - 1])]
  }

  function JoinUnits(units: seq<Block>): string {
    Strip(Concat(UnitParts(units)))
  }

  function WindowBody(c: Chunker, section: Section, window: seq<Block>): Body {
    var content := JoinUnits(window);
    Body(content, c.count(content), PageSpan(window), section.path, section.access)
  }

  // ---- the plan behind a chunk list -----------------------------------------------------------

  /** sections[lo..hi] in one chunk, or one long section in windows. */
  datatype Piece = Merged(lo: nat, hi: nat) | Split(long: nat, cuts: seq<Cut>)

  function Start(piece: Piece): nat {
    match piece case Merged(lo, _) => lo case Split(long, _) => long
  }

  function End(piece: Piece): nat {
    match piece case Merged(_, hi) => hi case Split(long, _) => long + 1
  }

  function PlanEnd(plan: seq<Piece>): nat {
    if plan == [] then 0 else End(plan[|plan| - 1])
  }

  /** Short sections that may share a chunk. */
  ghost predicate Together(c: Chunker, sections: seq<Section>, lo: nat, hi: nat)
    requires lo < hi <= |sections|
  {
    && (forall k :: lo <= k < hi ==>
        sections[k].access == sections[lo].access
        && Tokens(sections[k].blocks) <= c.target)
    && SectionTokens(sections[lo..hi]) <= c.target
  }

  ghost predicate IsPiece(c: Chunker, sections: seq<Section>, piece: Piece) {
    match piece
    case Merged(lo, hi) => lo < hi <= |sections| && Together(c, sections, lo, hi)
    case Split(long, cuts) =>
      && long < |sections| && Tokens(sections[long].blocks) > c.target
      && IsCutting(c.units(sections[long]), c.target, c.overlap, c.max, cuts)
  }

  /** A merged chunk ends only where the next short section could not join it. */
  ghost predicate Apart(c: Chunker, sections: seq<Section>, before: Piece, next: Section) {
    before.Merged? ==>
      && before.lo < before.hi <= |sections|
      && (next.access != sections[before.lo].access
          || SectionTokens(sections[before.lo..before.hi]) + Tokens(next.blocks) > c.target)
  }

  ghost predicate IsPlan(c: Chunker, sections: seq<Section>, plan: seq<Piece>) {
    plan == [] ||
    (var n := |plan| - 1; IsPlan(c, sections, plan[..n]) && Follows(c, sections, plan[..n], plan[n]))
  }

  /** A piece that starts where the plan so far ends. */
  ghost predicate Follows(c: Chunker, sections: seq<Section>, plan: seq<Piece>, piece: Piece) {
    && IsPiece(c, sections, piece)
    && Start(piece) == PlanEnd(plan)
    && (plan != [] && piece.Merged? ==> Apart(c, sections, plan[|plan| - 1], sections[piece.lo]))
  }

  function WindowBodies(c: Chunker, section: Section, windows: seq<seq<Block>>): seq<Body> {
    if windows == [] then []
    else WindowBodies(c, section, windows[..|windows| - 1]) + [WindowBody(c, section, windows[|windows| - 1])]
  }

  function PieceBodies(c: Chunker, sections: seq<Section>, piece: Piece): seq<Body> {
    match piece
    case Merged(lo, hi) => if lo < hi <= |sections| then [MergedBody(c, sections[lo..hi])] else []
    case Split(long, cuts) =>
      if long < |sections| then WindowBodies(c, sections[long], Slices(c.units(sections[long]), cuts)) else []
  }

  function PlanBodies(c: Chunker, sections: seq<Section>, plan: seq<Piece>): seq<Body> {
    if plan == [] then [] else PlanBodies(c, sections, plan[..|plan| - 1]) + PieceBodies(c, sections, plan[|plan| - 1])
  }

  /** Numbered before blank chunks are dropped. */
  function Numbered(bodies: seq<Body>): seq<ChunkDraft> {
    if bodies == [] then []
    else
      var n := |bodies| - 1;
      Numbered(bodies[..n]) + if IsBlank(bodies[n].content) then [] else [ChunkDraft(n, bodies[n])]
  }

  // ---- the loop -----------------------------------------------------------------------------------

  lemma {:induction false} PlanGrows(c: Chunker, sections: seq<Section>, plan: seq<Piece>, piece: Piece,
                                     plan': seq<Piece>)
    requires IsPlan(c, sections, plan) && Follows(c, sections, plan, piece) && plan' == plan + [piece]
    ensures IsPlan(c, sections, plan') && PlanEnd(plan') == End(piece)
    ensures PlanBodies(c, sections, plan') == PlanBodies(c, sections, plan) + PieceBodies(c, sections, piece)
  {
    assert plan'[..|plan|] == plan;
  }

  lemma {:induction false} TogetherGrows(c: Chunker, sections: seq<Section>, lo: nat, hi: nat)
    requires lo <= hi < |sections| && Tokens(sections[hi].blocks) <= c.target
    requires lo < hi ==> Together(c, sections, lo, hi) && sections[hi].access == sections[lo].access
                         && SectionTokens(sections[lo..hi]) + Tokens(sections[hi].blocks) <= c.target
    ensures Together(c, sections, lo, hi + 1)
  {
    assert sections[lo..hi + 1][..hi - lo] == sections[lo..hi];
    if lo == hi {
      assert sections[lo..hi] == [];
    }
  }

  /** The loop invariant: a plan up to lo, and sections[lo..next] waiting in the buffer. */
  ghost predicate Planned(c: Chunker, sections: seq<Section>, plan: seq<Piece>, bodies: seq<Body>,
                          lo: nat, next: nat, buffer: seq<Section>) {
    && IsPlan(c, sections, plan) && bodies == PlanBodies(c, sections, plan) && lo == PlanEnd(plan)
    && lo <= next <= |sections| && buffer == sections[lo..next]
    && (lo < next ==> Follows(c, sections, plan, Merged(lo, next)))
  }

  lemma {:induction false} FlushKeeps(c: Chunker, sections: seq<Section>, plan: seq<Piece>, bodies: seq<Body>,
                                      lo: nat, next: nat, buffer: seq<Section>,
                   plan': seq<Piece>)
    requires Planned(c, sections, plan, bodies, lo, next, buffer) && lo < next && plan' == plan + [Merged(lo, next)]
    ensures Planned(c, sections, plan', bodies + [MergedBody(c, buffer)], next, next, [])
  {
    PlanGrows(c, sections, plan, Merged(lo, next), plan');
  }

  lemma {:induction false} LongKeeps(c: Chunker, sections: seq<Section>, plan: seq<Piece>, bodies: seq<Body>,
                                     next: nat, piece: Piece,
                  plan': seq<Piece>, bodies': seq<Body>)
    requires Planned(c, sections, plan, bodies, next, next, []) && piece.Split? && piece.long == next
      && IsPiece(c, sections, piece)
    requires plan' == plan + [piece] && bodies' == bodies + PieceBodies(c, sections, piece)
    ensures Planned(c, sections, plan', bodies', next + 1, next + 1, [])
  {
    PlanGrows(c, sections, plan, piece, plan');
  }

  lemma {:induction false} ShortFollows(c: Chunker, sections: seq<Section>, plan: seq<Piece>, lo: nat, next: nat)
    requires lo == PlanEnd(plan) && lo <= next < |sections| && Tokens(sections[next].blocks) <= c.target
    requires lo < next ==> Follows(c, sections, plan, Merged(lo, next)) && sections[next].access == sections[lo].access
                           && SectionTokens(sections[lo..next]) + Tokens(sections[next].blocks) <= c.target
    requires lo == next && plan != [] ==> Apart(c, sections, plan[|plan| - 1], sections[next])
    ensures Follows(c, sections, plan, Merged(lo, next + 1))
  {
    TogetherGrows(c, sections, lo, next);
    assert IsPiece(c, sections, Merged(lo, next + 1));
  }

  lemma {:induction false} ShortKeeps(c: Chunker, sections: seq<Section>, plan: seq<Piece>, bodies: seq<Body>,
                                      lo: nat, next: nat,
                                      buffer: seq<Section>, section: Section, buffer': seq<Section>)
    requires Planned(c, sections, plan, bodies, lo, next, buffer) && next < |sections| && section == sections[next]
    requires Tokens(section.blocks) <= c.target && buffer' == buffer + [section]
    requires buffer != [] ==>
      section.access == buffer[0].access
      && SectionTokens(buffer) + Tokens(section.blocks) <= c.target
    requires buffer == [] && plan != [] ==> Apart(c, sections, plan[|plan| - 1], section)
    ensures Planned(c, sections, plan, bodies, lo, next + 1, buffer')
  {
    if lo < next {
      assert buffer[0] == sections[lo];
    } else {
      assert buffer == [];
    }
    ShortFollows(c, sections, plan, lo, next);
    BufferGrows(sections, lo, next);
  }

  lemma {:induction false} BufferGrows(sections: seq<Section>, lo: nat, next: nat)
    requires lo <= next < |sections|
    ensures sections[lo..next + 1] == sections[lo..next] + [sections[next]]
  {
  }

  /** The variables of the chunking loop, with its flushing helper. */
  class DraftList {
    const chunker: Chunker
    const sections: seq<Section>
    var bodies: seq<Body>
    var buffer: seq<Section>
    ghost var plan: seq<Piece>
    ghost var lo: nat
    ghost var next: nat

    ghost predicate Valid()
      reads this
    {
      Planned(chunker, sections, plan, bodies, lo, next, buffer)
    }

    constructor (c: Chunker, s: seq<Section>)
      ensures Valid() && next == 0 && buffer == [] && plan == [] && chunker == c && sections == s
    {
      chunker, sections, bodies, buffer, plan, lo, next := c, s, [], [], [], 0, 0;
    }

    method FlushBuffer()
      requires Valid()
      modifies this
      ensures Valid() && buffer == [] && lo == next == old(next)
      ensures plan == if old(buffer) == [] then old(plan) else old(plan) + [Merged(old(lo), next)]
    {
      if buffer == [] {
        return;
      }
      FlushKeeps(chunker, sections, plan, bodies, lo, next, buffer, plan + [Merged(lo, next)]);
      var blocks := CollectBlocks(buffer);
      var content := Join(BlockTexts(blocks), "\n\n");
      bodies := bodies + [Body(content, chunker.count(content), PageSpan(blocks), buffer[0].path, buffer[0].access)];
      plan := plan + [Merged(lo, next)];
      buffer := [];
      lo := next;
    }

    method CollectBlocks(merged: seq<Section>) returns (blocks: seq<Block>)
      ensures blocks == AllBlocks(merged)
    {
      blocks := [];
      for k := 0 to |merged|
        invariant blocks == AllBlocks(merged[..k])
      {
        assert merged[..k + 1][..k] == merged[..k];
        blocks := blocks + merged[k].blocks;
      }
      assert merged[..|merged|] == merged;
    }

    /** A section over the target is cut by the window. */
    method AddLong(section: Section)
      requires Valid() && next < |sections| && section == sections[next] && Tokens(section.blocks) > chunker.target
      modifies this
      ensures Valid() && next == old(next) + 1 && buffer == [] && plan != [] && plan[|plan| - 1].Split?
    {
      hide JoinUnits;
      hide MergedBody;
      FlushBuffer();
      var drafted;
      ghost var piece;
      drafted, piece := CutSection(section, next);
      LongKeeps(chunker, sections, plan, bodies, next, piece, plan + [piece], bodies + drafted);
      bodies, plan, lo, next := bodies + drafted, plan + [piece], next + 1, next + 1;
    }

    method CutSection(section: Section, ghost at: nat) returns (drafted: seq<Body>, ghost piece: Piece)
      requires at < |sections| && section == sections[at] && Tokens(section.blocks) > chunker.target
      ensures piece.Split? && piece.long == at && IsPiece(chunker, sections, piece)
      ensures drafted == PieceBodies(chunker, sections, piece)
    {
      var windows := Windows(chunker.units(section), chunker.target, chunker.overlap, chunker.max);
      ghost var cuts :| IsCutting(chunker.units(section), chunker.target, chunker.overlap, chunker.max, cuts)
                        && windows == Slices(chunker.units(section), cuts);
      drafted := DraftWindows(section, windows);
      piece := Split(at, cuts);
    }

    method LayOut(units: seq<Block>) returns (content: string)
      ensures content == JoinUnits(units)
    {
      var parts: seq<string> := [];
      for k := 0 to |units|
        invariant parts == UnitParts(units[..k])
      {
        assert units[..k + 1][..k] == units[..k];
        if IsTable(units[k].text) {
          parts := parts + ["\n\n" + units[k].text + "\n\n"];
        } else {
          parts := parts + [units[k].text + " "];
        }
      }
      assert units[..|units|] == units;
      content := Strip(Concat(parts));
    }

    method DraftWindows(section: Section, windows: seq<seq<Block>>) returns (drafted: seq<Body>)
      ensures drafted == WindowBodies(chunker, section, windows)
    {
      drafted := [];
      for k := 0 to |windows|
        invariant drafted == WindowBodies(chunker, section, windows[..k])
      {
        assert windows[..k + 1][..k] == windows[..k];
        var content := LayOut(windows[k]);
        drafted := drafted
          + [Body(content, chunker.count(content), PageSpan(windows[k]), section.path, section.access)];
      }
      assert windows[..|windows|] == windows;
    }

    /** A short section joins the buffer, which is flushed first when it cannot take it. */
    method AddShort(section: Section)
      requires Valid() && next < |sections| && section == sections[next] && Tokens(section.blocks) <= chunker.target
      requires buffer == [] ==> plan == [] || plan[|plan| - 1].Split?
      modifies this
      ensures Valid() && next == old(next) + 1 && buffer != []
    {
      if buffer != [] && (buffer[0].access != section.access
                          || SectionTokens(buffer) + Tokens(section.blocks) > chunker.target) {
        ghost var full := Merged(lo, next);
        FlushBuffer();
        assert plan[|plan| - 1] == full;
        assert Apart(chunker, sections, full, section);
      }
      Buffer(section);
    }

    method Buffer(section: Section)
      requires Valid() && next < |sections| && section == sections[next] && Tokens(section.blocks) <= chunker.target
      requires buffer != [] ==>
        section.access == buffer[0].access
        && SectionTokens(buffer) + Tokens(section.blocks) <= chunker.target
      requires buffer == [] && plan != [] ==> Apart(chunker, sections, plan[|plan| - 1], section)
      modifies this`buffer, this`next
      ensures Valid() && next == old(next) + 1 && buffer != []
    {
      ShortKeeps(chunker, sections, plan, bodies, lo, next, buffer, section, buffer + [section]);
      buffer, next := buffer + [section], next + 1;
    }
  }

  method ChunkDocument(c: Chunker, sections: seq<Section>) returns (drafts: seq<ChunkDraft>)
    ensures exists plan :: IsPlan(c, sections, plan) && PlanEnd(plan) == |sections|
              && drafts == Numbered(PlanBodies(c, sections, plan))
  {
    var list := new DraftList(c, sections);
    for i := 0 to |sections|
      invariant fresh(list) && list.Valid() && list.next == i && list.chunker == c && list.sections == sections
      invariant list.buffer == [] ==> list.plan == [] || list.plan[|list.plan| - 1].Split?
    {
      if Tokens(sections[i].blocks) > c.target {
        list.AddLong(sections[i]);
      } else {
        list.AddShort(sections[i]);
      }
    }
    list.FlushBuffer();
    drafts := Number(list.bodies);
  }

  method Number(bodies: seq<Body>) returns (drafts: seq<ChunkDraft>)
    ensures drafts == Numbered(bodies)
  {
    drafts := [];
    for i := 0 to |bodies|
      invariant drafts == Numbered(bodies[..i])
    {
      assert bodies[..i + 1][..i] == bodies[..i];
      BlankStrips(bodies[i].content);
      if Strip(bodies[i].content) != "" {
        drafts := drafts + [ChunkDraft(i, bodies[i])];
      }
    }
    assert bodies[..|bodies|] == bodies;
  }

  // ---- what a plan means -------------------------------------------------------------------------

  lemma {:induction false} WindowBodiesLabelled(c: Chunker, section: Section, windows: seq<seq<Block>>, k: nat)
    requires k < |WindowBodies(c, section, windows)|
    ensures WindowBodies(c, section, windows)[k].access == section.access
    ensures |WindowBodies(c, section, windows)| == |windows|
  {
    if windows != [] && k < |WindowBodies(c, section, windows[..|windows| - 1])| {
      WindowBodiesLabelled(c, section, windows[..|windows| - 1], k);
    } else if |windows| > 1 {
      WindowBodiesLength(c, section, windows);
    }
  }

  lemma {:induction false} WindowBodiesLength(c: Chunker, section: Section, windows: seq<seq<Block>>)
    ensures |WindowBodies(c, section, windows)| == |windows|
  {
    if windows != [] {
      WindowBodiesLength(c, section, windows[..|windows| - 1]);
    }
  }

  /** Every chunk comes from one piece of the document, and every section in that piece has the
      chunk's access label: restricted text never rides along in an open chunk. */
  lemma {:induction false} OneLabelPerChunk(c: Chunker, sections: seq<Section>, plan: seq<Piece>, k: nat)
    returns (p: nat)
    requires IsPlan(c, sections, plan) && k < |PlanBodies(c, sections, plan)|
    ensures p < |plan| && PlanBodies(c, sections, plan)[k] in PieceBodies(c, sections, plan[p])
    ensures End(plan[p]) <= |sections|
    ensures forall s ::
      Start(plan[p]) <= s < End(plan[p])
      ==> sections[s].access == PlanBodies(c, sections, plan)[k].access
  {
    hide PieceBodies, IsPiece, Apart, Start;
    var n := |plan| - 1;
    var earlier, piece := plan[..n], plan[n];
    var before, bodies := PlanBodies(c, sections, earlier), PieceBodies(c, sections, piece);
    assert PlanBodies(c, sections, plan) == before + bodies;
    if k < |before| {
      p := OneLabelPerChunk(c, sections, earlier, k);
    } else {
      p := n;
      assert IsPiece(c, sections, piece);
      PieceLabelled(c, sections, piece, k - |before|, bodies);
    }
  }

  lemma {:induction false} PieceLabelled(c: Chunker, sections: seq<Section>, piece: Piece, k: nat, bodies: seq<Body>)
    requires IsPiece(c, sections, piece) && bodies == PieceBodies(c, sections, piece) && k < |bodies|
    ensures End(piece) <= |sections|
    ensures forall s :: Start(piece) <= s < End(piece) ==> sections[s].access == bodies[k].access
  {
    hide JoinUnits;
    hide MergedBody;
    hide Join;
    match piece
    case Merged(lo, hi) => MergedLabelled(c, sections, lo, hi);
    case Split(long, cuts) =>
      var section := sections[long];
      WindowBodiesLabelled(c, section, Slices(c.units(section), cuts), k);
  }

  lemma {:induction false} MergedLabelled(c: Chunker, sections: seq<Section>, lo: nat, hi: nat)
    requires lo < hi <= |sections| && Together(c, sections, lo, hi)
    ensures forall s :: lo <= s < hi ==> sections[s].access == MergedBody(c, sections[lo..hi]).access
  {
    assert sections[lo..hi][0] == sections[lo];
  }

  lemma {:induction false} SectionTokensGrow(sections: seq<Section>, lo: nat, mid: nat, hi: nat)
    requires lo <= mid < hi <= |sections|
    ensures SectionTokens(sections[lo..mid]) + Tokens(sections[mid].blocks) <= SectionTokens(sections[lo..hi])
    decreases hi - mid
  {
    var all := sections[lo..hi];
    assert all[..hi - 1 - lo] == sections[lo..hi - 1] && all[hi - 1 - lo] == sections[hi - 1];
    if mid < hi - 1 {
      SectionTokensGrow(sections, lo, mid, hi - 1);
    }
  }

  /** What the plan says of its k-th piece. */
  lemma {:induction false} PlanAt(c: Chunker, sections: seq<Section>, plan: seq<Piece>, k: nat)
    requires IsPlan(c, sections, plan) && k < |plan|
    ensures IsPiece(c, sections, plan[k]) && Start(plan[k]) == PlanEnd(plan[..k])
    ensures k > 0 && plan[k].Merged? ==> Apart(c, sections, plan[k - 1], sections[plan[k].lo])
  {
    if k < |plan| - 1 {
      PlanAt(c, sections, plan[..|plan| - 1], k);
      assert plan[..|plan| - 1][..k] == plan[..k];
    }
  }

  lemma {:induction false} NextPiece(c: Chunker, sections: seq<Section>, a: seq<Piece>, k: nat, lo: nat, hi: nat)
    requires IsPlan(c, sections, a) && PlanEnd(a) == |sections| && k < |a| && a[k] == Merged(lo, hi)
    ensures lo < hi <= |sections| && Together(c, sections, lo, hi)
    ensures hi < |sections| && Tokens(sections[hi].blocks) <= c.target ==> Apart(c, sections, a[k], sections[hi])
  {
    hide IsPlan, IsCutting, Together, Apart;
    PlanAt(c, sections, a, k);
    if k < |a| - 1 {
      PlanAt(c, sections, a, k + 1);
      assert a[..k + 1][k] == a[k];
    } else {
      assert PlanEnd(a) == hi;
    }
  }

  /** A merged piece takes every section it can. */
  lemma {:induction false} NoWider(c: Chunker, sections: seq<Section>, a: seq<Piece>, k: nat, lo: nat, hi: nat,
                                   hi': nat)
    requires IsPlan(c, sections, a) && PlanEnd(a) == |sections| && k < |a|
    requires a[k] == Merged(lo, hi) && lo < hi' <= |sections| && Together(c, sections, lo, hi')
    ensures hi' <= hi
  {
    hide IsPlan;
    NextPiece(c, sections, a, k, lo, hi);
    if hi < hi' {
      SectionTokensGrow(sections, lo, hi, hi');
    }
  }

  lemma {:induction false} SamePiece(c: Chunker, sections: seq<Section>, a: seq<Piece>, b: seq<Piece>, k: nat)
    requires IsPlan(c, sections, a) && IsPlan(c, sections, b)
    requires PlanEnd(a) == |sections| && PlanEnd(b) == |sections|
    requires k < |a| && k < |b| && a[..k] == b[..k]
    ensures a[k] == b[k]
  {
    hide IsPlan, IsCutting;
    PlanAt(c, sections, a, k);
    PlanAt(c, sections, b, k);
    match (a[k], b[k])
    case (Merged(lo, hi), Merged(lo', hi')) =>
      NoWider(c, sections, a, k, lo, hi, hi');
      NoWider(c, sections, b, k, lo, hi', hi);
    case (Split(long, cuts), Split(long', cuts')) =>
      CuttingUnique(c.units(sections[long]), c.target, c.overlap, c.max, cuts, cuts');
    case (Merged(lo, hi), Split(long, cuts)) =>
    case (Split(long, cuts), Merged(lo, hi)) =>
  }

  lemma {:induction false} SamePrefix(c: Chunker, sections: seq<Section>, a: seq<Piece>, b: seq<Piece>, k: nat)
    requires IsPlan(c, sections, a) && IsPlan(c, sections, b)
    requires PlanEnd(a) == |sections| && PlanEnd(b) == |sections|
    requires k <= |a| && k <= |b|
    ensures a[..k] == b[..k]
  {
    hide *;
    if k > 0 {
      SamePrefix(c, sections, a, b, k - 1);
      SamePiece(c, sections, a, b, k - 1);
      assert a[..k] == a[..k - 1] + [a[k - 1]] && b[..k] == b[..k - 1] + [b[k - 1]];
    }
  }

  lemma {:induction false} PlanGoesOn(c: Chunker, sections: seq<Section>, plan: seq<Piece>, k: nat)
    requires IsPlan(c, sections, plan) && k < |plan|
    ensures PlanEnd(plan[..k]) < |sections|
  {
    hide IsPlan, Together, IsCutting, PlanEnd;
    PlanAt(c, sections, plan, k);
  }

  lemma {:induction false} NoShorter(c: Chunker, sections: seq<Section>, a: seq<Piece>, b: seq<Piece>)
    requires IsPlan(c, sections, a) && IsPlan(c, sections, b)
    requires PlanEnd(a) == |sections| && PlanEnd(b) == |sections|
    ensures |b| <= |a|
  {
    hide *;
    if |a| < |b| {
      SamePrefix(c, sections, a, b, |a|);
      assert a[..|a|] == a;
      PlanGoesOn(c, sections, b, |a|);
    }
  }

  /** The sections determine the plan, and so the chunks. */
  lemma {:induction false} PlanUnique(c: Chunker, sections: seq<Section>, a: seq<Piece>, b: seq<Piece>)
    requires IsPlan(c, sections, a) && IsPlan(c, sections, b)
    requires PlanEnd(a) == |sections| && PlanEnd(b) == |sections|
    ensures a == b
  {
    hide *;
    NoShorter(c, sections, a, b);
    NoShorter(c, sections, b, a);
    SamePrefix(c, sections, a, b, |a|);
    assert a[..|a|] == a && b[..|b|] == b;
  }

  /** What a section contributes: its blocks, or its units when it is too long for one chunk. */
  function SectionUnits(c: Chunker, section: Section): seq<Block> {
    if Tokens(section.blocks) > c.target then c.units(section) else section.blocks
  }

  function AllUnits(c: Chunker, sections: seq<Section>): seq<Block> {
    if sections == [] then [] else AllUnits(c, sections[..|sections| - 1]) + SectionUnits(c, sections[|sections| - 1])
  }

  /** A piece's text without the overlap its windows repeat. */
  function PieceUnits(c: Chunker, sections: seq<Section>, piece: Piece): seq<Block> {
    match piece
    case Merged(lo, hi) => if lo <= hi <= |sections| then AllBlocks(sections[lo..hi]) else []
    case Split(long, cuts) => if long < |sections| then FreshUnits(c.units(sections[long]), cuts, |cuts|) else []
  }

  function PlanUnits(c: Chunker, sections: seq<Section>, plan: seq<Piece>): seq<Block> {
    if plan == [] then [] else PlanUnits(c, sections, plan[..|plan| - 1]) + PieceUnits(c, sections, plan[|plan| - 1])
  }

  lemma {:induction false} AllUnitsConcat(c: Chunker, a: seq<Section>, b: seq<Section>)
    ensures AllUnits(c, a + b) == AllUnits(c, a) + AllUnits(c, b)
  {
    if b == [] {
      assert a + b == a;
    } else {
      assert (a + b)[..|a + b| - 1] == a + b[..|b| - 1];
      AllUnitsConcat(c, a, b[..|b| - 1]);
    }
  }

  lemma {:induction false} ShortUnits(c: Chunker, sections: seq<Section>)
    requires forall k :: 0 <= k < |sections| ==> Tokens(sections[k].blocks) <= c.target
    ensures AllUnits(c, sections) == AllBlocks(sections)
  {
    if sections != [] {
      ShortUnits(c, sections[..|sections| - 1]);
    }
  }

  lemma {:induction false} PieceUnitsAre(c: Chunker, sections: seq<Section>, piece: Piece)
    requires IsPiece(c, sections, piece)
    ensures End(piece) <= |sections| && PieceUnits(c, sections, piece)
      == AllUnits(c, sections[Start(piece)..End(piece)])
  {
    match piece
    case Merged(lo, hi) => ShortUnits(c, sections[lo..hi]);
    case Split(long, cuts) =>
      FreshUnitsRebuild(c.units(sections[long]), c.target, c.overlap, c.max, cuts);
      assert sections[long..long + 1][..0] == [];
  }

  /** With the carried overlaps taken out, the pieces of a plan are the sections' units from
      first to last. */
  lemma {:induction false} PiecesConserve(c: Chunker, sections: seq<Section>, plan: seq<Piece>)
    requires IsPlan(c, sections, plan)
    ensures PlanEnd(plan) <= |sections| && PlanUnits(c, sections, plan) == AllUnits(c, sections[..PlanEnd(plan)])
  {
    if plan != [] {
      var n := |plan| - 1;
      PiecesConserve(c, sections, plan[..n]);
      ConserveStep(c, sections, plan[n], Start(plan[n]), End(plan[n]));
    }
  }

  lemma {:induction false} ConserveStep(c: Chunker, sections: seq<Section>, piece: Piece, lo: nat, hi: nat)
    requires IsPiece(c, sections, piece) && lo == Start(piece) && hi == End(piece)
    ensures lo <= hi <= |sections|
    ensures AllUnits(c, sections[..hi]) == AllUnits(c, sections[..lo]) + PieceUnits(c, sections, piece)
  {
    hide Together, IsCutting;
    PieceUnitsAre(c, sections, piece);
    AllUnitsConcat(c, sections[..lo], sections[lo..hi]);
    assert sections[..lo] + sections[lo..hi] == sections[..hi];
  }

  /** Chunk indexes strictly increase, so no document offers a duplicate to the unique
      constraint on (document, index); and no blank chunk is left. */
  lemma {:induction false} IndexesIncrease(bodies: seq<Body>)
    ensures var drafts := Numbered(bodies);
            && (forall i :: 0 <= i < |drafts| ==>
                drafts[i].index < |bodies|
                && drafts[i].body == bodies[drafts[i].index]
                && !IsBlank(drafts[i].body.content))
            && (forall i, j :: 0 <= i < j < |drafts| ==> drafts[i].index < drafts[j].index)
            && (forall n :: 0 <= n < |bodies| && !IsBlank(bodies[n].content) ==> ChunkDraft(n, bodies[n]) in drafts)
  {
    if bodies != [] {
      IndexesIncrease(bodies[..|bodies| - 1]);
    }
  }

  // ---- oversized tables ---------------------------------------------------------------------------

  function TableText(header: seq<string>, rows: seq<string>): string {
    Join(header + rows, "\n")
  }

  function TablePieces(count: string -> nat, page: Option<int>, header: seq<string>,
                       groups: seq<seq<string>>): seq<Block> {
    if groups == [] then []
    else
      var text := TableText(header, groups[|groups| - 1]);
      TablePieces(count, page, header, groups[..|groups| - 1]) + [Block(text, page, count(text))]
  }

  /** A group of rows fits with the header unless it is a single row. */
  ghost predicate GroupFits(count: string -> nat, max: nat, header: seq<string>, group: seq<string>) {
    group != [] && (|group| > 1 ==> count(TableText(header, group)) <= max)
  }

  /** The groups closed so far; each was closed because the next row did not fit. */
  ghost predicate GroupsClosed(count: string -> nat, max: nat, header: seq<string>, groups: seq<seq<string>>,
                               next: seq<string>) {
    groups == [] ||
    (var n := |groups| - 1;
     && GroupsClosed(count, max, header, groups[..n], groups[n])
     && GroupFits(count, max, header, groups[n])
     && (next != [] ==> count(TableText(header, groups[n] + [next[0]])) > max))
  }

  lemma {:induction false} GroupCloses(count: string -> nat, max: nat, page: Option<int>, header: seq<string>,
                                       groups: seq<seq<string>>,
                    bucket: seq<string>, next: seq<string>, groups': seq<seq<string>>)
    requires GroupsClosed(count, max, header, groups, bucket) && GroupFits(count, max, header, bucket)
    requires next != [] ==> count(TableText(header, bucket + [next[0]])) > max
    requires groups' == groups + [bucket]
    ensures GroupsClosed(count, max, header, groups', next) && Concat(groups') == Concat(groups) + bucket
    ensures TablePieces(count, page, header, groups')
         == TablePieces(count, page, header, groups)
           + [Block(TableText(header, bucket), page, count(TableText(header, bucket)))]
  {
    assert groups'[..|groups|] == groups;
  }

  lemma {:induction false} GroupsKeepNext(count: string -> nat, max: nat, header: seq<string>, groups: seq<seq<string>>,
                                          bucket: seq<string>, row: string)
    requires GroupsClosed(count, max, header, groups, bucket) && bucket != []
    ensures GroupsClosed(count, max, header, groups, bucket + [row])
  {
  }

  /** The loop state: groups closed so far and the bucket being filled. */
  datatype Grouping = Grouping(groups: seq<seq<string>>, bucket: seq<string>)

  predicate Overflows(count: string -> nat, max: nat, header: seq<string>, bucket: seq<string>, row: string) {
    bucket != [] && count(TableText(header, bucket + [row])) > max
  }

  function Grouped(count: string -> nat, max: nat, header: seq<string>, rows: seq<string>): Grouping {
    if rows == [] then Grouping([], [])
    else
      var before, row := Grouped(count, max, header, rows[..|rows| - 1]), rows[|rows| - 1];
      if Overflows(count, max, header, before.bucket, row) then Grouping(before.groups + [before.bucket], [row])
      else Grouping(before.groups, before.bucket + [row])
  }

  ghost predicate GroupingOk(count: string -> nat, max: nat, header: seq<string>, rows: seq<string>, g: Grouping) {
    && Concat(g.groups) + g.bucket == rows && (g.bucket == [] <==> rows == [])
    && (g.bucket != [] ==> GroupFits(count, max, header, g.bucket))
    && GroupsClosed(count, max, header, g.groups, g.bucket)
  }

  lemma {:induction false} GroupedIsOk(count: string -> nat, max: nat, header: seq<string>, rows: seq<string>)
    ensures GroupingOk(count, max, header, rows, Grouped(count, max, header, rows))
  {
    if rows != [] {
      var earlier, row := rows[..|rows| - 1], rows[|rows| - 1];
      GroupedIsOk(count, max, header, earlier);
      var before := Grouped(count, max, header, earlier);
      assert rows == earlier + [row];
      if Overflows(count, max, header, before.bucket, row) {
        GroupCloses(count, max, None, header, before.groups, before.bucket, [row], before.groups + [before.bucket]);
      } else {
        RowJoins(Concat(before.groups), before.bucket, row, earlier);
        if before.bucket != [] {
          GroupsKeepNext(count, max, header, before.groups, before.bucket, row);
        } else {
          assert before.groups == [] by {
            assert earlier == [] && Grouped(count, max, header, []) == Grouping([], []);
          }
        }
      }
    }
  }

  lemma {:induction false} RowJoins(done: seq<string>, bucket: seq<string>, row: string, read: seq<string>)
    requires done + bucket == read
    ensures done + (bucket + [row]) == read + [row]
  {
  }

  /** The rest of the bucket makes the last piece. */
  function Groups(g: Grouping): seq<seq<string>> {
    if g.bucket == [] then g.groups else g.groups + [g.bucket]
  }

  lemma {:induction false} GroupsAreAll(count: string -> nat, max: nat, header: seq<string>, rows: seq<string>)
    ensures var groups := Groups(Grouped(count, max, header, rows));
            Concat(groups) == rows && GroupsClosed(count, max, header, groups, [])
  {
    GroupedIsOk(count, max, header, rows);
    var g := Grouped(count, max, header, rows);
    if g.bucket != [] {
      GroupCloses(count, max, None, header, g.groups, g.bucket, [], g.groups + [g.bucket]);
    } else {
      assert rows == [] && Concat(g.groups) + [] == Concat(g.groups);
      assert Grouped(count, max, header, []) == Grouping([], []);
    }
  }

  lemma {:induction false} PieceAdds(count: string -> nat, page: Option<int>, header: seq<string>,
                                     groups: seq<seq<string>>, group: seq<string>)
    ensures TablePieces(count, page, header, groups + [group])
         == TablePieces(count, page, header, groups)
           + [Block(TableText(header, group), page, count(TableText(header, group)))]
  {
    assert (groups + [group])[..|groups|] == groups;
  }

  /** An oversized table is split by rows with the header in every piece: the rows come back
      exactly, in order; a piece exceeds the cap only when it is a single row; and a piece ends
      only where the next row did not fit. */
  method SplitTable(count: string -> nat, max: nat, page: Option<int>, lines: seq<string>, whole: Block)
    returns (pieces: seq<Block>)
    ensures |lines| < 3 ==> pieces == [whole]
    ensures |lines| >= 3 ==>
      exists groups :: pieces == TablePieces(count, page, lines[..2], groups) && Concat(groups) == lines[2..]
                       && GroupsClosed(count, max, lines[..2], groups, [])
  {
    if |lines| < 3 {
      return [whole];
    }
    var header, rows := lines[..2], lines[2..];
    pieces := [];
    ghost var g := Grouping([], []);
    var bucket: seq<string> := [];
    for k := 0 to |rows|
      invariant g == Grouped(count, max, header, rows[..k]) && bucket == g.bucket
      invariant pieces == TablePieces(count, page, header, g.groups)
    {
      var row := rows[k];
      assert rows[..k + 1][..k] == rows[..k];
      var candidate := Join(header + (bucket + [row]), "\n");
      if bucket != [] && count(candidate) > max {
        var text := Join(header + bucket, "\n");
        PieceAdds(count, page, header, g.groups, bucket);
        pieces := pieces + [Block(text, page, count(text))];
        bucket := [];
      }
      bucket := bucket + [row];
      g := Grouped(count, max, header, rows[..k + 1]);
    }
    assert rows[..|rows|] == rows;
    if bucket != [] {
      var text := Join(header + bucket, "\n");
      PieceAdds(count, page, header, g.groups, bucket);
      pieces := pieces + [Block(text, page, count(text))];
    }
    GroupsAreAll(count, max, header, rows);
    assert pieces == TablePieces(count, page, header, Groups(g));
  }
}
