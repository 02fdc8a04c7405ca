/**
 * What the decorated document walk of panelcode/render.py guarantees: the
 * panels of every layout are numbered 1, 2, 3, ... afresh, every level
 * opens and closes as many divs as pobj_counts counts, every layout with a
 * `url` is wrapped in exactly one link, and the layout counter gives each
 * layout its position in the gallery.
 */
module GalleryLaws {
  import opened Wrappers
  import opened Text
  import opened Options
  import opened Grammar
  import opened Grid
  import opened Numbering
  import opened Counts
  import opened GridRender
  import opened Decorations
  import opened GalleryRender

  // ---------------------------------------------------------------- joining results

  /** A joined result that is Ok came from two Ok parts. */
  lemma {:induction false} CatOk(r: Lines, p: Lines, rest: Lines)
    requires r == Cat(p, rest) && r.Ok?
    ensures p.Ok? && rest.Ok? && r.value == p.value + rest.value
  {
  }

  lemma {:induction false} CatAssoc(p: Lines, q: Lines, r: Lines)
    ensures Cat(Cat(p, q), r) == Cat(p, Cat(q, r))
  {
    if p.Ok? && q.Ok? && r.Ok? {
      assert (p.value + q.value) + r.value == p.value + (q.value + r.value);
    }
  }

  lemma {:induction false} CatNil(p: Lines)
    ensures Cat(Ok([]), p) == p
  {
    ThenNil(p);
  }

  // ---------------------------------------------------------------- decoration lines

  /** Lines that only decorate: image blocks, captions and the link around a layout. */
  predicate Plain(lines: seq<Line>) {
    forall i :: 0 <= i < |lines| ==> lines[i].Raw? || lines[i].Caption? || lines[i].AnchorOpen? || lines[i].AnchorClose?
  }

  /** Decoration lines carry no panel numbers and open or close no div. */
  lemma {:induction false} PlainLines(lines: seq<Line>)
    requires Plain(lines)
    ensures forall i :: 0 <= i < |lines| ==> !lines[i].Panel?
    ensures NoDivs(lines)
  {
  }

  lemma {:induction false} HeadPlain(img: ImgBlocks, url: Option<string>)
    ensures Plain(LayoutHead(img, url))
  {
  }

  lemma {:induction false} TailPlain(img: ImgBlocks, url: Option<string>)
    ensures Plain(LayoutTail(img, url))
  {
  }

  lemma {:induction false} InnerPlain(img: ImgBlocks, caption: seq<Line>)
    requires forall i :: 0 <= i < |caption| ==> caption[i].Caption?
    ensures Plain(LayoutInner(img, caption))
  {
  }

  /** The three decoration parts of a layout that renders: head, inner part and tail. */
  lemma {:induction false} LayoutParts(ctx: Context, layout: Layout, n: int)
    requires LayoutHtml(ctx, layout, n).Ok?
    ensures var lo := OptsOf(layout.opts);
      var img := LayoutImg(ctx, lo);
      var url := Lookup(KvExprsOf(lo), "url");
      LayoutGroups(ctx, lo, layout.groups).Ok? &&
      Plain(LayoutHead(img, url)) && Plain(LayoutTail(img, url)) &&
      Plain(LayoutInner(img, LayoutCaption(KvExprsOf(lo), LabelScan(ctx, lo), n))) &&
      LayoutHtml(ctx, layout, n).value ==
        Decorated(LayoutHead(img, url), RenderDefault(lo), LayoutGroups(ctx, lo, layout.groups).value.0,
                  LayoutInner(img, LayoutCaption(KvExprsOf(lo), LabelScan(ctx, lo), n)), LayoutTail(img, url))
  {
    var lo := OptsOf(layout.opts);
    var img := LayoutImg(ctx, lo);
    var url := Lookup(KvExprsOf(lo), "url");
    HeadPlain(img, url);
    TailPlain(img, url);
    CaptionPresence(KvExprsOf(lo), LabelScan(ctx, lo), n);
    InnerPlain(img, LayoutCaption(KvExprsOf(lo), LabelScan(ctx, lo), n));
  }

  // ---------------------------------------------------------------- numbering per layout

  /** Lines without numbers after a run of panels leave its numbering as it is. */
  lemma {:induction false} SuffixNumbers(body: (seq<Line>, Counters), post: seq<Line>, c: Counters)
    requires Numbers(post) == [] && Continues(body, c)
    ensures Continues((body.0 + post, body.1), c)
  {
    NumbersAppend(body.0, post);
    assert Numbers(body.0) + [] == Numbers(body.0);
  }

  /** The layout div between its decorations holds the numbers of its panelgroups and no others. */
  lemma {:induction false} DecoratedNumbers(lines: seq<Line>, head: seq<Line>, cls: string, body: (seq<Line>, Counters),
                         inner: seq<Line>, tail: seq<Line>, c: Counters)
    requires lines == Decorated(head, cls, body.0, inner, tail)
    requires Plain(head) && Plain(inner) && Plain(tail)
    requires Continues(body, c)
    ensures Continues((lines, body.1), c)
  {
    PlainLines(head);
    PlainLines(inner);
    PlainLines(tail);
    NumbersOfNoPanels(head);
    NumbersOfNoPanels(inner);
    NumbersOfNoPanels(tail);
    SuffixNumbers(body, inner, c);
    WrapNumbers(Open(LayoutDiv, cls), (body.0 + inner, body.1), Close(LayoutDiv), c);
    var mid := [Open(LayoutDiv, cls)] + (body.0 + inner) + [Close(LayoutDiv)];
    PrefixNumbers(head, (mid, body.1), c);
    SuffixNumbers((head + mid, body.1), tail, c);
  }

  /** The panels of a decorated layout continue the count of its panelgroups, which starts at zero. */
  lemma {:induction false} LayoutHtmlContinues(ctx: Context, layout: Layout, n: int)
    requires LayoutHtml(ctx, layout, n).Ok?
    ensures LayoutGroups(ctx, OptsOf(layout.opts), layout.groups).Ok?
    ensures Continues((LayoutHtml(ctx, layout, n).value, LayoutGroups(ctx, OptsOf(layout.opts), layout.groups).value.1),
                      Counters(0, 0))
  {
    LayoutParts(ctx, layout, n);
    var lo := OptsOf(layout.opts);
    var img := LayoutImg(ctx, lo);
    var url := Lookup(KvExprsOf(lo), "url");
    GroupsNumbers([ctx.pcode, ctx.gallery, ctx.spread, lo], layout.groups, Counters(0, 0));
    DecoratedNumbers(LayoutHtml(ctx, layout, n).value, LayoutHead(img, url), RenderDefault(lo),
                     LayoutGroups(ctx, lo, layout.groups).value,
                     LayoutInner(img, LayoutCaption(KvExprsOf(lo), LabelScan(ctx, lo), n)), LayoutTail(img, url),
                     Counters(0, 0));
  }

  /**
   * Image blocks, links and labels add no panels: the numbered panels of a
   * decorated layout are labelled 1, 2, 3, ... in order, whatever its
   * place in the gallery.
   */
  lemma {:induction false} LayoutHtmlNumbering(ctx: Context, layout: Layout, n: int)
    requires LayoutHtml(ctx, layout, n).Ok?
    ensures forall i :: 0 <= i < |Numbers(LayoutHtml(ctx, layout, n).value)| ==>
      Numbers(LayoutHtml(ctx, layout, n).value)[i] == i + 1
  {
    LayoutHtmlContinues(ctx, layout, n);
    FromZero((LayoutHtml(ctx, layout, n).value, LayoutGroups(ctx, OptsOf(layout.opts), layout.groups).value.1),
             Counters(0, 0));
  }

  // ---------------------------------------------------------------- divs per level

  /** The decorations of a layout add no divs to its layout div and panelgroups. */
  lemma {:induction false} DecoratedDivs(lines: seq<Line>, head: seq<Line>, cls: string, groups: seq<Line>,
                      inner: seq<Line>, tail: seq<Line>, s: Stats, opening: bool)
    requires lines == Decorated(head, cls, groups, inner, tail)
    requires Plain(head) && Plain(inner) && Plain(tail) && Divs(groups, opening) == s
    ensures Divs(lines, opening) == Plus(KindDiv(LayoutDiv), s)
  {
    PlainLines(head);
    PlainLines(inner);
    PlainLines(tail);
    DivsTrailing(groups, inner, opening);
    var mid := [Open(LayoutDiv, cls)] + (groups + inner) + [Close(LayoutDiv)];
    WrapLevel(mid, LayoutDiv, cls, groups + inner, s, opening);
    DivsAround(head, mid, tail, opening);
  }

  /** A decorated layout holds one layout div and one div per panelgroup. */
  lemma {:induction false} LayoutHtmlDivs(ctx: Context, layout: Layout, n: int, opening: bool)
    requires LayoutHtml(ctx, layout, n).Ok?
    ensures Divs(LayoutHtml(ctx, layout, n).value, opening) == LayoutStats(layout)
  {
    LayoutParts(ctx, layout, n);
    var lo := OptsOf(layout.opts);
    var img := LayoutImg(ctx, lo);
    var url := Lookup(KvExprsOf(lo), "url");
    GroupsDivs([ctx.pcode, ctx.gallery, ctx.spread, lo], layout.groups, Counters(0, 0), opening);
    DecoratedDivs(LayoutHtml(ctx, layout, n).value, LayoutHead(img, url), RenderDefault(lo),
                  LayoutGroups(ctx, lo, layout.groups).value.0,
                  LayoutInner(img, LayoutCaption(KvExprsOf(lo), LabelScan(ctx, lo), n)), LayoutTail(img, url),
                  Stats(0, 0, 0, |layout.groups|), opening);
  }

  lemma {:induction false} LayoutsHtmlDivs(ctx: Context, layouts: seq<Layout>, n: int, opening: bool)
    requires LayoutsHtml(ctx, layouts, n).Ok?
    ensures Divs(LayoutsHtml(ctx, layouts, n).value, opening) == LayoutsStats(layouts)
    decreases |layouts|
  {
    if |layouts| == 0 {
      assert Divs([], opening) == Zero;
    } else {
      var p := LayoutHtml(ctx, layouts[0], n + 1);
      var rest := LayoutsHtml(ctx, layouts[1..], n + 1);
      CatOk(LayoutsHtml(ctx, layouts, n), p, rest);
      LayoutHtmlDivs(ctx, layouts[0], n + 1, opening);
      LayoutsHtmlDivs(ctx, layouts[1..], n + 1, opening);
      DivsAppend(p.value, rest.value, opening);
    }
  }

  /** A rendered spread holds one spread div and the divs of its layouts. */
  lemma {:induction false} SpreadHtmlDivs(ctx: Context, spread: Spread, n: int, opening: bool)
    requires SpreadHtml(ctx, spread, n).Ok?
    ensures Divs(SpreadHtml(ctx, spread, n).value, opening) == SpreadStats(spread)
  {
    var so := OptsOf(spread.opts);
    var body := LayoutsHtml(ctx.(spread := so), spread.layouts, n);
    LayoutsHtmlDivs(ctx.(spread := so), spread.layouts, n, opening);
    WrapLevel(SpreadHtml(ctx, spread, n).value, SpreadDiv, RenderDefault(so), body.value, LayoutsStats(spread.layouts), opening);
  }

  lemma {:induction false} SpreadsHtmlDivs(ctx: Context, spreads: seq<Spread>, n: int, opening: bool)
    requires SpreadsHtml(ctx, spreads, n).Ok?
    ensures Divs(SpreadsHtml(ctx, spreads, n).value, opening) == SpreadsStats(spreads)
    decreases |spreads|
  {
    if |spreads| == 0 {
      assert Divs([], opening) == Zero;
    } else {
      var p := SpreadHtml(ctx, spreads[0], n);
      var rest := SpreadsHtml(ctx, spreads[1..], After(n, spreads[0]));
      CatOk(SpreadsHtml(ctx, spreads, n), p, rest);
      SpreadHtmlDivs(ctx, spreads[0], n, opening);
      SpreadsHtmlDivs(ctx, spreads[1..], After(n, spreads[0]), opening);
      DivsAppend(p.value, rest.value, opening);
    }
  }

  /** A rendered gallery holds one gallery div and the divs of its spreads. */
  lemma {:induction false} GalleryHtmlDivs(global: seq<OptToken>, pcode: seq<OptToken>, gallery: Gallery, opening: bool)
    requires GalleryHtml(global, pcode, gallery).Ok?
    ensures Divs(GalleryHtml(global, pcode, gallery).value, opening) == GalleryStats(gallery)
  {
    var go := OptsOf(gallery.opts);
    var ctx := Context(global, pcode, go, [Bare("")], ImgPathOf(KvExprsOf(go), KvExprsOf(global)));
    SpreadsHtmlDivs(ctx, gallery.spreads, 0, opening);
    WrapLevel(GalleryHtml(global, pcode, gallery).value, GalleryDiv, RenderDefault(global) + " " + RenderDefault(go),
              SpreadsHtml(ctx, gallery.spreads, 0).value, SpreadsStats(gallery.spreads), opening);
  }

  lemma {:induction false} GalleriesHtmlDivs(global: seq<OptToken>, pcode: seq<OptToken>, galleries: seq<Gallery>, opening: bool)
    requires GalleriesHtml(global, pcode, galleries).Ok?
    ensures Divs(GalleriesHtml(global, pcode, galleries).value, opening) == GalleriesStats(galleries)
    decreases |galleries|
  {
    if |galleries| == 0 {
      assert Divs([], opening) == Zero;
    } else {
      var p := GalleryHtml(global, pcode, galleries[0]);
      var rest := GalleriesHtml(global, pcode, galleries[1..]);
      CatOk(GalleriesHtml(global, pcode, galleries), p, rest);
      GalleryHtmlDivs(global, pcode, galleries[0], opening);
      GalleriesHtmlDivs(global, pcode, galleries[1..], opening);
      DivsAppend(p.value, rest.value, opening);
    }
  }

  /**
   * The decorated document opens, and closes, exactly as many divs of each
   * level as pobj_counts counts galleries, spreads, layouts and panelgroups.
   */
  lemma {:induction false} DocumentHtmlDivs(doc: Document, global: seq<OptToken>, opening: bool)
    requires DocumentHtml(doc, global).Ok?
    ensures Divs(DocumentHtml(doc, global).value, opening) == DocStats(doc)
  {
    GalleriesHtmlDivs(global, OptsOf(doc.opts), doc.galleries, opening);
  }

  // ---------------------------------------------------------------- links

  /** The one link a line opens (`opening`) or closes. */
  function AnchorLine(l: Line, opening: bool): nat {
    if (opening && l.AnchorOpen?) || (!opening && l.AnchorClose?) then 1 else 0
  }

  /** How many links the lines open (`opening`) or close. */
  function Anchors(lines: seq<Line>, opening: bool): nat {
    if |lines| == 0 then 0 else Anchors(lines[..|lines| - 1], opening) + AnchorLine(lines[|lines| - 1], opening)
  }

  lemma {:induction false} AnchorsAppend(a: seq<Line>, b: seq<Line>, opening: bool)
    ensures Anchors(a + b, opening) == Anchors(a, opening) + Anchors(b, opening)
    decreases |b|
  {
    if |b| == 0 {
      assert a + b == a;
    } else {
      var b' := b[..|b| - 1];
      assert (a + b)[..|a + b| - 1] == a + b';
      assert (a + b)[|a + b| - 1] == b[|b| - 1];
      AnchorsAppend(a, b', opening);
    }
  }

  /** No line opens or closes a link. */
  predicate NoAnchors(lines: seq<Line>) {
    forall i :: 0 <= i < |lines| ==> !lines[i].AnchorOpen? && !lines[i].AnchorClose?
  }

  lemma {:induction false} AnchorsOfNoAnchors(lines: seq<Line>, opening: bool)
    requires NoAnchors(lines)
    ensures Anchors(lines, opening) == 0
  {
    if |lines| > 0 {
      var p := lines[..|lines| - 1];
      assert NoAnchors(p) by {
        forall i | 0 <= i < |p| ensures !p[i].AnchorOpen? && !p[i].AnchorClose? {
          assert p[i] == lines[i];
        }
      }
      AnchorsOfNoAnchors(p, opening);
    }
  }

  lemma {:induction false} NoAnchorsAppend(a: seq<Line>, b: seq<Line>)
    requires NoAnchors(a) && NoAnchors(b)
    ensures NoAnchors(a + b)
  {
    assert forall i :: 0 <= i < |a + b| ==> (a + b)[i] == if i < |a| then a[i] else b[i - |a|];
  }

  /** Panel divs and the div tags around them hold no link. */
  lemma {:induction false} WrapNoAnchors(lines: seq<Line>, open: Line, body: seq<Line>, close: Line)
    requires lines == [open] + body + [close] && AllPanels(body) && open.Open? && close.Close?
    ensures NoAnchors(lines)
  {
    assert forall i :: 0 <= i < |lines| ==> lines[i] == if i == 0 then open else if i == |lines| - 1 then close else body[i - 1];
  }

  /** A rendered panelgroup holds no link. */
  lemma {:induction false} PanelGroupNoAnchors(above: seq<seq<OptToken>>, pg: PanelGroup, c: Counters)
    requires PanelGroupLines(above, pg, c).Ok?
    ensures NoAnchors(PanelGroupLines(above, pg, c).value.0)
  {
    PanelGroupBody(above, pg, c);
    EmitCellsPanels(GroupCells(pg), c);
    var lines := PanelGroupLines(above, pg, c).value.0;
    WrapNoAnchors(lines, lines[0], EmitCells(GroupCells(pg), c).value.0, Close(PanelGroupDiv));
  }

  lemma {:induction false} GroupsNoAnchors(above: seq<seq<OptToken>>, groups: seq<PanelGroup>, c: Counters)
    requires GroupsLines(above, groups, c).Ok?
    ensures NoAnchors(GroupsLines(above, groups, c).value.0)
    decreases |groups|
  {
    if |groups| > 0 {
      var head := PanelGroupLines(above, groups[0], c).value;
      PanelGroupNoAnchors(above, groups[0], c);
      GroupsNoAnchors(above, groups[1..], head.1);
      NoAnchorsAppend(head.0, GroupsLines(above, groups[1..], head.1).value.0);
    }
  }

  /** The layout head opens the link when there is a `url`; the tail closes it. */
  lemma {:induction false} AnchorsOne(l: Line, opening: bool)
    ensures Anchors([l], opening) == AnchorLine(l, opening)
  {
    assert [l][..0] == [];
  }

  lemma {:induction false} HeadAnchors(img: ImgBlocks, url: Option<string>, opening: bool)
    ensures Anchors(LayoutHead(img, url), opening) == if opening && url.Some? then 1 else 0
  {
    AnchorsOne(Raw(img.before), opening);
    if url.Some? {
      AnchorsOne(AnchorOpen(AnchorHref(url.value)), opening);
      AnchorsAppend([Raw(img.before)], [AnchorOpen(AnchorHref(url.value))], opening);
    } else {
      assert LayoutHead(img, url) == [Raw(img.before)];
    }
  }

  lemma {:induction false} TailAnchors(img: ImgBlocks, url: Option<string>, opening: bool)
    ensures Anchors(LayoutTail(img, url), opening) == if !opening && url.Some? then 1 else 0
  {
    AnchorsOne(Raw(img.after), opening);
    if url.Some? {
      AnchorsOne(AnchorClose, opening);
      AnchorsAppend([AnchorClose], [Raw(img.after)], opening);
    } else {
      assert LayoutTail(img, url) == [Raw(img.after)];
    }
  }

  lemma {:induction false} InnerNoAnchors(img: ImgBlocks, caption: seq<Line>)
    requires forall i :: 0 <= i < |caption| ==> caption[i].Caption?
    ensures NoAnchors(LayoutInner(img, caption))
  {
  }

  /** Only the head and the tail of a decorated layout hold links. */
  lemma {:induction false} DecoratedAnchors(lines: seq<Line>, head: seq<Line>, cls: string, groups: seq<Line>,
                         inner: seq<Line>, tail: seq<Line>, opening: bool)
    requires lines == Decorated(head, cls, groups, inner, tail)
    requires NoAnchors(groups) && NoAnchors(inner)
    ensures Anchors(lines, opening) == Anchors(head, opening) + Anchors(tail, opening)
  {
    var mid := [Open(LayoutDiv, cls)] + (groups + inner) + [Close(LayoutDiv)];
    NoAnchorsAppend(groups, inner);
    NoAnchorsAppend([Open(LayoutDiv, cls)], groups + inner);
    NoAnchorsAppend([Open(LayoutDiv, cls)] + (groups + inner), [Close(LayoutDiv)]);
    AnchorsOfNoAnchors(mid, opening);
    AnchorsAppend(head, mid, opening);
    AnchorsAppend(head + mid, tail, opening);
  }

  /** 1 for a layout whose options give a `url`, 0 otherwise. */
  function LinkOf(layout: Layout): nat {
    if Lookup(KvExprsOf(OptsOf(layout.opts)), "url").Some? then 1 else 0
  }

  function LayoutsLinks(layouts: seq<Layout>): nat
    decreases |layouts|
  {
    if |layouts| == 0 then 0 else LinkOf(layouts[0]) + LayoutsLinks(layouts[1..])
  }

  function SpreadsLinks(spreads: seq<Spread>): nat
    decreases |spreads|
  {
    if |spreads| == 0 then 0 else LayoutsLinks(spreads[0].layouts) + SpreadsLinks(spreads[1..])
  }

  function GalleriesLinks(galleries: seq<Gallery>): nat
    decreases |galleries|
  {
    if |galleries| == 0 then 0 else SpreadsLinks(galleries[0].spreads) + GalleriesLinks(galleries[1..])
  }

  /** A decorated layout opens one link and closes it when it has a `url`, and holds none otherwise. */
  lemma {:induction false} LayoutHtmlAnchors(ctx: Context, layout: Layout, n: int, opening: bool)
    requires LayoutHtml(ctx, layout, n).Ok?
    ensures Anchors(LayoutHtml(ctx, layout, n).value, opening) == LinkOf(layout)
  {
    LayoutParts(ctx, layout, n);
    var lo := OptsOf(layout.opts);
    var img := LayoutImg(ctx, lo);
    var url := Lookup(KvExprsOf(lo), "url");
    var cap := LayoutCaption(KvExprsOf(lo), LabelScan(ctx, lo), n);
    GroupsNoAnchors([ctx.pcode, ctx.gallery, ctx.spread, lo], layout.groups, Counters(0, 0));
    CaptionPresence(KvExprsOf(lo), LabelScan(ctx, lo), n);
    InnerNoAnchors(img, cap);
    HeadAnchors(img, url, opening);
    TailAnchors(img, url, opening);
    DecoratedAnchors(LayoutHtml(ctx, layout, n).value, LayoutHead(img, url), RenderDefault(lo),
                     LayoutGroups(ctx, lo, layout.groups).value.0, LayoutInner(img, cap), LayoutTail(img, url), opening);
  }

  lemma {:induction false} LayoutsHtmlAnchors(ctx: Context, layouts: seq<Layout>, n: int, opening: bool)
    requires LayoutsHtml(ctx, layouts, n).Ok?
    ensures Anchors(LayoutsHtml(ctx, layouts, n).value, opening) == LayoutsLinks(layouts)
    decreases |layouts|
  {
    if |layouts| == 0 {
      assert Anchors([], opening) == 0;
    } else {
      var p := LayoutHtml(ctx, layouts[0], n + 1);
      var rest := LayoutsHtml(ctx, layouts[1..], n + 1);
      CatOk(LayoutsHtml(ctx, layouts, n), p, rest);
      LayoutHtmlAnchors(ctx, layouts[0], n + 1, opening);
      LayoutsHtmlAnchors(ctx, layouts[1..], n + 1, opening);
      AnchorsAppend(p.value, rest.value, opening);
    }
  }

  /** Div tags around lines add no links. */
  lemma {:induction false} WrapAnchors(lines: seq<Line>, open: Line, body: seq<Line>, close: Line, opening: bool)
    requires lines == [open] + body + [close] && open.Open? && close.Close?
    ensures Anchors(lines, opening) == Anchors(body, opening)
  {
    AnchorsAppend([open] + body, [close], opening);
    AnchorsAppend([open], body, opening);
    assert [open][..0] == [] && [close][..0] == [];
  }

  lemma {:induction false} SpreadHtmlAnchors(ctx: Context, spread: Spread, n: int, opening: bool)
    requires SpreadHtml(ctx, spread, n).Ok?
    ensures Anchors(SpreadHtml(ctx, spread, n).value, opening) == LayoutsLinks(spread.layouts)
  {
    var so := OptsOf(spread.opts);
    var body := LayoutsHtml(ctx.(spread := so), spread.layouts, n);
    LayoutsHtmlAnchors(ctx.(spread := so), spread.layouts, n, opening);
    WrapAnchors(SpreadHtml(ctx, spread, n).value, Open(SpreadDiv, RenderDefault(so)), body.value, Close(SpreadDiv), opening);
  }

  lemma {:induction false} SpreadsHtmlAnchors(ctx: Context, spreads: seq<Spread>, n: int, opening: bool)
    requires SpreadsHtml(ctx, spreads, n).Ok?
    ensures Anchors(SpreadsHtml(ctx, spreads, n).value, opening) == SpreadsLinks(spreads)
    decreases |spreads|
  {
    if |spreads| == 0 {
      assert Anchors([], opening) == 0;
    } else {
      var p := SpreadHtml(ctx, spreads[0], n);
      var rest := SpreadsHtml(ctx, spreads[1..], After(n, spreads[0]));
      CatOk(SpreadsHtml(ctx, spreads, n), p, rest);
      SpreadHtmlAnchors(ctx, spreads[0], n, opening);
      SpreadsHtmlAnchors(ctx, spreads[1..], After(n, spreads[0]), opening);
      AnchorsAppend(p.value, rest.value, opening);
    }
  }

  lemma {:induction false} GalleryHtmlAnchors(global: seq<OptToken>, pcode: seq<OptToken>, gallery: Gallery, opening: bool)
    requires GalleryHtml(global, pcode, gallery).Ok?
    ensures Anchors(GalleryHtml(global, pcode, gallery).value, opening) == SpreadsLinks(gallery.spreads)
  {
    var go := OptsOf(gallery.opts);
    var ctx := Context(global, pcode, go, [Bare("")], ImgPathOf(KvExprsOf(go), KvExprsOf(global)));
    SpreadsHtmlAnchors(ctx, gallery.spreads, 0, opening);
    WrapAnchors(GalleryHtml(global, pcode, gallery).value, Open(GalleryDiv, RenderDefault(global) + " " + RenderDefault(go)),
                SpreadsHtml(ctx, gallery.spreads, 0).value, Close(GalleryDiv), opening);
  }

  lemma {:induction false} GalleriesHtmlAnchors(global: seq<OptToken>, pcode: seq<OptToken>, galleries: seq<Gallery>, opening: bool)
    requires GalleriesHtml(global, pcode, galleries).Ok?
    ensures Anchors(GalleriesHtml(global, pcode, galleries).value, opening) == GalleriesLinks(galleries)
    decreases |galleries|
  {
    if |galleries| == 0 {
      assert Anchors([], opening) == 0;
    } else {
      var p := GalleryHtml(global, pcode, galleries[0]);
      var rest := GalleriesHtml(global, pcode, galleries[1..]);
      CatOk(GalleriesHtml(global, pcode, galleries), p, rest);
      GalleryHtmlAnchors(global, pcode, galleries[0], opening);
      GalleriesHtmlAnchors(global, pcode, galleries[1..], opening);
      AnchorsAppend(p.value, rest.value, opening);
    }
  }

  /**
   * Every `<a href=...>` the document opens is closed: it opens, and closes,
   * one link per layout whose options carry a `url`.
   */
  lemma {:induction false} DocumentHtmlAnchors(doc: Document, global: seq<OptToken>, opening: bool)
    requires DocumentHtml(doc, global).Ok?
    ensures Anchors(DocumentHtml(doc, global).value, opening) == GalleriesLinks(doc.galleries)
  {
    GalleriesHtmlAnchors(global, OptsOf(doc.opts), doc.galleries, opening);
  }

  // ---------------------------------------------------------------- the layout counter

  /** The same layouts from equal counters. */
  lemma {:induction false} LayoutsFrom(ctx: Context, layouts: seq<Layout>, a: int, b: int)
    requires a == b
    ensures LayoutsHtml(ctx, layouts, a) == LayoutsHtml(ctx, layouts, b)
  {
  }

  /** The first layout of a run reached with counter `n` is numbered `m`, one more, and so is the rest. */
  lemma {:induction false} LayoutsCons(ctx: Context, layouts: seq<Layout>, n: int, m: int)
    requires |layouts| > 0 && m == n + 1
    ensures LayoutsHtml(ctx, layouts, n) == Cat(LayoutHtml(ctx, layouts[0], m), LayoutsHtml(ctx, layouts[1..], m))
  {
  }

  /** Joining a first part onto a joined rest. */
  lemma {:induction false} CatStep(whole: Lines, first: Lines, tail: Lines, restA: Lines, restB: Lines, wholeA: Lines)
    requires whole == Cat(first, tail) && tail == Cat(restA, restB) && wholeA == Cat(first, restA)
    ensures whole == Cat(wholeA, restB)
  {
    CatAssoc(first, restA, restB);
  }

  lemma {:induction false} LayoutsConsAppend(ctx: Context, a: seq<Layout>, b: seq<Layout>, n: int)
    requires |a| > 0
    ensures LayoutsHtml(ctx, a + b, n) == Cat(LayoutHtml(ctx, a[0], n + 1), LayoutsHtml(ctx, a[1..] + b, n + 1))
  {
    var ab := a + b;
    assert ab[0] == a[0] && ab[1..] == a[1..] + b;
    LayoutsCons(ctx, ab, n, n + 1);
  }

  /** The layouts after a first run of them are numbered on from `m`, that counter plus the length of the run. */
  lemma {:induction false} LayoutsAppend(ctx: Context, a: seq<Layout>, b: seq<Layout>, n: int, m: int)
    requires m == n + |a|
    ensures LayoutsHtml(ctx, a + b, n) == Cat(LayoutsHtml(ctx, a, n), LayoutsHtml(ctx, b, m))
    decreases |a|
  {
    if |a| == 0 {
      assert a + b == b;
      LayoutsFrom(ctx, b, m, n);
      CatNil(LayoutsHtml(ctx, b, n));
    } else {
      LayoutsConsAppend(ctx, a, b, n);
      LayoutsAppend(ctx, a[1..], b, n + 1, m);
      LayoutsCons(ctx, a, n, n + 1);
      CatStep(LayoutsHtml(ctx, a + b, n), LayoutHtml(ctx, a[0], n + 1), LayoutsHtml(ctx, a[1..] + b, n + 1),
              LayoutsHtml(ctx, a[1..], n + 1), LayoutsHtml(ctx, b, m), LayoutsHtml(ctx, a, n));
    }
  }

  /**
   * g_layout_counter: the first layout after a run `pre` of a spread
   * reached with counter n is rendered as layout number m = n + |pre| + 1.
   */
  lemma {:induction false} LayoutNumberAt(ctx: Context, pre: seq<Layout>, post: seq<Layout>, n: int, m: int)
    requires |post| > 0 && m == n + |pre| + 1
    ensures LayoutsHtml(ctx, pre + post, n) ==
      Cat(LayoutsHtml(ctx, pre, n), Cat(LayoutHtml(ctx, post[0], m), LayoutsHtml(ctx, post[1..], m)))
  {
    LayoutsAppend(ctx, pre, post, n, m - 1);
    LayoutsCons(ctx, post, m - 1, m);
  }

  /** The same spreads from equal counters. */
  lemma {:induction false} SpreadsFrom(ctx: Context, spreads: seq<Spread>, a: int, b: int)
    requires a == b
    ensures SpreadsHtml(ctx, spreads, a) == SpreadsHtml(ctx, spreads, b)
  {
  }

  lemma {:induction false} SpreadsCons(ctx: Context, spreads: seq<Spread>, n: int)
    requires |spreads| > 0
    ensures SpreadsHtml(ctx, spreads, n) == Cat(SpreadHtml(ctx, spreads[0], n), SpreadsHtml(ctx, spreads[1..], After(n, spreads[0])))
  {
  }

  lemma {:induction false} SpreadsStatsAppendLayouts(a: seq<Spread>, n: int)
    requires |a| > 0
    ensures After(n, a[0]) + SpreadsStats(a[1..]).layouts == n + SpreadsStats(a).layouts
  {
    LayoutsStatsShape(a[0].layouts);
  }

  lemma {:induction false} SpreadsConsAppend(ctx: Context, a: seq<Spread>, b: seq<Spread>, n: int)
    requires |a| > 0
    ensures SpreadsHtml(ctx, a + b, n) == Cat(SpreadHtml(ctx, a[0], n), SpreadsHtml(ctx, a[1..] + b, After(n, a[0])))
  {
    var ab := a + b;
    assert ab[0] == a[0] && ab[1..] == a[1..] + b;
    SpreadsCons(ctx, ab, n);
  }

  /**
   * The spreads after a first run of them are numbered on from `m`, the
   * counter plus the layouts of that run.
   */
  lemma {:induction false} SpreadsAppend(ctx: Context, a: seq<Spread>, b: seq<Spread>, n: int, m: int)
    requires m == n + SpreadsStats(a).layouts
    ensures SpreadsHtml(ctx, a + b, n) == Cat(SpreadsHtml(ctx, a, n), SpreadsHtml(ctx, b, m))
    decreases |a|
  {
    if |a| == 0 {
      assert a + b == b;
      SpreadsFrom(ctx, b, m, n);
      CatNil(SpreadsHtml(ctx, b, n));
    } else {
      SpreadsConsAppend(ctx, a, b, n);
      SpreadsStatsAppendLayouts(a, n);
      SpreadsAppend(ctx, a[1..], b, After(n, a[0]), m);
      SpreadsCons(ctx, a, n);
      CatStep(SpreadsHtml(ctx, a + b, n), SpreadHtml(ctx, a[0], n), SpreadsHtml(ctx, a[1..] + b, After(n, a[0])),
              SpreadsHtml(ctx, a[1..], After(n, a[0])), SpreadsHtml(ctx, b, m), SpreadsHtml(ctx, a, n));
    }
  }

  /**
   * The counter runs on across the spreads of a gallery: the first spread
   * after a run `pre` starts at m, the counter plus the layouts of `pre`.
   */
  lemma {:induction false} SpreadStartAt(ctx: Context, pre: seq<Spread>, post: seq<Spread>, n: int, m: int)
    requires |post| > 0 && m == n + SpreadsStats(pre).layouts
    ensures SpreadsHtml(ctx, pre + post, n) ==
      Cat(SpreadsHtml(ctx, pre, n), Cat(SpreadHtml(ctx, post[0], m), SpreadsHtml(ctx, post[1..], After(m, post[0]))))
  {
    SpreadsAppend(ctx, pre, post, n, m);
    SpreadsCons(ctx, post, m);
  }

  /** A line of the inner decoration is a line of the decorated layout. */
  lemma {:induction false} DecoratedHas(x: Line, head: seq<Line>, cls: string, groups: seq<Line>, inner: seq<Line>, tail: seq<Line>)
    requires x in inner
    ensures x in Decorated(head, cls, groups, inner, tail)
  {
    var i :| 0 <= i < |inner| && inner[i] == x;
    assert Decorated(head, cls, groups, inner, tail)[|head| + 1 + |groups| + i] == x;
  }

  /**
   * With `autolabel` in the options in scope and neither a `label` nor an
   * `img` of its own, a layout is captioned with its layout number.
   */
  lemma {:induction false} LayoutLabelNumber(ctx: Context, layout: Layout, n: int)
    requires LayoutHtml(ctx, layout, n).Ok?
    requires var lo := OptsOf(layout.opts);
      Lookup(KvExprsOf(lo), "label").None? && Lookup(KvExprsOf(lo), "img").None? &&
      AnyContains(LabelScan(ctx, lo), "autolabel")
    ensures Caption(IntToStr(n)) in LayoutHtml(ctx, layout, n).value
  {
    LayoutParts(ctx, layout, n);
    var lo := OptsOf(layout.opts);
    var img := LayoutImg(ctx, lo);
    var url := Lookup(KvExprsOf(lo), "url");
    var inner := LayoutInner(img, LayoutCaption(KvExprsOf(lo), LabelScan(ctx, lo), n));
    assert inner[1] == Caption(IntToStr(n));
    DecoratedHas(Caption(IntToStr(n)), LayoutHead(img, url), RenderDefault(lo),
                 LayoutGroups(ctx, lo, layout.groups).value.0, inner, LayoutTail(img, url));
  }
}
