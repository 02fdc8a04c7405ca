/**
 * The document walk of panelcode/render.py (pobj_to_html5_ccs3_grid): the
 * grid of the shared panelgroup code, with every layout decorated by its
 * image blocks, its `url` anchor and its label, galleries carrying the
 * global options and an image path, and a layout counter per gallery.
 */
module GalleryRender {
  import opened Wrappers
  import opened Text
  import opened Options
  import opened Grammar
  import opened Grid
  import opened Numbering
  import opened Counts
  import opened GridRender
  import opened Decorations

  /** What a layout sees of the levels above it. */
  datatype Context = Context(global: seq<OptToken>, pcode: seq<OptToken>, gallery: seq<OptToken>,
                             spread: seq<OptToken>, imgPath: string)

  // ---------------------------------------------------------------- the specification

  /** The image blocks of a layout. */
  function LayoutImg(ctx: Context, lo: seq<OptToken>): ImgBlocks {
    ImgBlocksOf(KvExprsOf(lo), RenderDefault(lo), RenderDefault(ctx.spread), RenderDefault(ctx.gallery),
                RenderDefault(ctx.pcode), RenderDefault(ctx.global), ctx.imgPath)
  }

  /** The option strings the layout label scans: layout, spread, gallery, document. */
  function LabelScan(ctx: Context, lo: seq<OptToken>): seq<string> {
    [RenderDefault(lo), RenderDefault(ctx.spread), RenderDefault(ctx.gallery), RenderDefault(ctx.pcode)]
  }

  /** Before the layout div: the `ibefore` block, then the anchor opening when there is a `url`. */
  function LayoutHead(img: ImgBlocks, url: Option<string>): seq<Line> {
    [Raw(img.before)] + (if url.Some? then [AnchorOpen(AnchorHref(url.value))] else [])
  }

  /** After the panelgroups, inside the layout div: the image layer, then the label. */
  function LayoutInner(img: ImgBlocks, caption: seq<Line>): seq<Line> {
    [Raw(img.layer)] + caption
  }

  /** After the layout div: the anchor closing when there is a `url`, then the `iafter` block. */
  function LayoutTail(img: ImgBlocks, url: Option<string>): seq<Line> {
    (if url.Some? then [AnchorClose] else []) + [Raw(img.after)]
  }

  /** A layout div between its head and tail, holding its panelgroups and then its inner decoration. */
  function Decorated(head: seq<Line>, cls: string, groups: seq<Line>, inner: seq<Line>, tail: seq<Line>): seq<Line> {
    head + ([Open(LayoutDiv, cls)] + (groups + inner) + [Close(LayoutDiv)]) + tail
  }

  /** The groups of a layout, numbered from fresh counters under the four option levels. */
  function LayoutGroups(ctx: Context, lo: seq<OptToken>, groups: seq<PanelGroup>): Result<(seq<Line>, Counters), RenderError> {
    GroupsLines([ctx.pcode, ctx.gallery, ctx.spread, lo], groups, Counters(0, 0))
  }

  /** The lines of one part followed by those of the rest, or the first error. */
  function Cat(p: Lines, rest: Lines): Lines {
    match p
    case Err(e) => Err(e)
    case Ok(ls) => Then(ls, rest)
  }

  /** One decorated layout, the `n`-th of its gallery. */
  function LayoutHtml(ctx: Context, layout: Layout, n: int): Lines {
    var lo := OptsOf(layout.opts);
    var kve := KvExprsOf(lo);
    var img := LayoutImg(ctx, lo);
    var url := Lookup(kve, "url");
    match LayoutGroups(ctx, lo, layout.groups)
    case Err(e) => Err(e)
    case Ok(body) =>
      Ok(Decorated(LayoutHead(img, url), RenderDefault(lo), body.0,
                   LayoutInner(img, LayoutCaption(kve, LabelScan(ctx, lo), n)), LayoutTail(img, url)))
  }

  /** The layouts of a spread, numbered on from the `n` layouts of the gallery before them. */
  function LayoutsHtml(ctx: Context, layouts: seq<Layout>, n: int): Lines
    decreases |layouts|
  {
    if |layouts| == 0 then Ok([]) else Cat(LayoutHtml(ctx, layouts[0], n + 1), LayoutsHtml(ctx, layouts[1..], n + 1))
  }

  function SpreadHtml(ctx: Context, spread: Spread, n: int): Lines {
    var so := OptsOf(spread.opts);
    match LayoutsHtml(ctx.(spread := so), spread.layouts, n)
    case Err(e) => Err(e)
    case Ok(body) => Ok([Open(SpreadDiv, RenderDefault(so))] + body + [Close(SpreadDiv)])
  }

  /** The gallery's layout counter after a spread that it reached at `n`. */
  function After(n: int, spread: Spread): int {
    n + |spread.layouts|
  }

  function SpreadsHtml(ctx: Context, spreads: seq<Spread>, n: int): Lines
    decreases |spreads|
  {
    if |spreads| == 0 then Ok([]) else Cat(SpreadHtml(ctx, spreads[0], n), SpreadsHtml(ctx, spreads[1..], After(n, spreads[0])))
  }

  /** A gallery: its image path, its div with the global options in front, its spreads with the layout counter from zero. */
  function GalleryHtml(global: seq<OptToken>, pcode: seq<OptToken>, gallery: Gallery): Lines {
    var go := OptsOf(gallery.opts);
    var ctx := Context(global, pcode, go, [Bare("")], ImgPathOf(KvExprsOf(go), KvExprsOf(global)));
    match SpreadsHtml(ctx, gallery.spreads, 0)
    case Err(e) => Err(e)
    case Ok(body) => Ok([Open(GalleryDiv, RenderDefault(global) + " " + RenderDefault(go))] + body + [Close(GalleryDiv)])
  }

  function GalleriesHtml(global: seq<OptToken>, pcode: seq<OptToken>, galleries: seq<Gallery>): Lines
    decreases |galleries|
  {
    if |galleries| == 0 then Ok([]) else Cat(GalleryHtml(global, pcode, galleries[0]), GalleriesHtml(global, pcode, galleries[1..]))
  }

  /** pobj_to_html5_ccs3_grid, with `global` the first entry of the global options. */
  function DocumentHtml(doc: Document, global: seq<OptToken>): Lines {
    GalleriesHtml(global, OptsOf(doc.opts), doc.galleries)
  }

  // ---------------------------------------------------------------- the loops

  /** The body of the layout loop. */
  method RenderLayout(ctx: Context, layout: Layout, n: int) returns (r: Lines)
    ensures r == LayoutHtml(ctx, layout, n)
  {
    var lo := OptsOf(layout.opts);
    var _, _, kve := OptsLoad(lo);
    var lopt := OptsRender(lo, true, true, false);
    var sopt := OptsRender(ctx.spread, true, true, false);
    var gopt := OptsRender(ctx.gallery, true, true, false);
    var popt := OptsRender(ctx.pcode, true, true, false);
    var glopt := OptsRender(ctx.global, true, true, false);
    var before, layer, after := ImgRender(kve, lopt, sopt, gopt, popt, glopt, ctx.imgPath);
    assert ImgBlocks(before, layer, after) == LayoutImg(ctx, lo);
    var head := [Raw(before)];
    var url := Lookup(kve, "url");
    if url.Some? {
      if !Contains(url.value, "http") {
        head := head + [AnchorOpen("http://" + url.value)];
      } else {
        head := head + [AnchorOpen(url.value)];
      }
    }
    var body := RenderGroups([ctx.pcode, ctx.gallery, ctx.spread, lo], layout.groups, Counters(0, 0));
    if body.Err? {
      return Err(body.error);
    }
    assert head == LayoutHead(LayoutImg(ctx, lo), url);
    var caption := RenderLabel(kve, [lopt, sopt, gopt, popt], n);
    assert [lopt, sopt, gopt, popt] == LabelScan(ctx, lo);
    var tail := if url.Some? then [AnchorClose] else [];
    assert tail + [Raw(after)] == LayoutTail(LayoutImg(ctx, lo), url);
    assert [Raw(layer)] + caption == LayoutInner(LayoutImg(ctx, lo), LayoutCaption(kve, LabelScan(ctx, lo), n));
    r := Ok(Decorated(head, lopt, body.value.0, [Raw(layer)] + caption, tail + [Raw(after)]));
  }

  /** One more step of a loop that appends each part's lines or stops at its first error. */
  lemma {:induction false} ThenCat(lines: seq<Line>, p: Lines, rest: Lines)
    ensures p.Err? ==> Then(lines, Cat(p, rest)) == Err(p.error)
    ensures p.Ok? ==> Then(lines, Cat(p, rest)) == Then(lines + p.value, rest)
  {
    if p.Ok? {
      ThenAssoc(lines, p.value, rest);
    }
  }

  predicate LayoutsSoFar(ctx: Context, layouts: seq<Layout>, n: int, i: nat, lines: seq<Line>, counter: int)
    requires i <= |layouts|
  {
    LayoutsHtml(ctx, layouts, n) == Then(lines, LayoutsHtml(ctx, layouts[i..], counter))
  }

  lemma {:induction false} LayoutsHtmlAt(ctx: Context, layouts: seq<Layout>, i: nat, counter: int)
    requires i < |layouts|
    ensures LayoutsHtml(ctx, layouts[i..], counter) ==
      Cat(LayoutHtml(ctx, layouts[i], counter + 1), LayoutsHtml(ctx, layouts[i + 1..], counter + 1))
  {
    assert layouts[i..][0] == layouts[i] && layouts[i..][1..] == layouts[i + 1..];
  }

  /**
   * The layout loop of a spread: the gallery's layout counter goes up by one
   * before each layout, the panel counters start at zero in each.
   */
  method RenderLayouts(ctx: Context, layouts: seq<Layout>, n: int) returns (r: Lines, counter: int)
    ensures r == LayoutsHtml(ctx, layouts, n)
    ensures r.Ok? ==> counter == n + |layouts|
  {
    var lines: seq<Line> := [];
    counter := n;
    var i := 0;
    assert layouts[0..] == layouts;
    ThenNil(LayoutsHtml(ctx, layouts, n));
    while i < |layouts|
      invariant 0 <= i <= |layouts| && counter == n + i
      invariant LayoutsSoFar(ctx, layouts, n, i, lines, counter)
    {
      LayoutsHtmlAt(ctx, layouts, i, counter);
      counter := counter + 1;
      var p := RenderLayout(ctx, layouts[i], counter);
      ThenCat(lines, p, LayoutsHtml(ctx, layouts[i + 1..], counter));
      if p.Err? {
        return Err(p.error), counter;
      }
      lines := lines + p.value;
      i := i + 1;
    }
    assert layouts[i..] == [] && lines + [] == lines;
    r := Ok(lines);
  }

  /** The body of the spread loop. */
  method RenderSpread(ctx: Context, spread: Spread, n: int) returns (r: Lines, counter: int)
    ensures r == SpreadHtml(ctx, spread, n)
    ensures r.Ok? ==> counter == After(n, spread)
  {
    var so := OptsOf(spread.opts);
    var cls := OptsRender(so, true, true, false);
    var body;
    body, counter := RenderLayouts(ctx.(spread := so), spread.layouts, n);
    if body.Err? {
      return Err(body.error), counter;
    }
    r := Ok([Open(SpreadDiv, cls)] + body.value + [Close(SpreadDiv)]);
  }

  /** The spread loop with `rest` still to go. */
  predicate SpreadsSoFar(ctx: Context, spreads: seq<Spread>, n: int, rest: seq<Spread>, lines: seq<Line>, counter: int) {
    SpreadsHtml(ctx, spreads, n) == Then(lines, SpreadsHtml(ctx, rest, counter)) &&
    counter + SpreadsStats(rest).layouts == n + SpreadsStats(spreads).layouts
  }

  lemma {:induction false} SpreadsHtmlCons(ctx: Context, spreads: seq<Spread>, counter: int)
    requires |spreads| > 0
    ensures SpreadsHtml(ctx, spreads, counter) ==
      Cat(SpreadHtml(ctx, spreads[0], counter), SpreadsHtml(ctx, spreads[1..], After(counter, spreads[0])))
  {
  }

  lemma {:induction false} SpreadsStatsCons(spreads: seq<Spread>)
    requires |spreads| > 0
    ensures SpreadsStats(spreads).layouts == |spreads[0].layouts| + SpreadsStats(spreads[1..]).layouts
  {
    LayoutsStatsShape(spreads[0].layouts);
  }

  lemma {:induction false} SpreadsStep(ctx: Context, spreads: seq<Spread>, n: int, rest: seq<Spread>, lines: seq<Line>, counter: int, p: Lines, next: int)
    requires |rest| > 0 && SpreadsSoFar(ctx, spreads, n, rest, lines, counter)
    requires p.Ok? && next == After(counter, rest[0])
    requires SpreadsHtml(ctx, rest, counter) == Cat(p, SpreadsHtml(ctx, rest[1..], next))
    ensures SpreadsSoFar(ctx, spreads, n, rest[1..], lines + p.value, next)
  {
    SpreadsStatsCons(rest);
    ThenCat(lines, p, SpreadsHtml(ctx, rest[1..], next));
  }

  /** The spread loop of a gallery; the layout counter runs on across its spreads. */
  method RenderSpreads(ctx: Context, spreads: seq<Spread>, n: int) returns (r: Lines, counter: int)
    ensures r == SpreadsHtml(ctx, spreads, n)
    ensures r.Ok? ==> counter == n + SpreadsStats(spreads).layouts
  {
    var lines: seq<Line> := [];
    counter := n;
    var rest := spreads;
    ThenNil(SpreadsHtml(ctx, spreads, n));
    while |rest| > 0
      invariant SpreadsSoFar(ctx, spreads, n, rest, lines, counter)
    {
      SpreadsHtmlCons(ctx, rest, counter);
      var p, next := RenderSpread(ctx, rest[0], counter);
      if p.Err? {
        ThenCat(lines, p, SpreadsHtml(ctx, rest[1..], After(counter, rest[0])));
        return Err(p.error), next;
      }
      SpreadsStep(ctx, spreads, n, rest, lines, counter, p, next);
      lines := lines + p.value;
      counter := next;
      rest := rest[1..];
    }
    assert lines + [] == lines;
    r := Ok(lines);
  }

  /** The body of the gallery loop: the image path cascade, the gallery div, its spreads. */
  method RenderGallery(global: seq<OptToken>, pcode: seq<OptToken>, gallery: Gallery) returns (r: Lines)
    ensures r == GalleryHtml(global, pcode, gallery)
  {
    var go := OptsOf(gallery.opts);
    var _, _, gkve := OptsLoad(go);
    var _, _, pkve := OptsLoad(global);
    var imgPath := "";
    var g := Lookup(gkve, "imgpath");
    if g.Some? {
      imgPath := g.value;
    } else {
      var p := Lookup(pkve, "imgpath");
      if p.Some? {
        imgPath := p.value;
      }
    }
    var glcls := OptsRender(global, true, true, false);
    var gcls := OptsRender(go, true, true, false);
    var body, _ := RenderSpreads(Context(global, pcode, go, [Bare("")], imgPath), gallery.spreads, 0);
    if body.Err? {
      return Err(body.error);
    }
    r := Ok([Open(GalleryDiv, glcls + " " + gcls)] + body.value + [Close(GalleryDiv)]);
  }

  predicate GalleriesSoFar(global: seq<OptToken>, pcode: seq<OptToken>, galleries: seq<Gallery>, i: nat, lines: seq<Line>)
    requires i <= |galleries|
  {
    GalleriesHtml(global, pcode, galleries) == Then(lines, GalleriesHtml(global, pcode, galleries[i..]))
  }

  lemma {:induction false} GalleriesHtmlAt(global: seq<OptToken>, pcode: seq<OptToken>, galleries: seq<Gallery>, i: nat)
    requires i < |galleries|
    ensures GalleriesHtml(global, pcode, galleries[i..]) ==
      Cat(GalleryHtml(global, pcode, galleries[i]), GalleriesHtml(global, pcode, galleries[i + 1..]))
  {
    assert galleries[i..][0] == galleries[i] && galleries[i..][1..] == galleries[i + 1..];
  }

  /** pobj_to_html5_ccs3_grid: the gallery loop. */
  method PobjToHtml(doc: Document, global: seq<OptToken>) returns (r: Lines)
    ensures r == DocumentHtml(doc, global)
  {
    var pcode := OptsOf(doc.opts);
    var galleries := doc.galleries;
    var lines: seq<Line> := [];
    var i := 0;
    assert galleries[0..] == galleries;
    ThenNil(GalleriesHtml(global, pcode, galleries));
    while i < |galleries|
      invariant 0 <= i <= |galleries|
      invariant GalleriesSoFar(global, pcode, galleries, i, lines)
    {
      GalleriesHtmlAt(global, pcode, galleries, i);
      var p := RenderGallery(global, pcode, galleries[i]);
      ThenCat(lines, p, GalleriesHtml(global, pcode, galleries[i + 1..]));
      if p.Err? {
        return Err(p.error);
      }
      lines := lines + p.value;
      i := i + 1;
    }
    assert galleries[i..] == [] && lines + [] == lines;
    r := Ok(lines);
  }
}
