/**
 * The document walk of the HTML5/CSS3 grid renderer in render.py: a div per
 * gallery, spread and layout around the panelgroups of the shared grid code,
 * panel numbers starting afresh in every layout, and an optional caption
 * under each layout's opening div.
 */
module GridRender {
  import opened Wrappers
  import opened Options
  import opened Grammar
  import opened Grid
  import opened Numbering
  import opened Counts

  /** The lines of a document part, or the exception that stops the render. */
  type Lines = Result<seq<Line>, RenderError>

  /** Lines emitted before the outcome of the rest. */
  function Then(ls: seq<Line>, r: Lines): Lines {
    match r
    case Err(e) => Err(e)
    case Ok(rest) => Ok(ls + rest)
  }

  lemma {:induction false} ThenNil(r: Lines)
    ensures Then([], r) == r
  {
    if r.Ok? {
      assert [] + r.value == r.value;
    }
  }

  lemma {:induction false} ThenAssoc(a: seq<Line>, b: seq<Line>, r: Lines)
    ensures Then(a, Then(b, r)) == Then(a + b, r)
  {
    if r.Ok? {
      assert a + (b + r.value) == (a + b) + r.value;
    }
  }

  /** The layout caption: the `label` expression, linked to the `id` expression when there is one. */
  function CaptionLines(opts: seq<OptToken>): seq<Line> {
    var kve := KvExprsOf(opts);
    match Lookup(kve, "label")
    case None => []
    case Some(text) =>
      match Lookup(kve, "id")
      case None => [Caption(text)]
      case Some(id) => [Caption("<a href=\"" + id + "\">" + text + "</a>")]
  }

  // ---------------------------------------------------------------- the specification

  /** The panelgroups of a layout, the counters carried from one to the next. */
  function GroupsLines(above: seq<seq<OptToken>>, groups: seq<PanelGroup>, c: Counters): Result<(seq<Line>, Counters), RenderError>
    decreases |groups|
  {
    if |groups| == 0 then Ok(([], c))
    else
      match PanelGroupLines(above, groups[0], c)
      case Err(e) => Err(e)
      case Ok(p) => Prepend(p.0, GroupsLines(above, groups[1..], p.1))
  }

  /**
   * One layout: its div, its caption, its panelgroups numbered from zero
   * counters, the closing tag.  `above` holds the options of the document,
   * the gallery and the spread.
   */
  function LayoutLines(above: seq<seq<OptToken>>, layout: Layout): Lines {
    var lo := OptsOf(layout.opts);
    match GroupsLines(above + [lo], layout.groups, Counters(0, 0))
    case Err(e) => Err(e)
    case Ok(body) => Ok([Open(LayoutDiv, RenderDefault(lo))] + (CaptionLines(lo) + body.0) + [Close(LayoutDiv)])
  }

  function LayoutsLines(above: seq<seq<OptToken>>, layouts: seq<Layout>): Lines
    decreases |layouts|
  {
    if |layouts| == 0 then Ok([])
    else
      match LayoutLines(above, layouts[0])
      case Err(e) => Err(e)
      case Ok(ls) => Then(ls, LayoutsLines(above, layouts[1..]))
  }

  /** One spread: its div around its layouts. `above` holds the document and gallery options. */
  function SpreadLines(above: seq<seq<OptToken>>, spread: Spread): Lines {
    var so := OptsOf(spread.opts);
    match LayoutsLines(above + [so], spread.layouts)
    case Err(e) => Err(e)
    case Ok(body) => Ok([Open(SpreadDiv, RenderDefault(so))] + body + [Close(SpreadDiv)])
  }

  function SpreadsLines(above: seq<seq<OptToken>>, spreads: seq<Spread>): Lines
    decreases |spreads|
  {
    if |spreads| == 0 then Ok([])
    else
      match SpreadLines(above, spreads[0])
      case Err(e) => Err(e)
      case Ok(ls) => Then(ls, SpreadsLines(above, spreads[1..]))
  }

  /** One gallery: its div around its spreads. `above` holds the document options. */
  function GalleryLines(above: seq<seq<OptToken>>, gallery: Gallery): Lines {
    var go := OptsOf(gallery.opts);
    match SpreadsLines(above + [go], gallery.spreads)
    case Err(e) => Err(e)
    case Ok(body) => Ok([Open(GalleryDiv, RenderDefault(go))] + body + [Close(GalleryDiv)])
  }

  function GalleriesLines(above: seq<seq<OptToken>>, galleries: seq<Gallery>): Lines
    decreases |galleries|
  {
    if |galleries| == 0 then Ok([])
    else
      match GalleryLines(above, galleries[0])
      case Err(e) => Err(e)
      case Ok(ls) => Then(ls, GalleriesLines(above, galleries[1..]))
  }

  /** pobj_to_html5_ccs3_grid: the galleries of the document, under the document options. */
  function DocumentLines(doc: Document): Lines {
    GalleriesLines([OptsOf(doc.opts)], doc.galleries)
  }

  // ---------------------------------------------------------------- the loops

  /** The panelgroup loop after `i` panelgroups. */
  predicate GroupsSoFar(above: seq<seq<OptToken>>, groups: seq<PanelGroup>, c: Counters, i: nat, lines: seq<Line>, ctr: Counters)
    requires i <= |groups|
  {
    GroupsLines(above, groups, c) == Prepend(lines, GroupsLines(above, groups[i..], ctr))
  }

  lemma {:induction false} GroupsLinesAt(above: seq<seq<OptToken>>, groups: seq<PanelGroup>, i: nat, ctr: Counters)
    requires i < |groups|
    ensures GroupsLines(above, groups[i..], ctr) ==
      match PanelGroupLines(above, groups[i], ctr)
      case Err(e) => Err(e)
      case Ok(p) => Prepend(p.0, GroupsLines(above, groups[i + 1..], p.1))
  {
    assert groups[i..][0] == groups[i] && groups[i..][1..] == groups[i + 1..];
  }

  /** The panelgroup loop of a layout; the counters run on from one panelgroup to the next. */
  method RenderGroups(above: seq<seq<OptToken>>, groups: seq<PanelGroup>, c: Counters)
    returns (r: Result<(seq<Line>, Counters), RenderError>)
    ensures r == GroupsLines(above, groups, c)
  {
    var lines: seq<Line> := [];
    var ctr := c;
    var i := 0;
    assert groups[0..] == groups;
    PrependNil(GroupsLines(above, groups, c));
    while i < |groups|
      invariant 0 <= i <= |groups|
      invariant GroupsSoFar(above, groups, c, i, lines, ctr)
    {
      GroupsLinesAt(above, groups, i, ctr);
      var p := RenderPanelGroup(above, groups[i], ctr);
      if p.Err? {
        return Err(p.error);
      }
      PrependAssoc(lines, p.value.0, GroupsLines(above, groups[i + 1..], p.value.1));
      lines := lines + p.value.0;
      ctr := p.value.1;
      i := i + 1;
    }
    assert groups[i..] == [] && lines + [] == lines;
    r := Ok((lines, ctr));
  }

  /** The body of the layout loop: counters reset, the div, the caption, the panelgroups. */
  method RenderLayout(above: seq<seq<OptToken>>, layout: Layout) returns (r: Lines)
    ensures r == LayoutLines(above, layout)
  {
    var ctr := Counters(0, 0);
    var lo := OptsOf(layout.opts);
    var cls := OptsRender(lo, true, true, false);
    var _, _, kve := OptsLoad(lo);
    var caption: seq<Line> := [];
    var text := Lookup(kve, "label");
    if text.Some? {
      var html := text.value;
      var id := Lookup(kve, "id");
      if id.Some? {
        html := "<a href=\"" + id.value + "\">" + html + "</a>";
      }
      caption := [Caption(html)];
    }
    assert caption == CaptionLines(lo);
    var body := RenderGroups(above + [lo], layout.groups, ctr);
    if body.Err? {
      return Err(body.error);
    }
    r := Ok([Open(LayoutDiv, cls)] + (caption + body.value.0) + [Close(LayoutDiv)]);
  }

  predicate LayoutsSoFar(above: seq<seq<OptToken>>, layouts: seq<Layout>, i: nat, lines: seq<Line>)
    requires i <= |layouts|
  {
    LayoutsLines(above, layouts) == Then(lines, LayoutsLines(above, layouts[i..]))
  }

  lemma {:induction false} LayoutsLinesAt(above: seq<seq<OptToken>>, layouts: seq<Layout>, i: nat)
    requires i < |layouts|
    ensures LayoutsLines(above, layouts[i..]) ==
      match LayoutLines(above, layouts[i])
      case Err(e) => Err(e)
      case Ok(ls) => Then(ls, LayoutsLines(above, layouts[i + 1..]))
  {
    assert layouts[i..][0] == layouts[i] && layouts[i..][1..] == layouts[i + 1..];
  }

  /** The layout loop of a spread. */
  method RenderLayouts(above: seq<seq<OptToken>>, layouts: seq<Layout>) returns (r: Lines)
    ensures r == LayoutsLines(above, layouts)
  {
    var lines: seq<Line> := [];
    var i := 0;
    assert layouts[0..] == layouts;
    ThenNil(LayoutsLines(above, layouts));
    while i < |layouts|
      invariant 0 <= i <= |layouts|
      invariant LayoutsSoFar(above, layouts, i, lines)
    {
      LayoutsLinesAt(above, layouts, i);
      var p := RenderLayout(above, layouts[i]);
      if p.Err? {
        return Err(p.error);
      }
      ThenAssoc(lines, p.value, LayoutsLines(above, layouts[i + 1..]));
      lines := lines + p.value;
      i := i + 1;
    }
    assert layouts[i..] == [] && lines + [] == lines;
    r := Ok(lines);
  }

  /** The body of the spread loop. */
  method RenderSpread(above: seq<seq<OptToken>>, spread: Spread) returns (r: Lines)
    ensures r == SpreadLines(above, spread)
  {
    var so := OptsOf(spread.opts);
    var cls := OptsRender(so, true, true, false);
    var body := RenderLayouts(above + [so], spread.layouts);
    if body.Err? {
      return Err(body.error);
    }
    r := Ok([Open(SpreadDiv, cls)] + body.value + [Close(SpreadDiv)]);
  }

  predicate SpreadsSoFar(above: seq<seq<OptToken>>, spreads: seq<Spread>, i: nat, lines: seq<Line>)
    requires i <= |spreads|
  {
    SpreadsLines(above, spreads) == Then(lines, SpreadsLines(above, spreads[i..]))
  }

  lemma {:induction false} SpreadsLinesAt(above: seq<seq<OptToken>>, spreads: seq<Spread>, i: nat)
    requires i < |spreads|
    ensures SpreadsLines(above, spreads[i..]) ==
      match SpreadLines(above, spreads[i])
      case Err(e) => Err(e)
      case Ok(ls) => Then(ls, SpreadsLines(above, spreads[i + 1..]))
  {
    assert spreads[i..][0] == spreads[i] && spreads[i..][1..] == spreads[i + 1..];
  }

  /** The spread loop of a gallery. */
  method RenderSpreads(above: seq<seq<OptToken>>, spreads: seq<Spread>) returns (r: Lines)
    ensures r == SpreadsLines(above, spreads)
  {
    var lines: seq<Line> := [];
    var i := 0;
    assert spreads[0..] == spreads;
    ThenNil(SpreadsLines(above, spreads));
    while i < |spreads|
      invariant 0 <= i <= |spreads|
      invariant SpreadsSoFar(above, spreads, i, lines)
    {
      SpreadsLinesAt(above, spreads, i);
      var p := RenderSpread(above, spreads[i]);
      if p.Err? {
        return Err(p.error);
      }
      ThenAssoc(lines, p.value, SpreadsLines(above, spreads[i + 1..]));
      lines := lines + p.value;
      i := i + 1;
    }
    assert spreads[i..] == [] && lines + [] == lines;
    r := Ok(lines);
  }

  /** The body of the gallery loop. */
  method RenderGallery(above: seq<seq<OptToken>>, gallery: Gallery) returns (r: Lines)
    ensures r == GalleryLines(above, gallery)
  {
    var go := OptsOf(gallery.opts);
    var cls := OptsRender(go, true, true, false);
    var body := RenderSpreads(above + [go], gallery.spreads);
    if body.Err? {
      return Err(body.error);
    }
    r := Ok([Open(GalleryDiv, cls)] + body.value + [Close(GalleryDiv)]);
  }

  predicate GalleriesSoFar(above: seq<seq<OptToken>>, galleries: seq<Gallery>, i: nat, lines: seq<Line>)
    requires i <= |galleries|
  {
    GalleriesLines(above, galleries) == Then(lines, GalleriesLines(above, galleries[i..]))
  }

  lemma {:induction false} GalleriesLinesAt(above: seq<seq<OptToken>>, galleries: seq<Gallery>, i: nat)
    requires i < |galleries|
    ensures GalleriesLines(above, galleries[i..]) ==
      match GalleryLines(above, galleries[i])
      case Err(e) => Err(e)
      case Ok(ls) => Then(ls, GalleriesLines(above, galleries[i + 1..]))
  {
    assert galleries[i..][0] == galleries[i] && galleries[i..][1..] == galleries[i + 1..];
  }

  /** pobj_to_html5_ccs3_grid: the gallery loop under the document options. */
  method RenderDocument(doc: Document) returns (r: Lines)
    ensures r == DocumentLines(doc)
  {
    var above := [OptsOf(doc.opts)];
    var galleries := doc.galleries;
    var lines: seq<Line> := [];
    var i := 0;
    assert galleries[0..] == galleries;
    ThenNil(GalleriesLines(above, galleries));
    while i < |galleries|
      invariant 0 <= i <= |galleries|
      invariant GalleriesSoFar(above, galleries, i, lines)
    {
      GalleriesLinesAt(above, galleries, i);
      var p := RenderGallery(above, galleries[i]);
      if p.Err? {
        return Err(p.error);
      }
      ThenAssoc(lines, p.value, GalleriesLines(above, galleries[i + 1..]));
      lines := lines + p.value;
      i := i + 1;
    }
    assert galleries[i..] == [] && lines + [] == lines;
    r := Ok(lines);
  }

  // ---------------------------------------------------------------- numbering per layout

  /** The numbers of a layout's panelgroups run on from the counters the first one starts with. */
  lemma {:induction false} GroupsNumbers(above: seq<seq<OptToken>>, groups: seq<PanelGroup>, c: Counters)
    requires GroupsLines(above, groups, c).Ok?
    ensures Continues(GroupsLines(above, groups, c).value, c)
    decreases |groups|
  {
    if |groups| == 0 {
      assert Numbers([]) == [];
    } else {
      PanelGroupNumbers(above, groups[0], c);
      GroupsNumbers(above, groups[1..], PanelGroupLines(above, groups[0], c).value.1);
      PrependNumbers(GroupsLines(above, groups, c), PanelGroupLines(above, groups[0], c).value,
                     GroupsLines(above, groups[1..], PanelGroupLines(above, groups[0], c).value.1), c);
    }
  }

  /** The caption is absent or one caption line. */
  lemma {:induction false} CaptionShape(opts: seq<OptToken>)
    ensures forall i :: 0 <= i < |CaptionLines(opts)| ==> CaptionLines(opts)[i].Caption?
  {
  }

  /** Lines that are not panels carry no numbers. */
  lemma {:induction false} NumbersOfNoPanels(lines: seq<Line>)
    requires forall i :: 0 <= i < |lines| ==> !lines[i].Panel?
    ensures Numbers(lines) == []
  {
    if |lines| > 0 {
      var p := lines[..|lines| - 1];
      assert forall i :: 0 <= i < |p| ==> p[i] == lines[i];
      NumbersOfNoPanels(p);
    }
  }

  /** Lines without numbers before a run of panels leave its numbering as it is. */
  lemma {:induction false} PrefixNumbers(pre: seq<Line>, body: (seq<Line>, Counters), c: Counters)
    requires Numbers(pre) == [] && Continues(body, c)
    ensures Continues((pre + body.0, body.1), c)
  {
    NumbersAppend(pre, body.0);
    assert [] + Numbers(body.0) == Numbers(body.0);
  }

  lemma {:induction false} FirstNumbers(ns: seq<int>, base: int, n: int)
    requires base == 0 && ns == Range(base + 1, n + 1)
    ensures forall i :: 0 <= i < |ns| ==> ns[i] == i + 1
  {
    RangeIndex(base + 1, n + 1);
  }

  /** From zero counters the numbers are 1, 2, 3, ... */
  lemma {:induction false} FromZero(p: (seq<Line>, Counters), c: Counters)
    requires Base(c) == 0 && Continues(p, c)
    ensures forall i :: 0 <= i < |Numbers(p.0)| ==> Numbers(p.0)[i] == i + 1
  {
    FirstNumbers(Numbers(p.0), Base(c), Base(p.1));
  }

  /** Wrapping lines in a layout div and putting a caption before them adds no numbers. */
  lemma {:induction false} LayoutWrapNumbers(lines: seq<Line>, open: Line, cap: seq<Line>, body: (seq<Line>, Counters), close: Line, c: Counters)
    requires lines == [open] + (cap + body.0) + [close]
    requires !open.Panel? && !close.Panel? && forall i :: 0 <= i < |cap| ==> !cap[i].Panel?
    requires Base(c) == 0 && Continues(body, c)
    ensures forall i :: 0 <= i < |Numbers(lines)| ==> Numbers(lines)[i] == i + 1
  {
    NumbersOfNoPanels(cap);
    PrefixNumbers(cap, body, c);
    WrapNumbers(open, (cap + body.0, body.1), close, c);
    FromZero((lines, body.1), c);
  }

  /**
   * The counters start afresh in every layout: the numbered panels of a
   * layout are labelled 1, 2, 3, ... in order, a merged panel taking a run
   * of them and the blanks none.
   */
  lemma {:induction false} LayoutNumbering(above: seq<seq<OptToken>>, layout: Layout)
    requires LayoutLines(above, layout).Ok?
    ensures forall i :: 0 <= i < |Numbers(LayoutLines(above, layout).value)| ==>
      Numbers(LayoutLines(above, layout).value)[i] == i + 1
  {
    GroupsNumbers(above + [OptsOf(layout.opts)], layout.groups, Counters(0, 0));
    CaptionShape(OptsOf(layout.opts));
    LayoutWrapNumbers(LayoutLines(above, layout).value, Open(LayoutDiv, RenderDefault(OptsOf(layout.opts))),
                      CaptionLines(OptsOf(layout.opts)),
                      GroupsLines(above + [OptsOf(layout.opts)], layout.groups, Counters(0, 0)).value, Close(LayoutDiv),
                      Counters(0, 0));
  }

  // ---------------------------------------------------------------- divs per level

  lemma {:induction false} PrependDivs(r: Result<(seq<Line>, Counters), RenderError>, head: seq<Line>,
                    rest: Result<(seq<Line>, Counters), RenderError>, opening: bool)
    requires r == Prepend(head, rest) && rest.Ok?
    ensures r.Ok? && Divs(r.value.0, opening) == Plus(Divs(head, opening), Divs(rest.value.0, opening))
  {
    DivsAppend(head, rest.value.0, opening);
  }

  lemma {:induction false} ThenDivs(r: Lines, head: seq<Line>, rest: Lines, opening: bool)
    requires r == Then(head, rest) && rest.Ok?
    ensures r.Ok? && Divs(r.value, opening) == Plus(Divs(head, opening), Divs(rest.value, opening))
  {
    DivsAppend(head, rest.value, opening);
  }

  /** A panelgroup div around panels. */
  lemma {:induction false} WrapPanelGroup(lines: seq<Line>, body: seq<Line>, opening: bool)
    requires |lines| >= 2 && lines[0].Open? && lines[0].kind == PanelGroupDiv
    requires lines == [lines[0]] + body + [Close(PanelGroupDiv)] && AllPanels(body)
    ensures Divs(lines, opening) == KindDiv(PanelGroupDiv)
  {
    DivsOfNoDivs(body, opening);
    WrapLevel(lines, PanelGroupDiv, lines[0].cls, body, Zero, opening);
  }

  /** A rendered panelgroup opens and closes one panelgroup div and no other. */
  lemma {:induction false} PanelGroupDivs(above: seq<seq<OptToken>>, pg: PanelGroup, c: Counters, opening: bool)
    requires PanelGroupLines(above, pg, c).Ok?
    ensures Divs(PanelGroupLines(above, pg, c).value.0, opening) == KindDiv(PanelGroupDiv)
  {
    PanelGroupBody(above, pg, c);
    EmitCellsPanels(GroupCells(pg), c);
    WrapPanelGroup(PanelGroupLines(above, pg, c).value.0, EmitCells(GroupCells(pg), c).value.0, opening);
  }

  lemma {:induction false} GroupsDivs(above: seq<seq<OptToken>>, groups: seq<PanelGroup>, c: Counters, opening: bool)
    requires GroupsLines(above, groups, c).Ok?
    ensures Divs(GroupsLines(above, groups, c).value.0, opening) == Stats(0, 0, 0, |groups|)
    decreases |groups|
  {
    if |groups| > 0 {
      PanelGroupDivs(above, groups[0], c, opening);
      GroupsDivs(above, groups[1..], PanelGroupLines(above, groups[0], c).value.1, opening);
      PrependDivs(GroupsLines(above, groups, c), PanelGroupLines(above, groups[0], c).value.0,
                  GroupsLines(above, groups[1..], PanelGroupLines(above, groups[0], c).value.1), opening);
    }
  }

  /** A caption before lines adds no divs. */
  lemma {:induction false} CaptionBeforeDivs(cap: seq<Line>, body: seq<Line>, opening: bool)
    requires forall i :: 0 <= i < |cap| ==> cap[i].Caption?
    ensures Divs(cap + body, opening) == Divs(body, opening)
  {
    DivsOfNoDivs(cap, opening);
    DivsAppend(cap, body, opening);
  }

  /** A layout div around a caption and panelgroups. */
  lemma {:induction false} WrapLayout(lines: seq<Line>, cls: string, cap: seq<Line>, body: seq<Line>, inner: Stats, opening: bool)
    requires lines == [Open(LayoutDiv, cls)] + (cap + body) + [Close(LayoutDiv)]
    requires (forall i :: 0 <= i < |cap| ==> cap[i].Caption?) && Divs(body, opening) == inner
    ensures Divs(lines, opening) == Plus(KindDiv(LayoutDiv), inner)
  {
    CaptionBeforeDivs(cap, body, opening);
    WrapLevel(lines, LayoutDiv, cls, cap + body, inner, opening);
  }

  lemma {:induction false} LayoutShape(above: seq<seq<OptToken>>, layout: Layout)
    requires LayoutLines(above, layout).Ok?
    ensures GroupsLines(above + [OptsOf(layout.opts)], layout.groups, Counters(0, 0)).Ok?
    ensures LayoutLines(above, layout).value ==
      [Open(LayoutDiv, RenderDefault(OptsOf(layout.opts)))] +
      (CaptionLines(OptsOf(layout.opts)) + GroupsLines(above + [OptsOf(layout.opts)], layout.groups, Counters(0, 0)).value.0) +
      [Close(LayoutDiv)]
  {
  }

  lemma {:induction false} LayoutAround(lines: seq<Line>, lo: seq<OptToken>, body: seq<Line>, layout: Layout, opening: bool)
    requires lines == [Open(LayoutDiv, RenderDefault(lo))] + (CaptionLines(lo) + body) + [Close(LayoutDiv)]
    requires Divs(body, opening) == Stats(0, 0, 0, |layout.groups|)
    ensures Divs(lines, opening) == LayoutStats(layout)
  {
    CaptionShape(lo);
    WrapLayout(lines, RenderDefault(lo), CaptionLines(lo), body, Stats(0, 0, 0, |layout.groups|), opening);
  }

  /** A rendered layout holds one layout div and one div per panelgroup. */
  lemma {:induction false} LayoutDivs(above: seq<seq<OptToken>>, layout: Layout, opening: bool)
    requires LayoutLines(above, layout).Ok?
    ensures Divs(LayoutLines(above, layout).value, opening) == LayoutStats(layout)
  {
    LayoutShape(above, layout);
    var lo := OptsOf(layout.opts);
    GroupsDivs(above + [lo], layout.groups, Counters(0, 0), opening);
    LayoutAround(LayoutLines(above, layout).value, lo, GroupsLines(above + [lo], layout.groups, Counters(0, 0)).value.0,
                 layout, opening);
  }

  lemma {:induction false} LayoutsDivs(above: seq<seq<OptToken>>, layouts: seq<Layout>, opening: bool)
    requires LayoutsLines(above, layouts).Ok?
    ensures Divs(LayoutsLines(above, layouts).value, opening) == LayoutsStats(layouts)
    decreases |layouts|
  {
    if |layouts| > 0 {
      LayoutDivs(above, layouts[0], opening);
      LayoutsDivs(above, layouts[1..], opening);
      ThenDivs(LayoutsLines(above, layouts), LayoutLines(above, layouts[0]).value, LayoutsLines(above, layouts[1..]), opening);
    }
  }

  /** A rendered spread holds one spread div and the divs of its layouts. */
  lemma {:induction false} SpreadDivs(above: seq<seq<OptToken>>, spread: Spread, opening: bool)
    requires SpreadLines(above, spread).Ok?
    ensures Divs(SpreadLines(above, spread).value, opening) == SpreadStats(spread)
  {
    var so := OptsOf(spread.opts);
    LayoutsDivs(above + [so], spread.layouts, opening);
    WrapLevel(SpreadLines(above, spread).value, SpreadDiv, RenderDefault(so), LayoutsLines(above + [so], spread.layouts).value,
              LayoutsStats(spread.layouts), opening);
  }

  lemma {:induction false} SpreadsDivs(above: seq<seq<OptToken>>, spreads: seq<Spread>, opening: bool)
    requires SpreadsLines(above, spreads).Ok?
    ensures Divs(SpreadsLines(above, spreads).value, opening) == SpreadsStats(spreads)
    decreases |spreads|
  {
    if |spreads| > 0 {
      SpreadDivs(above, spreads[0], opening);
      SpreadsDivs(above, spreads[1..], opening);
      ThenDivs(SpreadsLines(above, spreads), SpreadLines(above, spreads[0]).value, SpreadsLines(above, spreads[1..]), opening);
    }
  }

  /** A rendered gallery holds one gallery div and the divs of its spreads. */
  lemma {:induction false} GalleryDivs(above: seq<seq<OptToken>>, gallery: Gallery, opening: bool)
    requires GalleryLines(above, gallery).Ok?
    ensures Divs(GalleryLines(above, gallery).value, opening) == GalleryStats(gallery)
  {
    var go := OptsOf(gallery.opts);
    SpreadsDivs(above + [go], gallery.spreads, opening);
    WrapLevel(GalleryLines(above, gallery).value, GalleryDiv, RenderDefault(go), SpreadsLines(above + [go], gallery.spreads).value,
              SpreadsStats(gallery.spreads), opening);
  }

  lemma {:induction false} GalleriesDivs(above: seq<seq<OptToken>>, galleries: seq<Gallery>, opening: bool)
    requires GalleriesLines(above, galleries).Ok?
    ensures Divs(GalleriesLines(above, galleries).value, opening) == GalleriesStats(galleries)
    decreases |galleries|
  {
    if |galleries| > 0 {
      GalleryDivs(above, galleries[0], opening);
      GalleriesDivs(above, galleries[1..], opening);
      ThenDivs(GalleriesLines(above, galleries), GalleryLines(above, galleries[0]).value, GalleriesLines(above, galleries[1..]), opening);
    }
  }

  /**
   * The rendered document opens, and closes, exactly as many divs of each
   * level as pobj_counts counts galleries, spreads, layouts and panelgroups.
   */
  lemma {:induction false} DocumentDivs(doc: Document, opening: bool)
    requires DocumentLines(doc).Ok?
    ensures Divs(DocumentLines(doc).value, opening) == DocStats(doc)
  {
    GalleriesDivs([OptsOf(doc.opts)], doc.galleries, opening);
  }
}
