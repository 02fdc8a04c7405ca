/**
 * The inequalities between the levels of panelcode that the repository's
 * tests state, proved on parse trees: two units joined by `+`, `,`, `_`,
 * `|`, `;` or `@` render six different documents, and two different units
 * joined above the row level do not commute.
 */
module LevelLaws {
  import opened Wrappers
  import opened Text
  import opened Options
  import opened Grammar
  import opened Grid
  import opened Numbering
  import opened Counts
  import opened GridRender
  import opened Laws

  // ---------------------------------------------------------------- documents without options

  /** Every option level is the default `['']`. */
  predicate NoOpts(levels: seq<seq<OptToken>>) {
    forall i :: 0 <= i < |levels| ==> levels[i] == [Bare("")]
  }

  lemma {:induction false} NoOptsSnoc(levels: seq<seq<OptToken>>)
    requires NoOpts(levels)
    ensures NoOpts(levels + [OptsOf(None)])
  {
  }

  /** With no `w` word at any level, the width search finds none and the width is derived. */
  lemma {:induction false} NoWidthFound(levels: seq<seq<OptToken>>)
    requires NoOpts(levels)
    ensures SearchWidth(levels) == Ok(0)
    decreases |levels|
  {
    if |levels| > 0 {
      assert !IsWidthWord(levels[0][0]);
      assert FirstW(levels[0]) == None;
      assert NoOpts(levels[1..]) by {
        forall i | 0 <= i < |levels| - 1 ensures levels[1..][i] == [Bare("")] {
          assert levels[1..][i] == levels[i + 1];
        }
      }
      NoWidthFound(levels[1..]);
    }
  }

  /** Under default options a panelgroup renders, whatever the counters. */
  ghost predicate RendersPlain(g: PanelGroup) {
    forall above, c :: NoOpts(above) ==> PanelGroupLines(above, g, c).Ok?
  }

  /** Under default options a panelgroup renders and opens with the class ` w<width>`. */
  ghost predicate PlainWidth(g: PanelGroup, w: int) {
    forall above, c :: NoOpts(above) ==>
      PanelGroupLines(above, g, c).Ok? && PanelGroupLines(above, g, c).value.0[0] == Open(PanelGroupDiv, " w" + IntToStr(w))
  }

  /** The render of a panelgroup without options, once its width is known. */
  lemma {:induction false} PlainGroupUnfold(above: seq<seq<OptToken>>, terms: seq<Term>, w: int, c: Counters)
    requires SearchWidth(above + [OptsOf(None)]) == Ok(0) && DerivedWidth(RowsOf(terms)) == Ok(w)
    requires EmitCells(Flatten(RowsOf(terms)), c).Ok?
    ensures PanelGroupLines(above, Plain(terms), c).Ok?
    ensures PanelGroupLines(above, Plain(terms), c).value.0[0] == Open(PanelGroupDiv, GroupClass([Bare("")], w).value)
  {
  }

  /** A panelgroup without options whose rows are well formed opens with the class of its derived width. */
  lemma {:induction false} PlainGroupLines(terms: seq<Term>, w: int)
    requires DerivedWidth(RowsOf(terms)) == Ok(w) && CountsOk(Flatten(RowsOf(terms)))
    ensures PlainWidth(Plain(terms), w) && RendersPlain(Plain(terms))
  {
    forall above, c | NoOpts(above)
      ensures PanelGroupLines(above, Plain(terms), c).Ok?
      ensures PanelGroupLines(above, Plain(terms), c).value.0[0] == Open(PanelGroupDiv, " w" + IntToStr(w))
    {
      PlainGroupUnder(above, terms, w, c);
    }
  }

  /** PlainGroupLines for one list of default option levels and one pair of counters. */
  lemma {:induction false} PlainGroupUnder(above: seq<seq<OptToken>>, terms: seq<Term>, w: int, c: Counters)
    requires NoOpts(above)
    requires DerivedWidth(RowsOf(terms)) == Ok(w) && CountsOk(Flatten(RowsOf(terms)))
    ensures PanelGroupLines(above, Plain(terms), c).Ok?
    ensures PanelGroupLines(above, Plain(terms), c).value.0[0] == Open(PanelGroupDiv, " w" + IntToStr(w))
  {
    assert GroupClass([Bare("")], w).value == " w" + IntToStr(w) by {
      assert "" + " w" + IntToStr(w) == " w" + IntToStr(w);
    }
    NoOptsSnoc(above);
    NoWidthFound(above + [OptsOf(None)]);
    EmitCellsOk(Flatten(RowsOf(terms)), c);
    PlainGroupUnfold(above, terms, w, c);
  }

  /** Panelgroups, and the levels above them, without options and rendering under default options. */
  ghost predicate PlainGroups(gs: seq<PanelGroup>) {
    forall i :: 0 <= i < |gs| ==> RendersPlain(gs[i])
  }

  ghost predicate PlainLayouts(ls: seq<Layout>) {
    forall i :: 0 <= i < |ls| ==> ls[i].opts == None && PlainGroups(ls[i].groups)
  }

  ghost predicate PlainSpreads(ss: seq<Spread>) {
    forall i :: 0 <= i < |ss| ==> ss[i].opts == None && PlainLayouts(ss[i].layouts)
  }

  ghost predicate PlainGalleries(gs: seq<Gallery>) {
    forall i :: 0 <= i < |gs| ==> gs[i].opts == None && PlainSpreads(gs[i].spreads)
  }

  lemma {:induction false} GroupsRender(above: seq<seq<OptToken>>, gs: seq<PanelGroup>, c: Counters)
    requires NoOpts(above) && PlainGroups(gs)
    ensures GroupsLines(above, gs, c).Ok?
    decreases |gs|
  {
    if |gs| > 0 {
      assert RendersPlain(gs[0]);
      var p := PanelGroupLines(above, gs[0], c);
      assert p.Ok?;
      assert PlainGroups(gs[1..]) by {
        forall i | 0 <= i < |gs| - 1 ensures RendersPlain(gs[1..][i]) {
          assert gs[1..][i] == gs[i + 1];
        }
      }
      GroupsRender(above, gs[1..], p.value.1);
    }
  }

  lemma {:induction false} LayoutsRender(above: seq<seq<OptToken>>, ls: seq<Layout>)
    requires NoOpts(above) && PlainLayouts(ls)
    ensures LayoutsLines(above, ls).Ok?
    decreases |ls|
  {
    if |ls| > 0 {
      NoOptsSnoc(above);
      GroupsRender(above + [OptsOf(None)], ls[0].groups, Counters(0, 0));
      assert PlainLayouts(ls[1..]) by {
        forall i | 0 <= i < |ls| - 1 ensures ls[1..][i].opts == None && PlainGroups(ls[1..][i].groups) {
          assert ls[1..][i] == ls[i + 1];
        }
      }
      LayoutsRender(above, ls[1..]);
    }
  }

  lemma {:induction false} SpreadsRender(above: seq<seq<OptToken>>, ss: seq<Spread>)
    requires NoOpts(above) && PlainSpreads(ss)
    ensures SpreadsLines(above, ss).Ok?
    decreases |ss|
  {
    if |ss| > 0 {
      NoOptsSnoc(above);
      LayoutsRender(above + [OptsOf(None)], ss[0].layouts);
      assert PlainSpreads(ss[1..]) by {
        forall i | 0 <= i < |ss| - 1 ensures ss[1..][i].opts == None && PlainLayouts(ss[1..][i].layouts) {
          assert ss[1..][i] == ss[i + 1];
        }
      }
      SpreadsRender(above, ss[1..]);
    }
  }

  lemma {:induction false} GalleriesRender(above: seq<seq<OptToken>>, gs: seq<Gallery>)
    requires NoOpts(above) && PlainGalleries(gs)
    ensures GalleriesLines(above, gs).Ok?
    decreases |gs|
  {
    if |gs| > 0 {
      NoOptsSnoc(above);
      SpreadsRender(above + [OptsOf(None)], gs[0].spreads);
      assert PlainGalleries(gs[1..]) by {
        forall i | 0 <= i < |gs| - 1 ensures gs[1..][i].opts == None && PlainSpreads(gs[1..][i].spreads) {
          assert gs[1..][i] == gs[i + 1];
        }
      }
      GalleriesRender(above, gs[1..]);
    }
  }

  /** A document without options whose panelgroups render under default options renders without error. */
  lemma {:induction false} DocumentRenders(d: Document)
    requires d.opts == None && PlainGalleries(d.galleries)
    ensures DocumentLines(d).Ok?
  {
    GalleriesRender([OptsOf(None)], d.galleries);
  }

  // ---------------------------------------------------------------- the first panelgroup

  lemma {:induction false} GalleriesHead(above: seq<seq<OptToken>>, gs: seq<Gallery>)
    requires GalleriesLines(above, gs).Ok? && |gs| > 0
    ensures GalleryLines(above, gs[0]).Ok? && GalleryLines(above, gs[0]).value <= GalleriesLines(above, gs).value
  {
  }

  lemma {:induction false} SpreadsHead(above: seq<seq<OptToken>>, ss: seq<Spread>)
    requires SpreadsLines(above, ss).Ok? && |ss| > 0
    ensures SpreadLines(above, ss[0]).Ok? && SpreadLines(above, ss[0]).value <= SpreadsLines(above, ss).value
  {
  }

  lemma {:induction false} LayoutsHead(above: seq<seq<OptToken>>, ls: seq<Layout>)
    requires LayoutsLines(above, ls).Ok? && |ls| > 0
    ensures LayoutLines(above, ls[0]).Ok? && LayoutLines(above, ls[0]).value <= LayoutsLines(above, ls).value
  {
  }

  lemma {:induction false} GroupsHead(above: seq<seq<OptToken>>, gs: seq<PanelGroup>, c: Counters)
    requires GroupsLines(above, gs, c).Ok? && |gs| > 0
    ensures PanelGroupLines(above, gs[0], c).Ok? && PanelGroupLines(above, gs[0], c).value.0 <= GroupsLines(above, gs, c).value.0
  {
  }

  /** A layout without options has no caption. */
  lemma {:induction false} NoCaption()
    ensures CaptionLines(OptsOf(None)) == []
  {
    assert [Bare("")][..0] == [];
    assert KvExprsOf([Bare("")]) == [];
  }

  /** The lines before the second one are its first line. */
  lemma {:induction false} Shifted(outer: seq<Line>, first: Line, inner: seq<Line>, last: Line, k: nat)
    requires outer == [first] + inner + [last] && k < |inner|
    ensures outer[k + 1] == inner[k]
  {
  }

  /**
   * The fourth line of a rendered document, after the gallery, spread and
   * layout divs, opens its first panelgroup (when the first layout has no
   * caption).
   */
  lemma {:induction false} FirstGroupLine(d: Document)
    requires DocumentLines(d).Ok?
    requires |d.galleries| > 0 && |d.galleries[0].spreads| > 0 && |d.galleries[0].spreads[0].layouts| > 0
    requires d.galleries[0].spreads[0].layouts[0].opts == None && |d.galleries[0].spreads[0].layouts[0].groups| > 0
    ensures var g := d.galleries[0];
      var s := g.spreads[0];
      var l := s.layouts[0];
      var above := [OptsOf(d.opts), OptsOf(g.opts), OptsOf(s.opts), OptsOf(None)];
      PanelGroupLines(above, l.groups[0], Counters(0, 0)).Ok? &&
      |DocumentLines(d).value| > 3 && DocumentLines(d).value[3] == PanelGroupLines(above, l.groups[0], Counters(0, 0)).value.0[0]
  {
    var g := d.galleries[0];
    var s := g.spreads[0];
    var l := s.layouts[0];
    var a1 := [OptsOf(d.opts)];
    var a2 := a1 + [OptsOf(g.opts)];
    var a3 := a2 + [OptsOf(s.opts)];
    var a4 := a3 + [OptsOf(l.opts)];
    GalleriesHead(a1, d.galleries);
    var gl := GalleryLines(a1, g).value;
    var sl := SpreadsLines(a2, g.spreads).value;
    SpreadsHead(a2, g.spreads);
    var sp := SpreadLines(a2, s).value;
    var ll := LayoutsLines(a3, s.layouts).value;
    LayoutsHead(a3, s.layouts);
    var ly := LayoutLines(a3, l).value;
    NoCaption();
    var body := GroupsLines(a4, l.groups, Counters(0, 0)).value.0;
    assert ly == [Open(LayoutDiv, RenderDefault(OptsOf(None)))] + ([] + body) + [Close(LayoutDiv)];
    GroupsHead(a4, l.groups, Counters(0, 0));
    var pg := PanelGroupLines(a4, l.groups[0], Counters(0, 0)).value.0;
    PanelGroupBody(a4, l.groups[0], Counters(0, 0));
    assert body[0] == pg[0];
    assert [] + body == body;
    Shifted(ly, Open(LayoutDiv, RenderDefault(OptsOf(None))), body, Close(LayoutDiv), 0);
    assert ll[1] == ly[1];
    Shifted(sp, Open(SpreadDiv, RenderDefault(OptsOf(s.opts))), ll, Close(SpreadDiv), 1);
    assert sl[2] == sp[2];
    Shifted(gl, Open(GalleryDiv, RenderDefault(OptsOf(g.opts))), sl, Close(GalleryDiv), 2);
    assert a4 == [OptsOf(d.opts), OptsOf(g.opts), OptsOf(s.opts), OptsOf(None)];
  }

  // ---------------------------------------------------------------- the six levels

  /** The terms `a,b`. */
  function RowTerms(a: nat, b: nat): seq<Term> {
    [PlainUnit(a), NewRow, PlainUnit(b)]
  }

  function Single(n: nat): PanelGroup {
    Plain([PlainUnit(n)])
  }

  /** The level at which two units are joined: `+`, `,`, `_`, `|`, `;`, `@`. */
  datatype Level = ColLevel | RowLevel | GroupLevel | LayoutLevel | SpreadLevel | GalleryLevel

  function LayoutOf(gs: seq<PanelGroup>): Layout { Layout(gs, None) }
  function SpreadOf(ls: seq<Layout>): Spread { Spread(ls, None) }
  function GalleryOf(ss: seq<Spread>): Gallery { Gallery(ss, None) }

  /** The parse tree of two plain units `a` and `b` joined at the given level. */
  function Joined(lvl: Level, a: nat, b: nat): Document {
    match lvl
    case ColLevel => OneLayout([Plain(SumTerms(a, b))])
    case RowLevel => OneLayout([Plain(RowTerms(a, b))])
    case GroupLevel => OneLayout([Single(a), Single(b)])
    case LayoutLevel => Document([GalleryOf([SpreadOf([LayoutOf([Single(a)]), LayoutOf([Single(b)])])])], None)
    case SpreadLevel => Document([GalleryOf([SpreadOf([LayoutOf([Single(a)])]), SpreadOf([LayoutOf([Single(b)])])])], None)
    case GalleryLevel => Document([GalleryOf([SpreadOf([LayoutOf([Single(a)])])]), GalleryOf([SpreadOf([LayoutOf([Single(b)])])])], None)
  }

  /** How many galleries, spreads, layouts and panelgroups each joined pair holds. */
  function LevelStats(lvl: Level): Stats {
    match lvl
    case ColLevel => Stats(1, 1, 1, 1)
    case RowLevel => Stats(1, 1, 1, 1)
    case GroupLevel => Stats(1, 1, 1, 2)
    case LayoutLevel => Stats(1, 1, 2, 2)
    case SpreadLevel => Stats(1, 2, 2, 2)
    case GalleryLevel => Stats(2, 2, 2, 2)
  }

  /** The width of the first panelgroup of a joined pair. */
  function FirstWidth(lvl: Level, a: nat, b: nat): nat {
    match lvl
    case ColLevel => a + b
    case RowLevel => if b > a then b else a
    case _ => a
  }

  lemma {:induction false} SingleWidth(n: nat)
    requires n >= 1
    ensures PlainWidth(Single(n), n)
  {
    OneRow(n);
    OneWidth(n);
    PlainCells(n);
    assert Flatten([[PlainCell(n)]]) == [PlainCell(n)];
    PlainGroupLines([PlainUnit(n)], n);
  }

  lemma {:induction false} SumGroupWidth(a: nat, b: nat)
    requires a >= 1 && b >= 1
    ensures PlainWidth(Plain(SumTerms(a, b)), a + b)
  {
    SumRows(a, b);
    SumWidth(a, b, a + b);
    PlainCellFacts(a);
    PlainCellFacts(b);
    assert Flatten([[PlainCell(a), PlainCell(b)]]) == [PlainCell(a), PlainCell(b)];
    PlainGroupLines(SumTerms(a, b), a + b);
  }

  /** The rows of `a,b`: two rows of one unit each. */
  lemma {:induction false} RowRows(a: nat, b: nat)
    requires a >= 1 && b >= 1
    ensures RowsOf(RowTerms(a, b)) == [[PlainCell(a)], [PlainCell(b)]]
  {
    PlainCellFacts(b);
    var t := RowTerms(a, b);
    OneRow(a);
    assert t[..1] == [PlainUnit(a)];
    var r1 := [[PlainCell(a)]];
    assert t[..2][..1] == t[..1] && t[..2][1] == NewRow;
    var r2 := r1 + [[]];
    assert RowsOf(t[..2]) == AddTerm(r1, NewRow) == r2;
    assert t[..|t| - 1] == t[..2] && t[|t| - 1] == PlainUnit(b);
    assert RowsOf(t) == AddTerm(r2, PlainUnit(b));
    assert AddTerm(r2, PlainUnit(b)) == r2[..1] + [r2[1] + [PlainCell(b)]];
    assert r2[..1] == r1 && r2[1] == [];
    assert [] + [PlainCell(b)] == [PlainCell(b)];
  }

  /** A row of one plain unit is as long as its count. */
  lemma {:induction false} PlainRowLen(n: nat)
    requires n >= 1
    ensures CountsOk([PlainCell(n)]) && RowLen([PlainCell(n)]) == n
  {
    PlainCellFacts(n);
    assert [PlainCell(n)][..0] == [];
    assert CellLen(PlainCell(n)) == n;
  }

  lemma {:induction false} FlattenTwo(x: Cell, y: Cell)
    ensures Flatten([[x], [y]]) == [x, y]
  {
    var rows := [[x], [y]];
    assert rows[1..] == [[y]] && rows[1..][1..] == [];
    assert Flatten([[y]]) == [y] + Flatten([]);
  }

  /** `a,b` is as wide as its wider row. */
  lemma {:induction false} RowWidth(a: nat, b: nat)
    requires a >= 1 && b >= 1
    ensures DerivedWidth([[PlainCell(a)], [PlainCell(b)]]) == Ok(if b > a then b else a)
  {
    PlainCellFacts(a);
    PlainCellFacts(b);
    var rows := [[PlainCell(a)], [PlainCell(b)]];
    PlainRowLen(a);
    PlainRowLen(b);
    assert AllCountsOk(rows);
    assert RowLens(rows) == [a, b];
    assert [a, b][..1] == [a];
    assert MaxOr([a], 0) == a;
    assert MaxOr([a, b], 0) == if b > a then b else a;
    assert DerivedWidth(rows) == Ok(MaxOr(RowLens(rows), 0));
  }

  lemma {:induction false} RowGroupWidth(a: nat, b: nat)
    requires a >= 1 && b >= 1
    ensures PlainWidth(Plain(RowTerms(a, b)), if b > a then b else a)
  {
    RowRows(a, b);
    RowWidth(a, b);
    PlainCellFacts(a);
    PlainCellFacts(b);
    FlattenTwo(PlainCell(a), PlainCell(b));
    PlainGroupLines(RowTerms(a, b), if b > a then b else a);
  }

  /** The panelgroups of every joined pair render under default options. */
  lemma {:induction false} JoinedPlain(lvl: Level, a: nat, b: nat)
    requires a >= 1 && b >= 1
    ensures Joined(lvl, a, b).opts == None && PlainGalleries(Joined(lvl, a, b).galleries)
  {
    SingleWidth(a);
    SingleWidth(b);
    match lvl
    case ColLevel =>
      SumGroupWidth(a, b);
      assert PlainGroups([Plain(SumTerms(a, b))]);
    case RowLevel =>
      RowGroupWidth(a, b);
      assert PlainGroups([Plain(RowTerms(a, b))]);
    case GroupLevel =>
      assert PlainGroups([Single(a), Single(b)]);
    case LayoutLevel =>
      assert PlainGroups([Single(a)]) && PlainGroups([Single(b)]);
      assert PlainLayouts([LayoutOf([Single(a)]), LayoutOf([Single(b)])]);
    case SpreadLevel =>
      assert PlainGroups([Single(a)]) && PlainGroups([Single(b)]);
      assert PlainLayouts([LayoutOf([Single(a)])]) && PlainLayouts([LayoutOf([Single(b)])]);
      assert PlainSpreads([SpreadOf([LayoutOf([Single(a)])]), SpreadOf([LayoutOf([Single(b)])])]);
    case GalleryLevel =>
      assert PlainGroups([Single(a)]) && PlainGroups([Single(b)]);
      assert PlainLayouts([LayoutOf([Single(a)])]) && PlainLayouts([LayoutOf([Single(b)])]);
      assert PlainSpreads([SpreadOf([LayoutOf([Single(a)])])]) && PlainSpreads([SpreadOf([LayoutOf([Single(b)])])]);
  }

  /** Two units joined at any level render without error. */
  lemma {:induction false} JoinedRenders(lvl: Level, a: nat, b: nat)
    requires a >= 1 && b >= 1
    ensures DocumentLines(Joined(lvl, a, b)).Ok?
  {
    JoinedPlain(lvl, a, b);
    DocumentRenders(Joined(lvl, a, b));
  }

  /** The counts of one layout, spread or gallery without options. */
  lemma {:induction false} OneLayoutStats(gs: seq<PanelGroup>)
    ensures LayoutsStats([LayoutOf(gs)]) == Stats(0, 0, 1, |gs|)
  {
    assert [LayoutOf(gs)][1..] == [];
  }

  lemma {:induction false} OneSpreadStats(ls: seq<Layout>)
    ensures SpreadsStats([SpreadOf(ls)]) == Plus(Stats(0, 1, 0, 0), LayoutsStats(ls))
  {
    assert [SpreadOf(ls)][1..] == [];
  }

  lemma {:induction false} OneGalleryStats(ss: seq<Spread>)
    ensures GalleriesStats([GalleryOf(ss)]) == Plus(Stats(1, 0, 0, 0), SpreadsStats(ss))
  {
    assert [GalleryOf(ss)][1..] == [];
  }

  /** The counts of two layouts, spreads or galleries. */
  lemma {:induction false} TwoLayoutsStats(x: Layout, y: Layout)
    ensures LayoutsStats([x, y]) == Plus(LayoutStats(x), LayoutsStats([y]))
  {
    assert [x, y][1..] == [y];
  }

  lemma {:induction false} TwoSpreadsStats(x: Spread, y: Spread)
    ensures SpreadsStats([x, y]) == Plus(SpreadStats(x), SpreadsStats([y]))
  {
    assert [x, y][1..] == [y];
  }

  lemma {:induction false} TwoGalleriesStats(x: Gallery, y: Gallery)
    ensures GalleriesStats([x, y]) == Plus(GalleryStats(x), GalleriesStats([y]))
  {
    assert [x, y][1..] == [y];
  }

  /** A layout, spread and gallery around one panelgroup. */
  lemma {:induction false} SingleStats(g: PanelGroup)
    ensures LayoutsStats([LayoutOf([g])]) == Stats(0, 0, 1, 1)
    ensures SpreadsStats([SpreadOf([LayoutOf([g])])]) == Stats(0, 1, 1, 1)
    ensures GalleriesStats([GalleryOf([SpreadOf([LayoutOf([g])])])]) == Stats(1, 1, 1, 1)
  {
    OneLayoutStats([g]);
    OneSpreadStats([LayoutOf([g])]);
    OneGalleryStats([SpreadOf([LayoutOf([g])])]);
  }

  /** One layout holding the given panelgroups, as OneLayout builds it. */
  lemma {:induction false} OneLayoutDocStats(gs: seq<PanelGroup>)
    ensures DocStats(OneLayout(gs)) == Stats(1, 1, 1, |gs|)
  {
    OneLayoutStats(gs);
    OneSpreadStats([LayoutOf(gs)]);
    OneGalleryStats([SpreadOf([LayoutOf(gs)])]);
  }

  lemma {:induction false} LayoutLevelStats(x: PanelGroup, y: PanelGroup)
    ensures DocStats(Document([GalleryOf([SpreadOf([LayoutOf([x]), LayoutOf([y])])])], None)) == Stats(1, 1, 2, 2)
  {
    SingleStats(y);
    TwoLayoutsStats(LayoutOf([x]), LayoutOf([y]));
    OneSpreadStats([LayoutOf([x]), LayoutOf([y])]);
    OneGalleryStats([SpreadOf([LayoutOf([x]), LayoutOf([y])])]);
  }

  lemma {:induction false} SpreadsSingleton(s: Spread)
    ensures SpreadsStats([s]) == Plus(SpreadStats(s), Zero)
  {
    assert [s][1..] == [] && [s][0] == s;
  }

  lemma {:induction false} TwoSpreadsDoc(sx: Spread, sy: Spread)
    requires SpreadStats(sx) == Stats(0, 1, 1, 1) && SpreadStats(sy) == Stats(0, 1, 1, 1)
    ensures DocStats(Document([GalleryOf([sx, sy])], None)) == Stats(1, 2, 2, 2)
  {
    SpreadsSingleton(sy);
    var one := SpreadsStats([sy]);
    TwoSpreadsStats(sx, sy);
    var both := SpreadsStats([sx, sy]);
    assert both == Plus(SpreadStats(sx), one);
    assert both == Stats(0, 2, 2, 2);
    OneGalleryStats([sx, sy]);
  }

  lemma {:induction false} SpreadLevelStats(x: PanelGroup, y: PanelGroup)
    ensures DocStats(Document([GalleryOf([SpreadOf([LayoutOf([x])]), SpreadOf([LayoutOf([y])])])], None)) == Stats(1, 2, 2, 2)
  {
    OneLayoutStats([x]);
    OneLayoutStats([y]);
    TwoSpreadsDoc(SpreadOf([LayoutOf([x])]), SpreadOf([LayoutOf([y])]));
  }

  lemma {:induction false} GalleryLevelStats(x: PanelGroup, y: PanelGroup)
    ensures DocStats(Document([GalleryOf([SpreadOf([LayoutOf([x])])]), GalleryOf([SpreadOf([LayoutOf([y])])])], None)) == Stats(2, 2, 2, 2)
  {
    SingleStats(x);
    SingleStats(y);
    TwoGalleriesStats(GalleryOf([SpreadOf([LayoutOf([x])])]), GalleryOf([SpreadOf([LayoutOf([y])])]));
  }

  /** What pobj_counts counts in each joined pair. */
  lemma {:induction false} JoinedStats(lvl: Level, a: nat, b: nat)
    ensures DocStats(Joined(lvl, a, b)) == LevelStats(lvl)
  {
    match lvl
    case ColLevel => OneLayoutDocStats([Plain(SumTerms(a, b))]);
    case RowLevel => OneLayoutDocStats([Plain(RowTerms(a, b))]);
    case GroupLevel => OneLayoutDocStats([Single(a), Single(b)]);
    case LayoutLevel => LayoutLevelStats(Single(a), Single(b));
    case SpreadLevel => SpreadLevelStats(Single(a), Single(b));
    case GalleryLevel => GalleryLevelStats(Single(a), Single(b));
  }

  /** The first panelgroup of a joined pair opens with the class of its width. */
  lemma {:induction false} JoinedFirstLine(lvl: Level, a: nat, b: nat)
    requires a >= 1 && b >= 1
    ensures DocumentLines(Joined(lvl, a, b)).Ok? && |DocumentLines(Joined(lvl, a, b)).value| > 3
    ensures DocumentLines(Joined(lvl, a, b)).value[3] == Open(PanelGroupDiv, " w" + IntToStr(FirstWidth(lvl, a, b)))
  {
    JoinedRenders(lvl, a, b);
    var d := Joined(lvl, a, b);
    FirstOfJoined(lvl, a, b);
    FirstGroupLine(d);
    var above := [OptsOf(None), OptsOf(None), OptsOf(None), OptsOf(None)];
    assert NoOpts(above);
  }

  /** The first panelgroup of a joined pair, in its first layout, spread and gallery, none with options. */
  lemma {:induction false} FirstOfJoined(lvl: Level, a: nat, b: nat)
    requires a >= 1 && b >= 1
    ensures var d := Joined(lvl, a, b);
      d.opts == None && |d.galleries| > 0 && d.galleries[0].opts == None &&
      |d.galleries[0].spreads| > 0 && d.galleries[0].spreads[0].opts == None &&
      |d.galleries[0].spreads[0].layouts| > 0 && d.galleries[0].spreads[0].layouts[0].opts == None &&
      |d.galleries[0].spreads[0].layouts[0].groups| > 0 &&
      PlainWidth(d.galleries[0].spreads[0].layouts[0].groups[0], FirstWidth(lvl, a, b))
  {
    match lvl
    case ColLevel => SumGroupWidth(a, b);
    case RowLevel => RowGroupWidth(a, b);
    case _ => SingleWidth(a);
  }

  /** Width classes of different widths differ. */
  lemma {:induction false} WidthClassesDiffer(m: nat, n: nat)
    requires m != n
    ensures " w" + IntToStr(m) != " w" + IntToStr(n)
  {
    var x := " w" + IntToStr(m);
    var y := " w" + IntToStr(n);
    assert x[2..] == NatToStr(m) && y[2..] == NatToStr(n);
    assert DigitsValue(NatToStr(m)) != DigitsValue(NatToStr(n));
  }

  /**
   * `1+1`, `1,1`, `1_1`, `1|1`, `1;1` and `1@1` render six different
   * documents (tests.py, test_level_inequalities), for any two units: the
   * four upper levels hold different numbers of divs, and `a+b` is wider
   * than `a,b`.
   */
  lemma {:induction false} LevelInequality(l1: Level, l2: Level, a: nat, b: nat)
    requires l1 != l2 && a >= 1 && b >= 1
    ensures DocumentLines(Joined(l1, a, b)) != DocumentLines(Joined(l2, a, b))
  {
    JoinedRenders(l1, a, b);
    JoinedRenders(l2, a, b);
    var d1 := Joined(l1, a, b);
    var d2 := Joined(l2, a, b);
    if LevelStats(l1) != LevelStats(l2) {
      DocumentDivs(d1, true);
      DocumentDivs(d2, true);
      JoinedStats(l1, a, b);
      JoinedStats(l2, a, b);
    } else {
      assert {l1, l2} == {ColLevel, RowLevel};
      JoinedFirstLine(l1, a, b);
      JoinedFirstLine(l2, a, b);
      WidthClassesDiffer(FirstWidth(l1, a, b), FirstWidth(l2, a, b));
    }
  }

  /**
   * `1;2` does not render as `2;1`, nor `1|2` as `2|1`, nor `1@2` as `2@1`,
   * nor `1_2` as `2_1` (tests.py, test_levels_non_commutative): the first
   * panelgroup is as wide as the first unit.
   */
  lemma {:induction false} LevelNonCommutative(lvl: Level, a: nat, b: nat)
    requires lvl != ColLevel && lvl != RowLevel && a >= 1 && b >= 1 && a != b
    ensures DocumentLines(Joined(lvl, a, b)) != DocumentLines(Joined(lvl, b, a))
  {
    JoinedFirstLine(lvl, a, b);
    JoinedFirstLine(lvl, b, a);
    WidthClassesDiffer(a, b);
  }

  /** `a,b` renders as `b,a`: the rows are only seen through the widest of them and the panels in order. */
  lemma {:induction false} RowCommutative(a: nat, b: nat, opts: Option<seq<OptToken>>)
    requires a >= 1 && b >= 1
    ensures RendersAlike(PanelGroup(Some(RowTerms(a, b)), opts), PanelGroup(Some(RowTerms(b, a)), opts))
  {
    RowRows(a, b);
    RowRows(b, a);
    RowWidth(a, b);
    RowWidth(b, a);
    var rab := [[PlainCell(a)], [PlainCell(b)]];
    var rba := [[PlainCell(b)], [PlainCell(a)]];
    FlattenTwo(PlainCell(a), PlainCell(b));
    FlattenTwo(PlainCell(b), PlainCell(a));
    forall above, c
      ensures PanelGroupLines(above, PanelGroup(Some(RowTerms(a, b)), opts), c) ==
              PanelGroupLines(above, PanelGroup(Some(RowTerms(b, a)), opts), c)
    {
      SumCells(a, b, a + b, c);
      SumCells(b, a, a + b, c);
      SameRender(above, RowTerms(a, b), RowTerms(b, a), opts, c);
    }
  }
}
