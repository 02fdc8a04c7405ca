/**
 * How many galleries, spreads, layouts and panelgroups a parsed document
 * holds: the statistics of `pobj_counts`, and the number of divs of each
 * level the renderers open.
 */
module Counts {
  import opened Grammar
  import opened Grid
  import opened Numbering

  /** The counts dictionary `{'galleries', 'spreads', 'layouts', 'panelgroups'}`. */
  datatype Stats = Stats(galleries: int, spreads: int, layouts: int, panelgroups: int)

  const Zero := Stats(0, 0, 0, 0)

  function Plus(a: Stats, b: Stats): Stats {
    Stats(a.galleries + b.galleries, a.spreads + b.spreads, a.layouts + b.layouts, a.panelgroups + b.panelgroups)
  }

  /** One layout and its panelgroups. */
  function LayoutStats(l: Layout): Stats {
    Stats(0, 0, 1, |l.groups|)
  }

  function LayoutsStats(ls: seq<Layout>): Stats
    decreases |ls|
  {
    if |ls| == 0 then Zero else Plus(LayoutStats(ls[0]), LayoutsStats(ls[1..]))
  }

  /** One spread and everything inside it. */
  function SpreadStats(s: Spread): Stats {
    Plus(Stats(0, 1, 0, 0), LayoutsStats(s.layouts))
  }

  function SpreadsStats(ss: seq<Spread>): Stats
    decreases |ss|
  {
    if |ss| == 0 then Zero else Plus(SpreadStats(ss[0]), SpreadsStats(ss[1..]))
  }

  /** One gallery and everything inside it. */
  function GalleryStats(g: Gallery): Stats {
    Plus(Stats(1, 0, 0, 0), SpreadsStats(g.spreads))
  }

  function GalleriesStats(gs: seq<Gallery>): Stats
    decreases |gs|
  {
    if |gs| == 0 then Zero else Plus(GalleryStats(gs[0]), GalleriesStats(gs[1..]))
  }

  function DocStats(d: Document): Stats {
    GalleriesStats(d.galleries)
  }

  /** The number of layouts of a spread is the length of its layout list. */
  lemma {:induction false} LayoutsStatsShape(ls: seq<Layout>)
    ensures LayoutsStats(ls).galleries == 0 && LayoutsStats(ls).spreads == 0
    ensures LayoutsStats(ls).layouts == |ls|
  {
    if |ls| > 0 {
      LayoutsStatsShape(ls[1..]);
    }
  }

  /** The number of spreads of a gallery is the length of its spread list. */
  lemma {:induction false} SpreadsStatsShape(ss: seq<Spread>)
    ensures SpreadsStats(ss).galleries == 0 && SpreadsStats(ss).spreads == |ss|
  {
    if |ss| > 0 {
      LayoutsStatsShape(ss[0].layouts);
      SpreadsStatsShape(ss[1..]);
    }
  }

  /** The number of galleries of a document is the length of its gallery list. */
  lemma {:induction false} GalleriesStatsShape(gs: seq<Gallery>)
    ensures GalleriesStats(gs).galleries == |gs|
  {
    if |gs| > 0 {
      SpreadsStatsShape(gs[0].spreads);
      GalleriesStatsShape(gs[1..]);
    }
  }

  lemma {:induction false} LayoutsStatsAt(ls: seq<Layout>, i: nat)
    requires i < |ls|
    ensures LayoutsStats(ls[i..]) == Plus(LayoutStats(ls[i]), LayoutsStats(ls[i + 1..]))
  {
    assert ls[i..][1..] == ls[i + 1..];
  }

  lemma {:induction false} SpreadsStatsAt(ss: seq<Spread>, i: nat)
    requires i < |ss|
    ensures SpreadsStats(ss[i..]) == Plus(SpreadStats(ss[i]), SpreadsStats(ss[i + 1..]))
  {
    assert ss[i..][1..] == ss[i + 1..];
  }

  lemma {:induction false} GalleriesStatsAt(gs: seq<Gallery>, i: nat)
    requires i < |gs|
    ensures GalleriesStats(gs[i..]) == Plus(GalleryStats(gs[i]), GalleriesStats(gs[i + 1..]))
  {
    assert gs[i..][1..] == gs[i + 1..];
  }

  /** The innermost loop of pobj_counts: the panelgroups of the layouts of one spread. */
  method CountLayouts(layouts: seq<Layout>) returns (groups: int)
    ensures groups == LayoutsStats(layouts).panelgroups
  {
    groups := 0;
    var i := 0;
    while i < |layouts|
      invariant 0 <= i <= |layouts|
      invariant groups + LayoutsStats(layouts[i..]).panelgroups == LayoutsStats(layouts).panelgroups
    {
      LayoutsStatsAt(layouts, i);
      groups := groups + |layouts[i].groups|;
      i := i + 1;
    }
  }

  /** The spread loop after `i` spreads: the counts so far plus those of the rest are the totals. */
  predicate SpreadsSoFar(spreads: seq<Spread>, i: nat, layouts: int, groups: int)
    requires i <= |spreads|
  {
    layouts + SpreadsStats(spreads[i..]).layouts == SpreadsStats(spreads).layouts &&
    groups + SpreadsStats(spreads[i..]).panelgroups == SpreadsStats(spreads).panelgroups
  }

  lemma {:induction false} SpreadsStep(spreads: seq<Spread>, i: nat, layouts: int, groups: int)
    requires i < |spreads| && SpreadsSoFar(spreads, i, layouts, groups)
    ensures SpreadsSoFar(spreads, i + 1, layouts + |spreads[i].layouts|,
                         groups + LayoutsStats(spreads[i].layouts).panelgroups)
  {
    SpreadsStatsAt(spreads, i);
    LayoutsStatsShape(spreads[i].layouts);
  }

  /** The spread loop of pobj_counts: the layouts of each spread, then their panelgroups. */
  method CountSpreads(spreads: seq<Spread>) returns (layouts: int, groups: int)
    ensures layouts == SpreadsStats(spreads).layouts
    ensures groups == SpreadsStats(spreads).panelgroups
  {
    layouts, groups := 0, 0;
    var i := 0;
    while i < |spreads|
      invariant 0 <= i <= |spreads|
      invariant SpreadsSoFar(spreads, i, layouts, groups)
    {
      SpreadsStep(spreads, i, layouts, groups);
      layouts := layouts + |spreads[i].layouts|;
      var g := CountLayouts(spreads[i].layouts);
      groups := groups + g;
      i := i + 1;
    }
  }

  /** The gallery loop after `i` galleries. */
  predicate GalleriesSoFar(gs: seq<Gallery>, i: nat, spreads: int, layouts: int, groups: int)
    requires i <= |gs|
  {
    spreads + GalleriesStats(gs[i..]).spreads == GalleriesStats(gs).spreads &&
    layouts + GalleriesStats(gs[i..]).layouts == GalleriesStats(gs).layouts &&
    groups + GalleriesStats(gs[i..]).panelgroups == GalleriesStats(gs).panelgroups
  }

  lemma {:induction false} GalleriesStep(gs: seq<Gallery>, i: nat, spreads: int, layouts: int, groups: int)
    requires i < |gs| && GalleriesSoFar(gs, i, spreads, layouts, groups)
    ensures GalleriesSoFar(gs, i + 1, spreads + |gs[i].spreads|,
                           layouts + SpreadsStats(gs[i].spreads).layouts,
                           groups + SpreadsStats(gs[i].spreads).panelgroups)
  {
    GalleriesStatsAt(gs, i);
    SpreadsStatsShape(gs[i].spreads);
  }

  /** At the end of the gallery loop the counts are the totals. */
  lemma {:induction false} GalleriesDone(gs: seq<Gallery>, spreads: int, layouts: int, groups: int)
    requires GalleriesSoFar(gs, |gs|, spreads, layouts, groups)
    ensures Stats(|gs|, spreads, layouts, groups) == GalleriesStats(gs)
  {
    GalleriesStatsShape(gs);
    assert gs[|gs|..] == [];
    assert GalleriesStats([]) == Zero;
  }

  /**
   * pobj_counts: the galleries are counted by the length of their list,
   * then every level adds the length of the list below it.
   */
  method PobjCounts(d: Document) returns (s: Stats)
    ensures s == DocStats(d)
  {
    var galleries := d.galleries;
    var spreads, layouts, groups := 0, 0, 0;
    var i := 0;
    while i < |galleries|
      invariant 0 <= i <= |galleries|
      invariant GalleriesSoFar(galleries, i, spreads, layouts, groups)
    {
      GalleriesStep(galleries, i, spreads, layouts, groups);
      spreads := spreads + |galleries[i].spreads|;
      var l, g := CountSpreads(galleries[i].spreads);
      layouts, groups := layouts + l, groups + g;
      i := i + 1;
    }
    GalleriesDone(galleries, spreads, layouts, groups);
    s := Stats(|galleries|, spreads, layouts, groups);
  }

  // ---------------------------------------------------------------- divs of the rendered lines

  /** One div of the given level. */
  function KindDiv(k: Kind): Stats {
    match k
    case GalleryDiv => Stats(1, 0, 0, 0)
    case SpreadDiv => Stats(0, 1, 0, 0)
    case LayoutDiv => Stats(0, 0, 1, 0)
    case PanelGroupDiv => Stats(0, 0, 0, 1)
  }

  /** The one div of a level that a line opens (`opening`) or closes. */
  function LineDivs(l: Line, opening: bool): Stats {
    if (opening && l.Open?) || (!opening && l.Close?) then KindDiv(l.kind) else Zero
  }

  /** How many divs of each level the lines open (`opening`) or close. */
  function Divs(lines: seq<Line>, opening: bool): Stats {
    if |lines| == 0 then Zero else Plus(Divs(lines[..|lines| - 1], opening), LineDivs(lines[|lines| - 1], opening))
  }

  lemma {:induction false} DivsAppend(a: seq<Line>, b: seq<Line>, opening: bool)
    ensures Divs(a + b, opening) == Plus(Divs(a, opening), Divs(b, opening))
    decreases |b|
  {
    if |b| == 0 {
      assert a + b == a;
    } else {
      var b' := b[..|b| - 1];
      assert (a + b)[..|a + b| - 1] == a + b';
      assert (a + b)[|a + b| - 1] == b[|b| - 1];
      DivsAppend(a, b', opening);
    }
  }

  /** No line opens or closes a div. */
  predicate NoDivs(lines: seq<Line>) {
    forall i :: 0 <= i < |lines| ==> !lines[i].Open? && !lines[i].Close?
  }

  /** Lines that are neither opening nor closing tags (panels, captions) add no divs. */
  lemma {:induction false} DivsOfNoDivs(lines: seq<Line>, opening: bool)
    requires NoDivs(lines)
    ensures Divs(lines, opening) == Zero
  {
    if |lines| > 0 {
      var p := lines[..|lines| - 1];
      assert NoDivs(p) by {
        forall i | 0 <= i < |p| ensures !p[i].Open? && !p[i].Close? {
          assert p[i] == lines[i];
        }
      }
      DivsOfNoDivs(p, opening);
    }
  }

  lemma {:induction false} PlusZeroLeft(a: Stats)
    ensures Plus(Zero, a) == a
  {
  }

  lemma {:induction false} PlusZeroRight(a: Stats)
    ensures Plus(a, Zero) == a
  {
  }

  /** Lines without divs after others leave their divs as they are. */
  lemma {:induction false} DivsTrailing(a: seq<Line>, b: seq<Line>, opening: bool)
    requires NoDivs(b)
    ensures Divs(a + b, opening) == Divs(a, opening)
  {
    DivsOfNoDivs(b, opening);
    DivsAppend(a, b, opening);
    PlusZeroRight(Divs(a, opening));
  }

  /** Lines without divs around others leave their divs as they are. */
  lemma {:induction false} DivsAround(a: seq<Line>, b: seq<Line>, c: seq<Line>, opening: bool)
    requires NoDivs(a) && NoDivs(c)
    ensures Divs(a + b + c, opening) == Divs(b, opening)
  {
    DivsOfNoDivs(a, opening);
    DivsAppend(a, b, opening);
    PlusZeroLeft(Divs(b, opening));
    DivsTrailing(a + b, c, opening);
  }

  lemma {:induction false} DivsOne(l: Line, opening: bool)
    ensures Divs([l], opening) == LineDivs(l, opening)
  {
    var p := [l][..0];
    assert p == [];
    assert Divs(p, opening) == Zero;
    PlusZeroLeft(LineDivs(l, opening));
  }

  /** The divs of lines wrapped in an opening and a closing line. */
  lemma {:induction false} WrapDivs(lines: seq<Line>, open: Line, body: seq<Line>, close: Line, opening: bool)
    requires lines == [open] + body + [close]
    ensures Divs(lines, opening) == Plus(Plus(LineDivs(open, opening), Divs(body, opening)), LineDivs(close, opening))
  {
    DivsAppend([open] + body, [close], opening);
    DivsAppend([open], body, opening);
    DivsOne(open, opening);
    DivsOne(close, opening);
  }

  /** A div of level `k` around lines holding `inner`: one more div of that level, opened and closed. */
  lemma {:induction false} WrapLevel(lines: seq<Line>, k: Kind, cls: string, body: seq<Line>, inner: Stats, opening: bool)
    requires lines == [Open(k, cls)] + body + [Close(k)] && Divs(body, opening) == inner
    ensures Divs(lines, opening) == Plus(KindDiv(k), inner)
  {
    WrapDivs(lines, Open(k, cls), body, Close(k), opening);
    var o := LineDivs(Open(k, cls), opening);
    var c := LineDivs(Close(k), opening);
    assert (o == KindDiv(k) && c == Zero) || (o == Zero && c == KindDiv(k));
  }
}
