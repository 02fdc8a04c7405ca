/**
 * The equalities of rendered panelcode that the repository's tests state,
 * proved on parse trees: a row of plain units renders as one unit with the
 * summed count, in any order and at any depth of the document; an empty
 * count reads as `1`; a `0` unit is not elided.
 */
module Laws {
  import opened Wrappers
  import opened Text
  import opened Options
  import opened Grammar
  import opened Grid
  import opened Numbering
  import opened GridRender

  // ---------------------------------------------------------------- panels

  /** Emitting n + m panels is emitting n of them, then m more from where they left the counters. */
  lemma {:induction false} EmitPanelsSplit(k: PanelKind, cls: string, n: nat, m: nat, c: Counters)
    ensures var first := EmitPanels(k, cls, n, c);
      var second := EmitPanels(k, cls, m, first.1);
      EmitPanels(k, cls, n + m, c) == (first.0 + second.0, second.1)
    decreases m
  {
    if m == 0 {
      assert EmitPanels(k, cls, n, c).0 + [] == EmitPanels(k, cls, n, c).0;
    } else {
      EmitPanelsSplit(k, cls, n, m - 1, c);
      var first := EmitPanels(k, cls, n, c);
      var prev := EmitPanels(k, cls, m - 1, first.1);
      assert (first.0 + prev.0) + [Panel(cls, Step(k, prev.1).0)] == first.0 + (prev.0 + [Panel(cls, Step(k, prev.1).0)]);
    }
  }

  /** A unit `n` with no attributes: the count written as str(n). */
  function PlainUnit(n: nat): Term {
    Unit(NatToStr(n), [])
  }

  function PlainCell(n: nat): Cell {
    Cell(NatToStr(n), [])
  }

  /** The class the panels of a plain unit get. */
  const PlainClass: string := Strip(PanelArgs([NatToStr(1)]))

  /** A plain unit of count n >= 1 spans one column and its count reads back as n. */
  lemma {:induction false} PlainCellFacts(n: nat)
    requires n >= 1
    ensures Normalize(NatToStr(n), []) == PlainCell(n)
    ensures PyInt(NatToStr(n)) == Some(n)
    ensures ColSpan(PlainCell(n)) == 1
  {
    var s := NatToStr(n);
    PyIntDigits(s);
    assert s != "0";
    assert s[0] != 'c' by { assert IsDigit(s[0]); }
    assert SpanArgs([s], 'c') == [];
  }

  /** The panels of a plain unit of count n >= 1: n regular panels of the plain class. */
  lemma {:induction false} PlainCellPanels(n: nat, c: Counters)
    requires n >= 1
    ensures CellPanels(PlainCell(n), c) == Ok(EmitPanels(Regular, PlainClass, n, c))
  {
    var s := NatToStr(n);
    PyIntDigits(s);
    assert s[0] != 'u' by { assert IsDigit(s[0]); }
    assert UAdd([s]) == [] by { assert UAddOne(s) == []; }
    assert FullPanel(PlainCell(n)) == [s];
    PlainUnitIsRegular(PlainCell(n));
    assert PanelArgs([s]) == PanelArgs([NatToStr(1)]);
  }

  // ---------------------------------------------------------------- sums

  /** The terms `a+b`. */
  function SumTerms(a: nat, b: nat): seq<Term> {
    [PlainUnit(a), NewCol, PlainUnit(b)]
  }

  /** Two plain units side by side emit the panels of one unit of their summed count. */
  lemma {:induction false} SumCells(a: nat, b: nat, ab: nat, c: Counters)
    requires a >= 1 && b >= 1 && ab == a + b
    ensures EmitCells([PlainCell(a), PlainCell(b)], c) == EmitCells([PlainCell(ab)], c)
  {
    PlainCellPanels(a, c);
    var first := EmitPanels(Regular, PlainClass, a, c);
    PlainCellPanels(b, first.1);
    PlainCellPanels(ab, c);
    var second := EmitPanels(Regular, PlainClass, b, first.1);
    EmitPanelsSplit(Regular, PlainClass, a, b, c);
    var whole := EmitPanels(Regular, PlainClass, ab, c);
    assert whole == (first.0 + second.0, second.1);
    EmitOne(PlainCell(b), first.1, second);
    EmitOne(PlainCell(ab), c, whole);
    assert [PlainCell(a), PlainCell(b)][1..] == [PlainCell(b)];
  }

  /** One unit alone emits its own panels. */
  lemma {:induction false} EmitOne(cell: Cell, c: Counters, p: (seq<Line>, Counters))
    requires CellPanels(cell, c) == Ok(p)
    ensures EmitCells([cell], c) == Ok(p)
  {
    assert [cell][1..] == [];
    assert p.0 + [] == p.0;
  }

  /** The rows of `a+b`: one row of the two units. */
  lemma {:induction false} SumRows(a: nat, b: nat)
    requires a >= 1 && b >= 1
    ensures RowsOf(SumTerms(a, b)) == [[PlainCell(a), PlainCell(b)]]
  {
    PlainCellFacts(a);
    PlainCellFacts(b);
    var t := SumTerms(a, b);
    OneRow(a);
    assert t[..1] == [PlainUnit(a)];
    var r1 := [[PlainCell(a)]];
    assert t[..2][..1] == t[..1] && t[..2][1] == NewCol;
    assert RowsOf(t[..2]) == AddTerm(r1, NewCol) == r1;
    assert t[..|t| - 1] == t[..2] && t[|t| - 1] == PlainUnit(b);
    assert RowsOf(t) == AddTerm(r1, PlainUnit(b));
    assert AddTerm(r1, PlainUnit(b)) == r1[..0] + [r1[0] + [PlainCell(b)]];
    assert r1[..0] == [] && r1[0] + [PlainCell(b)] == [PlainCell(a), PlainCell(b)];
  }

  /** The rows of a single plain unit: one row of one cell. */
  lemma {:induction false} OneRow(n: nat)
    requires n >= 1
    ensures RowsOf([PlainUnit(n)]) == [[PlainCell(n)]]
  {
    PlainCellFacts(n);
    var rows: seq<seq<Cell>> := [[]];
    assert [PlainUnit(n)][..0] == [];
    assert RowsOf([PlainUnit(n)]) == AddTerm(rows, PlainUnit(n));
    assert AddTerm(rows, PlainUnit(n)) == rows[..0] + [rows[0] + [PlainCell(n)]];
    assert rows[..0] == [] && rows[0] == [];
    assert rows[0] + [PlainCell(n)] == [PlainCell(n)];
  }

  /** The row of `a+b` is as long as the sum. */
  lemma {:induction false} SumWidth(a: nat, b: nat, ab: nat)
    requires a >= 1 && b >= 1 && ab == a + b
    ensures DerivedWidth([[PlainCell(a), PlainCell(b)]]) == Ok(ab)
  {
    PlainCellFacts(a);
    PlainCellFacts(b);
    var r2 := [PlainCell(a), PlainCell(b)];
    assert CountsOk(r2);
    assert r2[..1] == [PlainCell(a)] && [PlainCell(a)][..0] == [];
    assert CellLen(PlainCell(a)) == a;
    assert CellLen(PlainCell(b)) == b;
    assert RowLen(r2[..1]) == a;
    assert RowLen(r2) == ab;
    assert AllCountsOk([r2]);
    assert RowLens([r2]) == [ab];
  }

  /** A single plain unit is as wide as its count. */
  lemma {:induction false} OneWidth(n: nat)
    requires n >= 1
    ensures DerivedWidth([[PlainCell(n)]]) == Ok(n)
  {
    PlainCellFacts(n);
    var r1 := [PlainCell(n)];
    assert r1[..0] == [];
    assert CellLen(PlainCell(n)) == n;
    assert RowLen(r1) == n;
    assert AllCountsOk([r1]);
    assert RowLens([r1]) == [n];
  }

  /** Two panelgroups render alike: the same lines and counters below any options and from any counters. */
  ghost predicate RendersAlike(g1: PanelGroup, g2: PanelGroup) {
    forall above, c :: PanelGroupLines(above, g1, c) == PanelGroupLines(above, g2, c)
  }

  /** Two term lists render alike when their derived widths and their panels agree. */
  lemma {:induction false} SameRender(above: seq<seq<OptToken>>, t1: seq<Term>, t2: seq<Term>, opts: Option<seq<OptToken>>, c: Counters)
    requires DerivedWidth(RowsOf(t1)) == DerivedWidth(RowsOf(t2))
    requires EmitCells(Flatten(RowsOf(t1)), c) == EmitCells(Flatten(RowsOf(t2)), c)
    ensures PanelGroupLines(above, PanelGroup(Some(t1), opts), c) == PanelGroupLines(above, PanelGroup(Some(t2), opts), c)
  {
  }

  /** `1+2` renders as `3`: plain units of a row add up (tests.py, test_simple_rows_summative). */
  lemma {:induction false} SumLaw(a: nat, b: nat, ab: nat, opts: Option<seq<OptToken>>)
    requires a >= 1 && b >= 1 && ab == a + b
    ensures RendersAlike(PanelGroup(Some(SumTerms(a, b)), opts), PanelGroup(Some([PlainUnit(ab)]), opts))
  {
    SumRows(a, b);
    OneRow(ab);
    SumWidth(a, b, ab);
    OneWidth(ab);
    assert Flatten([[PlainCell(a), PlainCell(b)]]) == [PlainCell(a), PlainCell(b)];
    assert Flatten([[PlainCell(ab)]]) == [PlainCell(ab)];
    forall above, c
      ensures PanelGroupLines(above, PanelGroup(Some(SumTerms(a, b)), opts), c) ==
              PanelGroupLines(above, PanelGroup(Some([PlainUnit(ab)]), opts), c)
    {
      SumCells(a, b, ab, c);
      SameRender(above, SumTerms(a, b), [PlainUnit(ab)], opts, c);
    }
  }

  /** `1+2` renders as `2+1`: the order of the units of a row does not show (tests.py, test_simple_rows_commutative). */
  lemma {:induction false} CommutativeLaw(a: nat, b: nat, opts: Option<seq<OptToken>>)
    requires a >= 1 && b >= 1
    ensures RendersAlike(PanelGroup(Some(SumTerms(a, b)), opts), PanelGroup(Some(SumTerms(b, a)), opts))
  {
    var ab := a + b;
    SumLaw(a, b, ab, opts);
    SumLaw(b, a, ab, opts);
  }

  // ---------------------------------------------------------------- zero units

  /** The units `0+1`, `1+0` and `1`. */
  const ZeroOne: seq<Term> := [Unit("0", []), NewCol, Unit("1", [])]
  const OneZero: seq<Term> := [Unit("1", []), NewCol, Unit("0", [])]
  const One: seq<Term> := [Unit("1", [])]

  lemma {:induction false} OneValue()
    ensures PyInt("1") == Some(1)
  {
    PyIntDigits("1");
    assert "1"[..0] == [];
  }

  /** The units of one unit term, rewritten. */
  lemma {:induction false} CellsOne(u: Term)
    requires u.Unit?
    ensures CellsOf([u]) == [Normalize(u.count, u.attrs)]
  {
    assert [u][..0] == [];
  }

  /** The units of `a+b`, rewritten. */
  lemma {:induction false} CellsPair(t: seq<Term>)
    requires |t| == 3 && t[0].Unit? && t[1] == NewCol && t[2].Unit?
    ensures CellsOf(t) == [Normalize(t[0].count, t[0].attrs), Normalize(t[2].count, t[2].attrs)]
  {
    CellsOne(t[0]);
    assert t[..2][..1] == [t[0]];
    assert CellsOf(t[..2]) == CellsOf([t[0]]);
    assert t[..2] == t[..|t| - 1];
  }

  /** The units of `0+1`, `1+0` and `1`, rewritten. */
  lemma {:induction false} ZeroCells()
    ensures CellsOf(ZeroOne) == [Cell("1", ["x"]), Cell("1", [])]
    ensures CellsOf(OneZero) == [Cell("1", []), Cell("1", ["x"])]
    ensures CellsOf(One) == [Cell("1", [])]
  {
    CellsPair(ZeroOne);
    CellsPair(OneZero);
    CellsOne(One[0]);
    assert [] + ["x"] == ["x"];
  }

  /** `0+1` does not render as `1`: the `0` unit is a panel of its own (tests.py, test_simple_zero_units). */
  lemma {:induction false} ZeroNotElided(above: seq<seq<OptToken>>, opts: Option<seq<OptToken>>, c: Counters)
    requires PanelGroupLines(above, PanelGroup(Some(ZeroOne), opts), c).Ok?
    ensures PanelGroupLines(above, PanelGroup(Some(ZeroOne), opts), c) != PanelGroupLines(above, PanelGroup(Some(One), opts), c)
  {
    var g01 := PanelGroup(Some(ZeroOne), opts);
    var g1 := PanelGroup(Some(One), opts);
    PanelGroupCount(above, g01, c);
    ZeroCells();
    OneValue();
    var cells := [Cell("1", ["x"]), Cell("1", [])];
    assert cells[1..] == [Cell("1", [])] && [Cell("1", [])][1..] == [];
    assert TotalPanels(cells) == 2;
    assert TotalPanels([Cell("1", [])]) == 1;
    if PanelGroupLines(above, g1, c).Ok? {
      PanelGroupCount(above, g1, c);
    }
  }

  /** The first panel of a rendered panelgroup is the first panel of its first unit. */
  lemma {:induction false} FirstPanel(above: seq<seq<OptToken>>, pg: PanelGroup, c: Counters, p: (seq<Line>, Counters))
    requires PanelGroupLines(above, pg, c).Ok?
    requires pg.terms.Some? && |GroupCells(pg)| > 0 && CellPanels(GroupCells(pg)[0], c) == Ok(p) && |p.0| > 0
    ensures |PanelGroupLines(above, pg, c).value.0| > 1 && PanelGroupLines(above, pg, c).value.0[1] == p.0[0]
  {
    PanelGroupBody(above, pg, c);
    var cells := GroupCells(pg);
    var rest := EmitCells(cells[1..], p.1);
    assert EmitCells(cells, c) == Prepend(p.0, rest);
  }

  /** The first panel of `0+1` is a blank. */
  lemma {:induction false} ZeroOneFirst(above: seq<seq<OptToken>>, opts: Option<seq<OptToken>>, c: Counters)
    requires PanelGroupLines(above, PanelGroup(Some(ZeroOne), opts), c).Ok?
    ensures |PanelGroupLines(above, PanelGroup(Some(ZeroOne), opts), c).value.0| > 1
    ensures PanelGroupLines(above, PanelGroup(Some(ZeroOne), opts), c).value.0[1].Panel?
    ensures PanelGroupLines(above, PanelGroup(Some(ZeroOne), opts), c).value.0[1].mark == Star
  {
    ZeroCells();
    ZeroUnitIsBlank([], c);
    assert Normalize("0", []) == Cell("1", ["x"]);
    var blank := CellPanels(Cell("1", ["x"]), c).value;
    FirstPanel(above, PanelGroup(Some(ZeroOne), opts), c, blank);
  }

  lemma {:induction false} NatToStrOne()
    ensures NatToStr(1) == "1"
  {
    assert DigitChar(1) == '1';
  }

  /** A unit `1` is one numbered panel. */
  lemma {:induction false} OneCellPanels(c: Counters)
    ensures CellPanels(Cell("1", []), c).Ok?
    ensures |CellPanels(Cell("1", []), c).value.0| == 1
    ensures CellPanels(Cell("1", []), c).value.0[0].Panel? && CellPanels(Cell("1", []), c).value.0[0].mark.Num?
  {
    NatToStrOne();
    PlainCellPanels(1, c);
    assert EmitPanels(Regular, PlainClass, 0, c).0 == [];
  }

  /** The first panel of `1+0` is numbered. */
  lemma {:induction false} OneZeroFirst(above: seq<seq<OptToken>>, opts: Option<seq<OptToken>>, c: Counters)
    requires PanelGroupLines(above, PanelGroup(Some(OneZero), opts), c).Ok?
    ensures |PanelGroupLines(above, PanelGroup(Some(OneZero), opts), c).value.0| > 1
    ensures PanelGroupLines(above, PanelGroup(Some(OneZero), opts), c).value.0[1].Panel?
    ensures PanelGroupLines(above, PanelGroup(Some(OneZero), opts), c).value.0[1].mark.Num?
  {
    ZeroCells();
    OneCellPanels(c);
    FirstPanel(above, PanelGroup(Some(OneZero), opts), c, CellPanels(Cell("1", []), c).value);
  }

  /** `0+1` does not render as `1+0`: a `0` unit keeps its place (tests.py, test_simple_zero_units). */
  lemma {:induction false} ZeroOrderShows(above: seq<seq<OptToken>>, opts: Option<seq<OptToken>>, c: Counters)
    requires PanelGroupLines(above, PanelGroup(Some(ZeroOne), opts), c).Ok?
    ensures PanelGroupLines(above, PanelGroup(Some(ZeroOne), opts), c) != PanelGroupLines(above, PanelGroup(Some(OneZero), opts), c)
  {
    ZeroOneFirst(above, opts, c);
    if PanelGroupLines(above, PanelGroup(Some(OneZero), opts), c).Ok? {
      OneZeroFirst(above, opts, c);
    }
  }

  // ---------------------------------------------------------------- wrong sums

  /** The units of a single plain unit. */
  lemma {:induction false} PlainCells(n: nat)
    requires n >= 1
    ensures CellsOf([PlainUnit(n)]) == [PlainCell(n)]
    ensures CountsOk([PlainCell(n)]) && TotalPanels([PlainCell(n)]) == n
  {
    CellsOne(PlainUnit(n));
    PlainCellFacts(n);
    assert [PlainCell(n)][1..] == [];
  }

  /** Units of different counts do not render alike: their panel counts differ. */
  lemma {:induction false} CountShows(above: seq<seq<OptToken>>, n: nat, k: nat, opts: Option<seq<OptToken>>, c: Counters)
    requires n >= 1 && k >= 1 && n != k
    requires PanelGroupLines(above, PanelGroup(Some([PlainUnit(n)]), opts), c).Ok?
    ensures PanelGroupLines(above, PanelGroup(Some([PlainUnit(n)]), opts), c) != PanelGroupLines(above, PanelGroup(Some([PlainUnit(k)]), opts), c)
  {
    PlainCells(n);
    PlainCells(k);
    PanelGroupCount(above, PanelGroup(Some([PlainUnit(n)]), opts), c);
    if PanelGroupLines(above, PanelGroup(Some([PlainUnit(k)]), opts), c).Ok? {
      PanelGroupCount(above, PanelGroup(Some([PlainUnit(k)]), opts), c);
    }
  }

  /** `1+2` does not render as `4`: a wrong sum shows (tests.py, test_simple_rows_summative). */
  lemma {:induction false} WrongSumShows(above: seq<seq<OptToken>>, a: nat, b: nat, k: nat, opts: Option<seq<OptToken>>, c: Counters)
    requires a >= 1 && b >= 1 && k >= 1 && k != a + b
    requires PanelGroupLines(above, PanelGroup(Some(SumTerms(a, b)), opts), c).Ok?
    ensures PanelGroupLines(above, PanelGroup(Some(SumTerms(a, b)), opts), c) != PanelGroupLines(above, PanelGroup(Some([PlainUnit(k)]), opts), c)
  {
    var ab := a + b;
    SumLaw(a, b, ab, opts);
    CountShows(above, ab, k, opts, c);
  }

  // ---------------------------------------------------------------- elided counts

  /** Terms that build the same rows keep doing so when the same terms follow. */
  lemma {:induction false} RowsOfSuffix(x: seq<Term>, y: seq<Term>, post: seq<Term>)
    requires RowsOf(x) == RowsOf(y)
    ensures RowsOf(x + post) == RowsOf(y + post)
    decreases |post|
  {
    if |post| == 0 {
      assert x + post == x && y + post == y;
    } else {
      var p := post[..|post| - 1];
      RowsOfSuffix(x, y, p);
      assert (x + post)[..|x + post| - 1] == x + p && (x + post)[|x + post| - 1] == post[|post| - 1];
      assert (y + post)[..|y + post| - 1] == y + p && (y + post)[|y + post| - 1] == post[|post| - 1];
    }
  }

  /** `r2` renders as `1r2`: a unit with no count is a unit of count 1 (tests.py, test_simple_units_concise). */
  lemma {:induction false} ElisionLaw(pre: seq<Term>, attrs: seq<string>, post: seq<Term>, opts: Option<seq<OptToken>>)
    ensures RendersAlike(PanelGroup(Some(pre + [Unit("", attrs)] + post), opts),
                         PanelGroup(Some(pre + [Unit("1", attrs)] + post), opts))
  {
    var x := pre + [Unit("", attrs)];
    var y := pre + [Unit("1", attrs)];
    assert x[..|x| - 1] == pre && y[..|y| - 1] == pre;
    assert RowsOf(x) == RowsOf(y);
    RowsOfSuffix(x, y, post);
    forall above, c
      ensures PanelGroupLines(above, PanelGroup(Some(x + post), opts), c) == PanelGroupLines(above, PanelGroup(Some(y + post), opts), c)
    {
      SameRender(above, x + post, y + post, opts, c);
    }
  }

  // ---------------------------------------------------------------- context

  /** Two documents alike but for panelgroups that render alike, pairwise. */
  ghost predicate GroupsAlike(a: seq<PanelGroup>, b: seq<PanelGroup>) {
    |a| == |b| && forall i :: 0 <= i < |a| ==> RendersAlike(a[i], b[i])
  }

  ghost predicate LayoutsAlike(a: seq<Layout>, b: seq<Layout>) {
    |a| == |b| && forall i :: 0 <= i < |a| ==> a[i].opts == b[i].opts && GroupsAlike(a[i].groups, b[i].groups)
  }

  ghost predicate SpreadsAlike(a: seq<Spread>, b: seq<Spread>) {
    |a| == |b| && forall i :: 0 <= i < |a| ==> a[i].opts == b[i].opts && LayoutsAlike(a[i].layouts, b[i].layouts)
  }

  ghost predicate GalleriesAlike(a: seq<Gallery>, b: seq<Gallery>) {
    |a| == |b| && forall i :: 0 <= i < |a| ==> a[i].opts == b[i].opts && SpreadsAlike(a[i].spreads, b[i].spreads)
  }

  lemma {:induction false} GroupsCongruence(above: seq<seq<OptToken>>, a: seq<PanelGroup>, b: seq<PanelGroup>, c: Counters)
    requires GroupsAlike(a, b)
    ensures GroupsLines(above, a, c) == GroupsLines(above, b, c)
    decreases |a|
  {
    if |a| > 0 {
      assert RendersAlike(a[0], b[0]);
      assert PanelGroupLines(above, a[0], c) == PanelGroupLines(above, b[0], c);
      assert GroupsAlike(a[1..], b[1..]) by {
        forall i | 0 <= i < |a| - 1 ensures RendersAlike(a[1..][i], b[1..][i]) {
          assert a[1..][i] == a[i + 1] && b[1..][i] == b[i + 1];
        }
      }
      match PanelGroupLines(above, a[0], c)
      case Err(_) =>
      case Ok(p) => GroupsCongruence(above, a[1..], b[1..], p.1);
    }
  }

  lemma {:induction false} LayoutsCongruence(above: seq<seq<OptToken>>, a: seq<Layout>, b: seq<Layout>)
    requires LayoutsAlike(a, b)
    ensures LayoutsLines(above, a) == LayoutsLines(above, b)
    decreases |a|
  {
    if |a| > 0 {
      assert a[0].opts == b[0].opts && GroupsAlike(a[0].groups, b[0].groups);
      GroupsCongruence(above + [OptsOf(a[0].opts)], a[0].groups, b[0].groups, Counters(0, 0));
      assert LayoutLines(above, a[0]) == LayoutLines(above, b[0]);
      assert LayoutsAlike(a[1..], b[1..]) by {
        forall i | 0 <= i < |a| - 1 ensures a[1..][i].opts == b[1..][i].opts && GroupsAlike(a[1..][i].groups, b[1..][i].groups) {
          assert a[1..][i] == a[i + 1] && b[1..][i] == b[i + 1];
        }
      }
      LayoutsCongruence(above, a[1..], b[1..]);
    }
  }

  lemma {:induction false} SpreadsCongruence(above: seq<seq<OptToken>>, a: seq<Spread>, b: seq<Spread>)
    requires SpreadsAlike(a, b)
    ensures SpreadsLines(above, a) == SpreadsLines(above, b)
    decreases |a|
  {
    if |a| > 0 {
      assert a[0].opts == b[0].opts && LayoutsAlike(a[0].layouts, b[0].layouts);
      LayoutsCongruence(above + [OptsOf(a[0].opts)], a[0].layouts, b[0].layouts);
      assert SpreadLines(above, a[0]) == SpreadLines(above, b[0]);
      assert SpreadsAlike(a[1..], b[1..]) by {
        forall i | 0 <= i < |a| - 1 ensures a[1..][i].opts == b[1..][i].opts && LayoutsAlike(a[1..][i].layouts, b[1..][i].layouts) {
          assert a[1..][i] == a[i + 1] && b[1..][i] == b[i + 1];
        }
      }
      SpreadsCongruence(above, a[1..], b[1..]);
    }
  }

  lemma {:induction false} GalleriesCongruence(above: seq<seq<OptToken>>, a: seq<Gallery>, b: seq<Gallery>)
    requires GalleriesAlike(a, b)
    ensures GalleriesLines(above, a) == GalleriesLines(above, b)
    decreases |a|
  {
    if |a| > 0 {
      assert a[0].opts == b[0].opts && SpreadsAlike(a[0].spreads, b[0].spreads);
      SpreadsCongruence(above + [OptsOf(a[0].opts)], a[0].spreads, b[0].spreads);
      assert GalleryLines(above, a[0]) == GalleryLines(above, b[0]);
      assert GalleriesAlike(a[1..], b[1..]) by {
        forall i | 0 <= i < |a| - 1 ensures a[1..][i].opts == b[1..][i].opts && SpreadsAlike(a[1..][i].spreads, b[1..][i].spreads) {
          assert a[1..][i] == a[i + 1] && b[1..][i] == b[i + 1];
        }
      }
      GalleriesCongruence(above, a[1..], b[1..]);
    }
  }

  /**
   * Panelgroups that render alike can replace each other anywhere in a
   * document: `1+2_3` renders as `3_3`, `1+2;3` as `2+1;3` (tests.py,
   * test_simple_rows_summative and test_simple_rows_commutative).
   */
  lemma {:induction false} DocumentCongruence(a: Document, b: Document)
    requires a.opts == b.opts && GalleriesAlike(a.galleries, b.galleries)
    ensures DocumentLines(a) == DocumentLines(b)
  {
    GalleriesCongruence([OptsOf(a.opts)], a.galleries, b.galleries);
  }

  /** A document of one gallery, one spread and one layout holding the given panelgroups. */
  function OneLayout(groups: seq<PanelGroup>): Document {
    Document([Gallery([Spread([Layout(groups, None)], None)], None)], None)
  }

  function Plain(terms: seq<Term>): PanelGroup {
    PanelGroup(Some(terms), None)
  }

  /** The trees of `1+2_3` and `3_3` render alike (tests.py:105). */
  lemma {:induction false} SumInLayout()
    ensures DocumentLines(OneLayout([Plain(SumTerms(1, 2)), Plain([PlainUnit(3)])])) ==
            DocumentLines(OneLayout([Plain([PlainUnit(3)]), Plain([PlainUnit(3)])]))
  {
    SumLaw(1, 2, 3, None);
    var a := OneLayout([Plain(SumTerms(1, 2)), Plain([PlainUnit(3)])]);
    var b := OneLayout([Plain([PlainUnit(3)]), Plain([PlainUnit(3)])]);
    assert GroupsAlike(a.galleries[0].spreads[0].layouts[0].groups, b.galleries[0].spreads[0].layouts[0].groups);
    assert LayoutsAlike(a.galleries[0].spreads[0].layouts, b.galleries[0].spreads[0].layouts);
    assert SpreadsAlike(a.galleries[0].spreads, b.galleries[0].spreads);
    DocumentCongruence(a, b);
  }
}
