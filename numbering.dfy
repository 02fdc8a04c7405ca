/**
 * What the grid renderer promises about the panels it emits: every unit
 * yields exactly `count` panels, blanks are `*` and do not consume a number,
 * a `u<N>` panel covers N numbers, and the numbers of a layout run 1, 2, 3,
 * ... without gaps or repeats.
 */
module Numbering {
  import opened Wrappers
  import opened Text
  import opened Options
  import opened Grammar
  import opened Grid

  /** The integers a, a+1, ..., b-1. */
  function Range(a: int, b: int): seq<int>
    decreases b - a
  {
    if a >= b then [] else [a] + Range(a + 1, b)
  }

  lemma {:induction false} RangeAppend(a: int, b: int, c: int)
    requires a <= b <= c
    ensures Range(a, b) + Range(b, c) == Range(a, c)
    decreases b - a
  {
    if a < b {
      RangeAppend(a + 1, b, c);
      assert [a] + Range(a + 1, b) + Range(b, c) == [a] + (Range(a + 1, b) + Range(b, c));
    }
  }

  /** Range(a, b) holds b - a integers, the i-th being a + i. */
  lemma {:induction false} RangeIndex(a: int, b: int)
    ensures |Range(a, b)| == if a < b then b - a else 0
    ensures forall i :: 0 <= i < |Range(a, b)| ==> Range(a, b)[i] == a + i
    decreases b - a
  {
    if a < b {
      RangeIndex(a + 1, b);
    }
  }

  /** The panel numbers a label stands for: none for `*`, one for `n`, all of a..b for `a-b`. */
  function LabelNumbers(l: PanelLabel): seq<int> {
    match l
    case Star => []
    case Num(n) => [n]
    case Span(a, b) => Range(a, b + 1)
  }

  /** The panel numbers one line shows. */
  function LineNumbers(l: Line): seq<int> {
    if l.Panel? then LabelNumbers(l.mark) else []
  }

  /** The panel numbers shown by a list of lines, in order. */
  function Numbers(lines: seq<Line>): seq<int> {
    if |lines| == 0 then [] else Numbers(lines[..|lines| - 1]) + LineNumbers(lines[|lines| - 1])
  }

  function IsPanel(l: Line): nat {
    if l.Panel? then 1 else 0
  }

  /** The number of panel divs among the lines. */
  function PanelCount(lines: seq<Line>): nat {
    if |lines| == 0 then 0 else PanelCount(lines[..|lines| - 1]) + IsPanel(lines[|lines| - 1])
  }

  /** Dropping the last line of a + b drops the last line of b. */
  lemma {:induction false} AppendInit(a: seq<Line>, b: seq<Line>)
    requires |b| > 0
    ensures (a + b)[..|a + b| - 1] == a + b[..|b| - 1] && (a + b)[|a + b| - 1] == b[|b| - 1]
  {
  }

  lemma {:induction false} NumbersLast(lines: seq<Line>, init: seq<Line>, last: Line)
    requires |lines| > 0 && lines[..|lines| - 1] == init && lines[|lines| - 1] == last
    ensures Numbers(lines) == Numbers(init) + LineNumbers(last)
  {
  }

  /** The step of NumbersAppend: one more line at the end of b. */
  lemma {:induction false} NumbersAppendStep(a: seq<Line>, b: seq<Line>)
    requires |b| > 0 && Numbers(a + b[..|b| - 1]) == Numbers(a) + Numbers(b[..|b| - 1])
    ensures Numbers(a + b) == Numbers(a) + Numbers(b)
  {
    var b', last := b[..|b| - 1], b[|b| - 1];
    AppendInit(a, b);
    NumbersLast(a + b, a + b', last);
    NumbersLast(b, b', last);
    var x, y, z := Numbers(a), Numbers(b'), LineNumbers(last);
    assert (x + y) + z == x + (y + z);
  }

  lemma {:induction false} NumbersAppend(a: seq<Line>, b: seq<Line>)
    ensures Numbers(a + b) == Numbers(a) + Numbers(b)
    decreases |b|
  {
    if |b| == 0 {
      assert a + b == a;
      assert Numbers(a) + [] == Numbers(a);
    } else {
      NumbersAppend(a, b[..|b| - 1]);
      NumbersAppendStep(a, b);
    }
  }

  lemma {:induction false} PanelCountAppend(a: seq<Line>, b: seq<Line>)
    ensures PanelCount(a + b) == PanelCount(a) + PanelCount(b)
    decreases |b|
  {
    if |b| == 0 {
      assert a + b == a;
    } else {
      var b' := b[..|b| - 1];
      var ab := a + b;
      assert ab[..|ab| - 1] == a + b' && ab[|ab| - 1] == b[|b| - 1];
      PanelCountAppend(a, b');
    }
  }

  /** The last number given so far: `panelcounter - panelskip`. */
  function Base(c: Counters): int {
    c.counter - c.skip
  }

  /**
   * The lines of `p` show the numbers Base(c) + 1, ..., Base(p.1) in order,
   * each once: the panels they stand for continue the count from `c`.
   */
  predicate Continues(p: (seq<Line>, Counters), c: Counters) {
    Base(c) <= Base(p.1) && Numbers(p.0) == Range(Base(c) + 1, Base(p.1) + 1)
  }

  /** The merged-panel size is never negative: it is the largest `u<digits>` value, or 1. */
  predicate ValidKind(k: PanelKind) {
    k.Ranged? ==> k.umax >= 0
  }

  lemma {:induction false} SpanArgsNonNegative(panel: seq<string>, letter: char)
    ensures forall i :: 0 <= i < |SpanArgs(panel, letter)| ==> SpanArgs(panel, letter)[i] >= 0
  {
    if |panel| > 0 {
      SpanArgsNonNegative(panel[..|panel| - 1], letter);
    }
  }

  lemma {:induction false} KindOfValid(full: seq<string>)
    requires |full| >= 1
    ensures ValidKind(KindOf(full))
  {
    var xs := SpanArgs(full, 'u');
    SpanArgsNonNegative(full, 'u');
    if |xs| > 0 {
      MaxOrIsMax(xs, 1);
    }
  }

  /** One panel consumes the numbers from Base + 1 up to its new Base, and never goes back. */
  lemma {:induction false} StepNumbers(k: PanelKind, c: Counters)
    requires ValidKind(k)
    ensures Base(c) <= Base(Step(k, c).1)
    ensures LabelNumbers(Step(k, c).0) == Range(Base(c) + 1, Base(Step(k, c).1) + 1)
  {
    var b := Base(c);
    match k
    case Blank =>
    case Regular =>
      assert Range(b + 1, b + 2) == [b + 1] + Range(b + 2, b + 2);
    case Ranged(m) =>
      if m == 1 {
        assert Range(b + 1, b + 2) == [b + 1] + Range(b + 2, b + 2);
      }
  }

  /** The panels of one unit: exactly n lines. */
  lemma {:induction false} EmitPanelsLength(k: PanelKind, cls: string, n: nat, c: Counters)
    ensures |EmitPanels(k, cls, n, c).0| == n
  {
    if n > 0 {
      EmitPanelsLength(k, cls, n - 1, c);
    }
  }

  /** Every line is a panel div of class `cls`. */
  predicate PanelsOfClass(lines: seq<Line>, cls: string) {
    forall i :: 0 <= i < |lines| ==> lines[i].Panel? && lines[i].cls == cls
  }

  /** The panels of one unit: every line is a panel div with the unit's class. */
  lemma {:induction false} EmitPanelsClass(k: PanelKind, cls: string, n: nat, c: Counters)
    ensures PanelsOfClass(EmitPanels(k, cls, n, c).0, cls)
  {
    if n > 0 {
      var prev := EmitPanels(k, cls, n - 1, c).0;
      EmitPanelsClass(k, cls, n - 1, c);
      var ls := EmitPanels(k, cls, n, c).0;
      assert ls == prev + [Panel(cls, Step(k, EmitPanels(k, cls, n - 1, c).1).0)];
    }
  }

  /** The panels of one unit: exactly n panel divs. */
  lemma {:induction false} EmitPanelsCount(k: PanelKind, cls: string, n: nat, c: Counters)
    ensures PanelCount(EmitPanels(k, cls, n, c).0) == n
  {
    if n > 0 {
      var prev := EmitPanels(k, cls, n - 1, c).0;
      EmitPanelsCount(k, cls, n - 1, c);
      var lines := EmitPanels(k, cls, n, c).0;
      assert lines[..|lines| - 1] == prev;
    }
  }

  /** One more line continues a run of numbers when its own numbers follow on. */
  lemma {:induction false} SnocNumbers(prev: (seq<Line>, Counters), l: Line, c1: Counters, c: Counters)
    requires Continues(prev, c)
    requires Base(prev.1) <= Base(c1) && LineNumbers(l) == Range(Base(prev.1) + 1, Base(c1) + 1)
    ensures Continues((prev.0 + [l], c1), c)
  {
    var ls := prev.0 + [l];
    assert ls[..|ls| - 1] == prev.0;
    RangeAppend(Base(c) + 1, Base(prev.1) + 1, Base(c1) + 1);
  }

  /** The panels of one unit consume the numbers from Base + 1 up to the new Base. */
  lemma {:induction false} EmitPanelsNumbers(k: PanelKind, cls: string, n: nat, c: Counters)
    requires ValidKind(k)
    ensures Continues(EmitPanels(k, cls, n, c), c)
  {
    if n > 0 {
      var prev := EmitPanels(k, cls, n - 1, c);
      EmitPanelsNumbers(k, cls, n - 1, c);
      StepNumbers(k, prev.1);
      var s := Step(k, prev.1);
      SnocNumbers(prev, Panel(cls, s.0), s.1, c);
    }
  }

  /** A blank unit: all its panels are `*`; panelcounter and panelskip both grow by n. */
  lemma {:induction false} BlankPanels(k: PanelKind, cls: string, n: nat, c: Counters)
    requires k == Blank || k == Ranged(0)
    ensures var r := EmitPanels(k, cls, n, c);
      (forall i :: 0 <= i < |r.0| ==> r.0[i] == Panel(cls, Star)) &&
      r.1 == Counters(c.counter + n, c.skip + n)
  {
    if n > 0 {
      BlankPanels(k, cls, n - 1, c);
      EmitPanelsCount(k, cls, n - 1, c);
    }
  }

  /** A regular unit (or one with u_max == 1): panel i is numbered Base + 1 + i. */
  lemma {:induction false} RegularPanels(k: PanelKind, cls: string, n: nat, c: Counters)
    requires k == Regular || k == Ranged(1)
    ensures var r := EmitPanels(k, cls, n, c);
      (forall i :: 0 <= i < |r.0| ==> r.0[i] == Panel(cls, Num(Base(c) + 1 + i))) &&
      r.1 == Counters(c.counter + n, c.skip)
  {
    if n > 0 {
      RegularPanels(k, cls, n - 1, c);
      EmitPanelsCount(k, cls, n - 1, c);
    }
  }

  lemma {:induction false} MulStep(i: int, m: int)
    ensures (i + 1) * m == i * m + m
  {
  }

  /** A merged unit with u_max == m > 1: panel i is labelled with a range of exactly m numbers. */
  lemma {:induction false} RangedPanels(m: int, cls: string, n: nat, c: Counters)
    requires m > 1
    ensures var r := EmitPanels(Ranged(m), cls, n, c);
      (forall i :: 0 <= i < |r.0| ==>
        r.0[i] == Panel(cls, Span(Base(c) + 1 + i * m, Base(c) + (i + 1) * m))) &&
      r.1 == Counters(c.counter + n * m, c.skip)
  {
    if n > 0 {
      var prev := EmitPanels(Ranged(m), cls, n - 1, c);
      RangedPanels(m, cls, n - 1, c);
      EmitPanelsLength(Ranged(m), cls, n - 1, c);
      var k := (n - 1) * m;
      MulStep(n - 1, m);
      var lbl := Span(c.counter + k + 1 - c.skip, c.counter + k + m - c.skip);
      assert Step(Ranged(m), prev.1) == (lbl, Counters(c.counter + n * m, c.skip));
      var r := EmitPanels(Ranged(m), cls, n, c);
      assert r.0 == prev.0 + [Panel(cls, lbl)];
      forall i | 0 <= i < |r.0|
        ensures r.0[i] == Panel(cls, Span(Base(c) + 1 + i * m, Base(c) + (i + 1) * m))
      {
        if i < n - 1 {
          assert r.0[i] == prev.0[i];
        }
      }
    }
  }

  /** A unit's count as the emission loop reads it: int(count), nothing when negative. */
  function PanelsOf(cell: Cell): nat
    requires PyInt(cell.count).Some?
  {
    var n := PyInt(cell.count).value;
    if n < 0 then 0 else n
  }

  /** The number of panels a list of units asks for. */
  function TotalPanels(cells: seq<Cell>): nat
    requires CountsOk(cells)
  {
    if |cells| == 0 then 0 else PanelsOf(cells[0]) + TotalPanels(cells[1..])
  }

  /** The panels of one unit, bound to its kind and class. */
  function UnitPanels(cell: Cell, c: Counters): (seq<Line>, Counters)
    requires PyInt(cell.count).Some?
  {
    var full := FullPanel(cell);
    EmitPanels(KindOf(full), Strip(PanelArgs(full)), PanelsOf(cell), c)
  }

  /** How EmitCells unfolds on a non-empty list of units. */
  lemma {:induction false} EmitCellsCons(cells: seq<Cell>, c: Counters)
    requires |cells| > 0
    ensures PyInt(cells[0].count).None? ==> EmitCells(cells, c) == Err(ValueError)
    ensures PyInt(cells[0].count).Some? ==>
      var p := UnitPanels(cells[0], c);
      EmitCells(cells, c) == Prepend(p.0, EmitCells(cells[1..], p.1))
  {
  }

  /** The units are emitted exactly when int() accepts every count; otherwise ValueError escapes. */
  lemma {:induction false} EmitCellsOk(cells: seq<Cell>, c: Counters)
    ensures EmitCells(cells, c).Ok? <==> CountsOk(cells)
    ensures EmitCells(cells, c).Err? ==> EmitCells(cells, c).error == ValueError
  {
    if |cells| > 0 {
      EmitCellsCons(cells, c);
      assert forall i :: 0 < i < |cells| ==> cells[1..][i - 1] == cells[i];
      assert CountsOk(cells) <==> PyInt(cells[0].count).Some? && CountsOk(cells[1..]);
      if PyInt(cells[0].count).Some? {
        EmitCellsOk(cells[1..], UnitPanels(cells[0], c).1);
      }
    }
  }

  /** The units emit as many panels as their counts ask for. */
  lemma {:induction false} EmitCellsCount(cells: seq<Cell>, c: Counters)
    requires CountsOk(cells)
    ensures EmitCells(cells, c).Ok? && PanelCount(EmitCells(cells, c).value.0) == TotalPanels(cells)
  {
    EmitCellsOk(cells, c);
    if |cells| > 0 {
      EmitCellsCons(cells, c);
      assert forall i :: 0 < i < |cells| ==> cells[1..][i - 1] == cells[i];
      var p := UnitPanels(cells[0], c);
      EmitPanelsCount(KindOf(FullPanel(cells[0])), Strip(PanelArgs(FullPanel(cells[0]))), PanelsOf(cells[0]), c);
      EmitCellsCount(cells[1..], p.1);
      PanelCountAppend(p.0, EmitCells(cells[1..], p.1).value.0);
    }
  }

  /** Two consecutive runs of numbers make one run. */
  lemma {:induction false} PrependNumbers(r: Result<(seq<Line>, Counters), RenderError>, head: (seq<Line>, Counters),
                       rest: Result<(seq<Line>, Counters), RenderError>, c: Counters)
    requires r == Prepend(head.0, rest) && rest.Ok?
    requires Continues(head, c) && Continues(rest.value, head.1)
    ensures r.Ok? && Continues(r.value, c)
  {
    NumbersAppend(head.0, rest.value.0);
    RangeAppend(Base(c) + 1, Base(head.1) + 1, Base(rest.value.1) + 1);
  }

  /** The panels of one unit consume the numbers from Base + 1 up to the new Base. */
  lemma {:induction false} UnitNumbers(cell: Cell, c: Counters)
    requires PyInt(cell.count).Some?
    ensures Continues(UnitPanels(cell, c), c)
  {
    var full := FullPanel(cell);
    KindOfValid(full);
    EmitPanelsNumbers(KindOf(full), Strip(PanelArgs(full)), PanelsOf(cell), c);
  }

  /** The numbers of the units run from Base + 1 to the new Base, without gaps or repeats. */
  lemma {:induction false} EmitCellsNumbers(cells: seq<Cell>, c: Counters)
    requires EmitCells(cells, c).Ok?
    ensures Continues(EmitCells(cells, c).value, c)
  {
    if |cells| > 0 {
      EmitCellsCons(cells, c);
      UnitNumbers(cells[0], c);
      EmitCellsNumbers(cells[1..], UnitPanels(cells[0], c).1);
      PrependNumbers(EmitCells(cells, c), UnitPanels(cells[0], c), EmitCells(cells[1..], UnitPanels(cells[0], c).1), c);
    } else {
      assert Numbers([]) == [];
    }
  }

  /** The units of a panelgroup, once its terms are known. */
  function GroupCells(pg: PanelGroup): seq<Cell>
    requires pg.terms.Some?
  {
    CellsOf(pg.terms.value)
  }

  /**
   * A rendered panelgroup is its opening div, the panels of its units, and
   * its closing div; the counters are those after the last unit.
   */
  lemma {:induction false} PanelGroupBody(above: seq<seq<OptToken>>, pg: PanelGroup, c: Counters)
    requires PanelGroupLines(above, pg, c).Ok?
    ensures pg.terms.Some? && EmitCells(GroupCells(pg), c).Ok?
    ensures var p := PanelGroupLines(above, pg, c).value;
      var body := EmitCells(GroupCells(pg), c).value;
      |p.0| >= 2 && p.0[0].Open? && p.0[0].kind == PanelGroupDiv &&
      p.0 == [p.0[0]] + body.0 + [Close(PanelGroupDiv)] && p.1 == body.1
  {
    RowsFlatten(pg.terms.value);
  }

  /** Every line is a panel div. */
  predicate AllPanels(lines: seq<Line>) {
    forall i :: 0 <= i < |lines| ==> lines[i].Panel?
  }

  lemma {:induction false} PrependPanels(r: Result<(seq<Line>, Counters), RenderError>, head: seq<Line>,
                      rest: Result<(seq<Line>, Counters), RenderError>)
    requires r == Prepend(head, rest) && rest.Ok?
    requires AllPanels(head) && AllPanels(rest.value.0)
    ensures r.Ok? && AllPanels(r.value.0)
  {
    var ls := r.value.0;
    assert forall i :: 0 <= i < |ls| ==> ls[i] == if i < |head| then head[i] else rest.value.0[i - |head|];
  }

  lemma {:induction false} UnitAllPanels(cell: Cell, c: Counters)
    requires PyInt(cell.count).Some?
    ensures AllPanels(UnitPanels(cell, c).0)
  {
    var full := FullPanel(cell);
    EmitPanelsClass(KindOf(full), Strip(PanelArgs(full)), PanelsOf(cell), c);
  }

  /** The units emit panel divs and nothing else. */
  lemma {:induction false} EmitCellsPanels(cells: seq<Cell>, c: Counters)
    requires EmitCells(cells, c).Ok?
    ensures AllPanels(EmitCells(cells, c).value.0)
  {
    if |cells| > 0 {
      EmitCellsCons(cells, c);
      UnitAllPanels(cells[0], c);
      EmitCellsPanels(cells[1..], UnitPanels(cells[0], c).1);
      PrependPanels(EmitCells(cells, c), UnitPanels(cells[0], c).0, EmitCells(cells[1..], UnitPanels(cells[0], c).1));
    }
  }

  /** A rendered panelgroup only exists when int() accepts every unit count. */
  lemma {:induction false} PanelGroupCounts(above: seq<seq<OptToken>>, pg: PanelGroup, c: Counters)
    requires PanelGroupLines(above, pg, c).Ok?
    ensures pg.terms.Some? && CountsOk(GroupCells(pg))
  {
    PanelGroupBody(above, pg, c);
    EmitCellsOk(GroupCells(pg), c);
  }

  /** A rendered panelgroup holds one panel div per panel its unit counts ask for. */
  lemma {:induction false} PanelGroupCount(above: seq<seq<OptToken>>, pg: PanelGroup, c: Counters)
    requires PanelGroupLines(above, pg, c).Ok?
    ensures pg.terms.Some? && CountsOk(GroupCells(pg))
    ensures PanelCount(PanelGroupLines(above, pg, c).value.0) == TotalPanels(GroupCells(pg))
  {
    PanelGroupCounts(above, pg, c);
    PanelGroupBody(above, pg, c);
    var lines := PanelGroupLines(above, pg, c).value.0;
    var body := EmitCells(GroupCells(pg), c).value.0;
    EmitCellsCount(GroupCells(pg), c);
    PanelCountAppend([lines[0]] + body, [Close(PanelGroupDiv)]);
    PanelCountAppend([lines[0]], body);
    assert PanelCount([lines[0]]) == 0;
  }

  /** Wrapping lines in a div adds no numbers. */
  lemma {:induction false} WrapNumbers(open: Line, body: (seq<Line>, Counters), close: Line, c: Counters)
    requires !open.Panel? && !close.Panel? && Continues(body, c)
    ensures Continues(([open] + body.0 + [close], body.1), c)
  {
    NumbersAppend([open] + body.0, [close]);
    NumbersAppend([open], body.0);
    assert Numbers([open]) == [];
    assert Numbers([close]) == [];
  }

  /** The numbers of a rendered panelgroup continue those of the panelgroups before it. */
  lemma {:induction false} PanelGroupNumbers(above: seq<seq<OptToken>>, pg: PanelGroup, c: Counters)
    requires PanelGroupLines(above, pg, c).Ok?
    ensures Continues(PanelGroupLines(above, pg, c).value, c)
  {
    PanelGroupBody(above, pg, c);
    EmitCellsNumbers(GroupCells(pg), c);
    var p := PanelGroupLines(above, pg, c).value;
    WrapNumbers(p.0[0], EmitCells(GroupCells(pg), c).value, Close(PanelGroupDiv), c);
  }

  // ---------------------------------------------------------------- markers and kinds

  /** What the marker test makes of one argument. */
  lemma {:induction false} UAddOneCases(arg: string)
    ensures UAddOne(arg) == [] || UAddOne(arg) == ["u"] || UAddOne(arg) == ["u1"]
    ensures UAddOne(arg) == ["u1"] <==> arg == "u"
    ensures UAddOne(arg) == ["u"] <==> SpanArg(arg, 'u').Some?
  {
    if |arg| >= 1 && arg[0] == 'u' {
      assert arg[..1] == "u";
    }
  }

  /** A bare `u` gains the class `u1`. */
  lemma {:induction false} UAddBare(panel: seq<string>)
    ensures "u1" in UAdd(panel) <==> "u" in panel
  {
    if |panel| > 0 {
      var p := panel[..|panel| - 1];
      var last := panel[|panel| - 1];
      UAddBare(p);
      UAddOneCases(last);
      assert panel == p + [last];
    }
  }

  /** A `u<digits>` gains the class `u`. */
  lemma {:induction false} UAddRanged(panel: seq<string>)
    ensures "u" in UAdd(panel) <==> exists i :: 0 <= i < |panel| && SpanArg(panel[i], 'u').Some?
  {
    if |panel| > 0 {
      var p := panel[..|panel| - 1];
      var last := panel[|panel| - 1];
      UAddRanged(p);
      UAddOneCases(last);
      if SpanArg(last, 'u').Some? {
        assert SpanArg(panel[|panel| - 1], 'u').Some?;
      }
      if exists i :: 0 <= i < |p| && SpanArg(p[i], 'u').Some? {
        var i :| 0 <= i < |p| && SpanArg(p[i], 'u').Some?;
        assert panel[i] == p[i];
      }
      if exists i :: 0 <= i < |panel| && SpanArg(panel[i], 'u').Some? {
        var i :| 0 <= i < |panel| && SpanArg(panel[i], 'u').Some?;
        if i < |p| {
          assert p[i] == panel[i];
        }
      }
    }
  }

  /** The class words of a `0` unit hold an `x`, so the unit is blank. */
  lemma {:induction false} ZeroUnitKind(attrs: seq<string>)
    ensures KindOf(FullPanel(Cell("1", attrs + ["x"]))) == Blank
  {
    var panel := ["1"] + (attrs + ["x"]);
    var full := FullPanel(Cell("1", attrs + ["x"]));
    assert full == panel + UAdd(panel);
    var tail := full[1..];
    assert tail[|attrs|] == "x";
    JoinContains(" ", tail, |attrs|);
    var j := Join(" ", tail);
    assert (" " + j)[1..|" " + j|] == j;
    ContainsInfix(" " + j, 1, |" " + j|, "x");
  }

  /** A count of `0` becomes a single blank panel `*` that consumes no number. */
  lemma {:induction false} ZeroUnitIsBlank(attrs: seq<string>, c: Counters)
    ensures var cell := Normalize("0", attrs);
      CellPanels(cell, c) == Ok(([Panel(Strip(PanelArgs(FullPanel(cell))), Star)], Counters(c.counter + 1, c.skip + 1)))
  {
    var cell := Normalize("0", attrs);
    assert cell == Cell("1", attrs + ["x"]);
    PyIntDigits("1");
    ZeroUnitKind(attrs);
    var cls := Strip(PanelArgs(FullPanel(cell)));
    assert DigitsValue("1") == 1;
    var none: seq<Line> := [];
    assert none + [Panel(cls, Star)] == [Panel(cls, Star)];
    assert EmitPanels(Blank, cls, 0, c) == (none, c);
  }

  /** A unit none of whose attributes holds an `x`, `z` or `u` is a run of plain numbered panels. */
  lemma {:induction false} PlainUnitIsRegular(cell: Cell)
    requires IsDigits(cell.count)
    requires forall i :: 0 <= i < |cell.args| ==> 'x' !in cell.args[i] && 'z' !in cell.args[i] && 'u' !in cell.args[i]
    ensures KindOf(FullPanel(cell)) == Regular
  {
    var panel := [cell.count] + cell.args;
    forall i | 0 <= i < |panel| ensures !StartsWith(panel[i], "u") {
      if i == 0 {
        assert IsDigit(cell.count[0]);
      } else {
        assert panel[i] == cell.args[i - 1];
        if |panel[i]| > 0 {
          assert panel[i][0] in panel[i];
        }
      }
    }
    NoMarkers(panel);
    var full := FullPanel(cell);
    assert full == panel;
    var j := Join(" ", cell.args);
    assert full[1..] == cell.args;
    forall ch | ch == 'x' || ch == 'z' || ch == 'u'
      ensures !Contains(" " + j, [ch])
    {
      if ch in j {
        JoinChars(" ", cell.args, ch);
      }
      ContainsChar(" " + j, ch);
    }
  }

  /** Without a `u`-word there are no marker words. */
  lemma {:induction false} NoMarkers(panel: seq<string>)
    requires forall i :: 0 <= i < |panel| ==> !StartsWith(panel[i], "u")
    ensures UAdd(panel) == []
  {
    if |panel| > 0 {
      NoMarkers(panel[..|panel| - 1]);
    }
  }
}
