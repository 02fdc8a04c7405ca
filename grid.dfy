/**
 * The part of the HTML5/CSS3 grid renderer that both renderers share: the
 * rows of a panelgroup, its width, its class, and the numbered panels it
 * emits.  Both render.py and panelcode/render.py run this same code inside
 * their layout loop.
 *
 * The HTML is modelled as a list of line records; the text of each line is a
 * fixed template around the record's fields.
 */
module Grid {
  import opened Wrappers
  import opened Text
  import opened Options
  import opened Grammar

  /** The exceptions the renderer lets escape. */
  datatype RenderError = ValueError | IndexError | TypeError

  datatype Kind = GalleryDiv | SpreadDiv | LayoutDiv | PanelGroupDiv

  /** The text of a panel: `*` for a blank, a number, or a range `a-b` for a merged panel. */
  datatype PanelLabel = Star | Num(n: int) | Span(first: int, last: int)

  /** One emitted HTML line. */
  datatype Line =
    | Open(kind: Kind, cls: string)        // <div class="kind cls">
    | Close(kind: Kind)                    // </div>
    | Panel(cls: string, mark: PanelLabel)  // <div class="panel cls">mark</div>
    | Caption(html: string)                // <div class="label bottom">html</div>
    | Raw(text: string)                    // a prebuilt block (image layers)
    | AnchorOpen(href: string)             // <a href="href">
    | AnchorClose                          // </a>

  /** A unit of a row once its count is rewritten: the list `[count, arg...]`. */
  datatype Cell = Cell(count: string, args: seq<string>)

  /** `panelcounter` and `panelskip`. */
  datatype Counters = Counters(counter: int, skip: int)

  /** An option level that is absent reads as the default `['']`. */
  function OptsOf(o: Option<seq<OptToken>>): seq<OptToken> {
    o.GetOr([Bare("")])
  }

  // ---------------------------------------------------------------- rows

  /** An empty count becomes `1`; a count `0` becomes `1` and gains the blank flag `x`. */
  function Normalize(count: string, attrs: seq<string>): Cell {
    if count == "" then Cell("1", attrs)
    else if count == "0" then Cell("1", attrs + ["x"])
    else Cell(count, attrs)
  }

  /** One step of the row building: `,` opens a row, `+` is skipped, a unit joins the last row. */
  function AddTerm(rows: seq<seq<Cell>>, t: Term): (r: seq<seq<Cell>>)
    requires |rows| >= 1
    ensures |r| >= 1
  {
    match t
    case NewRow => rows + [[]]
    case NewCol => rows
    case Unit(c, a) => rows[..|rows| - 1] + [rows[|rows| - 1] + [Normalize(c, a)]]
  }

  /** The rows of a term list. */
  function RowsOf(terms: seq<Term>): (rows: seq<seq<Cell>>)
    ensures |rows| >= 1
  {
    if |terms| == 0 then [[]] else AddTerm(RowsOf(terms[..|terms| - 1]), terms[|terms| - 1])
  }

  /** The row-building loop of the renderer. */
  method BuildRows(terms: seq<Term>) returns (rows: seq<seq<Cell>>)
    ensures rows == RowsOf(terms)
  {
    rows := [[]];
    var i := 0;
    while i < |terms|
      invariant 0 <= i <= |terms|
      invariant rows == RowsOf(terms[..i])
    {
      assert terms[..i + 1][..i] == terms[..i];
      match terms[i] {
        case NewRow => rows := rows + [[]];
        case NewCol =>
        case Unit(c, a) => rows := rows[..|rows| - 1] + [rows[|rows| - 1] + [Normalize(c, a)]];
      }
      i := i + 1;
    }
    assert terms[..i] == terms;
  }

  function NewRowCount(terms: seq<Term>): nat {
    if |terms| == 0 then 0
    else NewRowCount(terms[..|terms| - 1]) + (if terms[|terms| - 1] == NewRow then 1 else 0)
  }

  /** The units of a term list, rewritten, in order. */
  function CellsOf(terms: seq<Term>): seq<Cell> {
    if |terms| == 0 then []
    else
      CellsOf(terms[..|terms| - 1]) +
      (match terms[|terms| - 1] case Unit(c, a) => [Normalize(c, a)] case _ => [])
  }

  function Flatten(rows: seq<seq<Cell>>): seq<Cell> {
    if |rows| == 0 then [] else rows[0] + Flatten(rows[1..])
  }

  lemma {:induction false} FlattenSnoc(rows: seq<seq<Cell>>, row: seq<Cell>)
    ensures Flatten(rows + [row]) == Flatten(rows) + row
  {
    if |rows| > 0 {
      assert (rows + [row])[1..] == rows[1..] + [row];
      FlattenSnoc(rows[1..], row);
    } else {
      assert [row][1..] == [];
    }
  }

  /** There is one row more than there are `,` terms. */
  lemma {:induction false} RowCount(terms: seq<Term>)
    ensures |RowsOf(terms)| == 1 + NewRowCount(terms)
  {
    if |terms| > 0 {
      RowCount(terms[..|terms| - 1]);
    }
  }

  /** Read row by row, the rows hold exactly the rewritten units, in order; no `+` or `,` is left. */
  lemma {:induction false} RowsFlatten(terms: seq<Term>)
    ensures Flatten(RowsOf(terms)) == CellsOf(terms)
  {
    if |terms| > 0 {
      var p := terms[..|terms| - 1];
      RowsFlatten(p);
      var rows := RowsOf(p);
      var n := |rows|;
      assert n >= 1;
      match terms[|terms| - 1]
      case NewRow =>
        FlattenSnoc(rows, []);
      case NewCol =>
      case Unit(c, a) =>
        var front := rows[..n - 1];
        assert rows == front + [rows[n - 1]];
        FlattenSnoc(front, rows[n - 1]);
        FlattenSnoc(front, rows[n - 1] + [Normalize(c, a)]);
    }
  }

  // ---------------------------------------------------------------- width

  /** A bare word starting with `w`. */
  predicate IsWidthWord(t: OptToken) {
    t.Bare? && StartsWith(t.word, "w")
  }

  /** The first bare `w...` word of an option level. */
  function FirstW(opts: seq<OptToken>): (r: Option<string>)
    ensures r.None? <==> forall i :: 0 <= i < |opts| ==> !IsWidthWord(opts[i])
    ensures r.Some? ==> exists i :: 0 <= i < |opts| && opts[i] == Bare(r.value) && IsWidthWord(opts[i]) &&
                                  forall j :: 0 <= j < i ==> !IsWidthWord(opts[j])
  {
    if |opts| == 0 then None
    else if IsWidthWord(opts[0]) then Some(opts[0].word)
    else
      var r := FirstW(opts[1..]);
      assert forall i :: 0 <= i < |opts| - 1 ==> opts[1..][i] == opts[i + 1];
      r
  }

  /**
   * The width search: levels are scanned least specific first; the first `w`
   * word of a level is read with int(); a zero moves on to the next level.
   */
  function SearchWidth(levels: seq<seq<OptToken>>): Result<int, RenderError> {
    if |levels| == 0 then Ok(0)
    else
      match FirstW(levels[0])
      case None => SearchWidth(levels[1..])
      case Some(w) =>
        match PyInt(w[1..])
        case None => Err(ValueError)
        case Some(n) => if n == 0 then SearchWidth(levels[1..]) else Ok(n)
  }

  /** The `while allopts and pgroup_width == 0` loop. */
  method FindWidth(levels: seq<seq<OptToken>>) returns (r: Result<int, RenderError>)
    ensures r == SearchWidth(levels)
  {
    var allopts := levels;
    var width := 0;
    while |allopts| > 0 && width == 0
      invariant SearchWidth(levels) == (if width == 0 then SearchWidth(allopts) else Ok(width))
      decreases |allopts|
    {
      var opts := allopts[0];
      var rest := allopts[1..];
      var j := 0;
      while j < |opts|
        invariant 0 <= j <= |opts|
        invariant FirstW(opts) == FirstW(opts[j..])
        invariant width == 0
      {
        if IsWidthWord(opts[j]) {
          var n := PyInt(opts[j].word[1..]);
          if n.None? {
            return Err(ValueError);
          }
          width := n.value;
          break;
        }
        assert opts[j..][1..] == opts[j + 1..];
        j := j + 1;
      }
      allopts := rest;
    }
    r := Ok(width);
  }

  /** `int(arg[1:])` of a `c<digits>` word. */
  function SpanArg(arg: string, letter: char): Option<int> {
    if |arg| > 1 && arg[0] == letter && IsDigits(arg[1..]) then Some(DigitsValue(arg[1..])) else None
  }

  /** The values of the `<letter><digits>` words of a panel, in order. */
  function SpanArgs(panel: seq<string>, letter: char): seq<int> {
    if |panel| == 0 then []
    else
      SpanArgs(panel[..|panel| - 1], letter) +
      (match SpanArg(panel[|panel| - 1], letter) case Some(v) => [v] case None => [])
  }

  /** max(xs), or `default` when xs is empty (the ValueError of max() is caught). */
  function MaxOr(xs: seq<int>, default: int): int {
    if |xs| == 0 then default
    else if |xs| == 1 then xs[0]
    else
      var m := MaxOr(xs[..|xs| - 1], default);
      if xs[|xs| - 1] > m then xs[|xs| - 1] else m
  }

  /** MaxOr is the maximum: an upper bound that is one of the elements. */
  lemma {:induction false} MaxOrIsMax(xs: seq<int>, default: int)
    requires |xs| > 0
    ensures forall i :: 0 <= i < |xs| ==> xs[i] <= MaxOr(xs, default)
    ensures exists i :: 0 <= i < |xs| && xs[i] == MaxOr(xs, default)
  {
    if |xs| > 1 {
      var p := xs[..|xs| - 1];
      MaxOrIsMax(p, default);
      var m := MaxOr(p, default);
      var k :| 0 <= k < |p| && p[k] == m;
      assert forall i :: 0 <= i < |p| ==> xs[i] == p[i];
      if xs[|xs| - 1] > m {
        assert xs[|xs| - 1] == MaxOr(xs, default);
      } else {
        assert xs[k] == MaxOr(xs, default);
      }
    } else {
      assert xs[0] == MaxOr(xs, default);
    }
  }

  /** The column span of a panel: the largest `c<N>`, 1 when there is none. */
  function ColSpan(cell: Cell): int {
    MaxOr(SpanArgs([cell.count] + cell.args, 'c'), 1)
  }

  /** Every count of the row is accepted by int(). */
  predicate CountsOk(row: seq<Cell>) {
    forall i :: 0 <= i < |row| ==> PyInt(row[i].count).Some?
  }

  /** `int(panel[0]) * c_max` */
  function CellLen(cell: Cell): int
    requires PyInt(cell.count).Some?
  {
    PyInt(cell.count).value * ColSpan(cell)
  }

  /** The length of a row in panel spans. */
  function RowLen(row: seq<Cell>): int
    requires CountsOk(row)
  {
    if |row| == 0 then 0 else RowLen(row[..|row| - 1]) + CellLen(row[|row| - 1])
  }

  predicate AllCountsOk(rows: seq<seq<Cell>>) {
    forall i :: 0 <= i < |rows| ==> CountsOk(rows[i])
  }

  /** The lengths of the rows, in order. */
  function RowLens(rows: seq<seq<Cell>>): (ls: seq<int>)
    requires AllCountsOk(rows)
    ensures |ls| == |rows|
  {
    seq(|rows|, i requires 0 <= i < |rows| => RowLen(rows[i]))
  }

  /** The derived width: the longest row; int() of a bad count raises ValueError. */
  function DerivedWidth(rows: seq<seq<Cell>>): Result<int, RenderError> {
    if AllCountsOk(rows) then Ok(MaxOr(RowLens(rows), 0)) else Err(ValueError)
  }

  /** The inner row-length loop: the spans of one row, summed. */
  method RowLength(row: seq<Cell>) returns (r: Result<int, RenderError>)
    ensures r.Ok? <==> CountsOk(row)
    ensures r.Ok? ==> r.value == RowLen(row)
    ensures r.Err? ==> r.error == ValueError
  {
    var len := 0;
    var j := 0;
    while j < |row|
      invariant 0 <= j <= |row|
      invariant CountsOk(row[..j]) && RowLen(row[..j]) == len
    {
      var n := PyInt(row[j].count);
      if n.None? {
        return Err(ValueError);
      }
      RowLenStep(row, j);
      len := len + n.value * ColSpan(row[j]);
      j := j + 1;
    }
    assert row[..j] == row;
    r := Ok(len);
  }

  /** One more cell of a row adds its span. */
  lemma {:induction false} RowLenStep(row: seq<Cell>, j: nat)
    requires j < |row| && CountsOk(row[..j]) && PyInt(row[j].count).Some?
    ensures CountsOk(row[..j + 1])
    ensures RowLen(row[..j + 1]) == RowLen(row[..j]) + CellLen(row[j])
  {
    var p := row[..j + 1];
    assert p[..j] == row[..j] && p[j] == row[j];
  }

  lemma {:induction false} LensDone(rows: seq<seq<Cell>>, lens: seq<int>)
    requires |lens| == |rows|
    requires forall k :: 0 <= k < |rows| ==> CountsOk(rows[k]) && lens[k] == RowLen(rows[k])
    ensures AllCountsOk(rows) && lens == RowLens(rows)
  {
  }

  /** The row-length loops of the renderer. */
  method DeriveWidth(rows: seq<seq<Cell>>) returns (r: Result<int, RenderError>)
    ensures r == DerivedWidth(rows)
  {
    var lens: seq<int> := [];
    var i := 0;
    while i < |rows|
      invariant 0 <= i <= |rows| && |lens| == i
      invariant forall k :: 0 <= k < i ==> CountsOk(rows[k]) && lens[k] == RowLen(rows[k])
    {
      var len := RowLength(rows[i]);
      if len.Err? {
        assert !CountsOk(rows[i]);
        return Err(ValueError);
      }
      lens := lens + [len.value];
      i := i + 1;
    }
    LensDone(rows, lens);
    r := Ok(MaxOr(lens, 0));
  }

  /** The panelgroup class: its first option token, then ` w<width>`. */
  function GroupClass(pgOpts: seq<OptToken>, width: int): Result<string, RenderError> {
    if |pgOpts| == 0 then Err(IndexError)
    else
      match pgOpts[0]
      case Bare(w) => Ok(w + " w" + IntToStr(width))
      case Grouped(_, _) => Err(TypeError)
  }

  // ---------------------------------------------------------------- panels

  /** The marker word a `u` argument adds: `u` gains `u1`, `u<digits>` gains a plain `u`. */
  function UAddOne(arg: string): seq<string> {
    if StartsWith(arg, "u") then
      if |arg| == 1 then ["u1"] else if IsDigits(arg[1..]) then ["u"] else []
    else []
  }

  /** `arg_add`: the marker words of a panel, in order. */
  function UAdd(panel: seq<string>): seq<string> {
    if |panel| == 0 then [] else UAdd(panel[..|panel| - 1]) + UAddOne(panel[|panel| - 1])
  }

  /** The panel list `[count] + args + arg_add`. */
  function FullPanel(cell: Cell): seq<string> {
    var p := [cell.count] + cell.args;
    p + UAdd(p)
  }

  /** `panel_args`: a space, then the arguments joined by spaces. */
  function PanelArgs(full: seq<string>): string
    requires |full| >= 1
  {
    " " + Join(" ", full[1..])
  }

  /** The branch the emission loop takes for every panel of a unit. */
  datatype PanelKind = Blank | Ranged(umax: int) | Regular

  /**
   * A blank (any `x` or `z` character among the arguments) wins over a
   * merged panel (any `u` character); the merged panel's size is its
   * largest `u<N>`, 1 when there is none.
   */
  function KindOf(full: seq<string>): PanelKind
    requires |full| >= 1
  {
    var pa := PanelArgs(full);
    if Contains(pa, "x") || Contains(pa, "z") then Blank
    else if Contains(pa, "u") then Ranged(MaxOr(SpanArgs(full, 'u'), 1))
    else Regular
  }

  /** One panel: its label and the counters after it. */
  function Step(kind: PanelKind, c: Counters): (PanelLabel, Counters) {
    match kind
    case Blank => (Star, Counters(c.counter + 1, c.skip + 1))
    case Regular => (Num(c.counter + 1 - c.skip), Counters(c.counter + 1, c.skip))
    case Ranged(m) =>
      if m == 0 then (Star, Counters(c.counter + 1, c.skip + 1))
      else if m == 1 then (Num(c.counter + 1 - c.skip), Counters(c.counter + 1, c.skip))
      else (Span(c.counter + 1 - c.skip, c.counter + m - c.skip), Counters(c.counter + m, c.skip))
  }

  /** The first n panels of a unit. */
  function EmitPanels(kind: PanelKind, cls: string, n: nat, c: Counters): (seq<Line>, Counters) {
    if n == 0 then ([], c)
    else
      var prev := EmitPanels(kind, cls, n - 1, c);
      var step := Step(kind, prev.1);
      (prev.0 + [Panel(cls, step.0)], step.1)
  }

  /** All panels of one unit; int() of its count may fail; a negative count emits nothing. */
  function CellPanels(cell: Cell, c: Counters): Result<(seq<Line>, Counters), RenderError> {
    var full := FullPanel(cell);
    match PyInt(cell.count)
    case None => Err(ValueError)
    case Some(n) => Ok(EmitPanels(KindOf(full), Strip(PanelArgs(full)), if n < 0 then 0 else n, c))
  }

  /** Lines emitted so far in front of the outcome of the rest. */
  function Prepend(ls: seq<Line>, r: Result<(seq<Line>, Counters), RenderError>): Result<(seq<Line>, Counters), RenderError> {
    match r
    case Err(e) => Err(e)
    case Ok(p) => Ok((ls + p.0, p.1))
  }

  /** The panels of a sequence of units, the counters threaded through; the first failure stops it. */
  function EmitCells(cells: seq<Cell>, c: Counters): Result<(seq<Line>, Counters), RenderError> {
    if |cells| == 0 then Ok(([], c))
    else
      match CellPanels(cells[0], c)
      case Err(e) => Err(e)
      case Ok(p) => Prepend(p.0, EmitCells(cells[1..], p.1))
  }

  /** One panelgroup: its div, its panels, the closing tag, and the counters after it. */
  function PanelGroupLines(above: seq<seq<OptToken>>, pg: PanelGroup, c: Counters): Result<(seq<Line>, Counters), RenderError> {
    var pgOpts := OptsOf(pg.opts);
    match pg.terms
    case None => Err(IndexError)
    case Some(terms) =>
      var rows := RowsOf(terms);
      var w :- SearchWidth(above + [pgOpts]);
      var width :- if w == 0 then DerivedWidth(rows) else Ok(w);
      var cls :- GroupClass(pgOpts, width);
      var body :- EmitCells(Flatten(rows), c);
      Ok(([Open(PanelGroupDiv, cls)] + body.0 + [Close(PanelGroupDiv)], body.1))
  }

  /** The marker loop over the arguments of a panel. */
  method AddMarkers(panel: seq<string>) returns (add: seq<string>)
    ensures add == UAdd(panel)
  {
    add := [];
    var k := 0;
    while k < |panel|
      invariant 0 <= k <= |panel|
      invariant add == UAdd(panel[..k])
    {
      assert panel[..k + 1][..k] == panel[..k];
      var arg := panel[k];
      if StartsWith(arg, "u") {
        if |arg| == 1 {
          add := add + ["u1"];
        } else if IsDigits(arg[1..]) {
          add := add + ["u"];
        }
      }
      k := k + 1;
    }
    assert panel[..k] == panel;
  }

  /** One unit: its marker words, its argument string, its count, then its panels. */
  method EmitCell(cell: Cell, c: Counters) returns (r: Result<(seq<Line>, Counters), RenderError>)
    ensures r == CellPanels(cell, c)
  {
    var panel := [cell.count] + cell.args;
    var add := AddMarkers(panel);
    panel := panel + add;
    var panelArgs := " " + Join(" ", panel[1..]);
    var count := PyInt(panel[0]);
    if count.None? {
      return Err(ValueError);
    }
    var n: nat := if count.value < 0 then 0 else count.value;
    var lines, ctr := EmitUnit(panel, panelArgs, n, c);
    r := Ok((lines, ctr));
  }

  /** The emission loop of one unit: the counters move as the branch of each panel says. */
  method EmitUnit(panel: seq<string>, panelArgs: string, n: nat, c: Counters) returns (lines: seq<Line>, ctr: Counters)
    requires |panel| >= 1 && panelArgs == PanelArgs(panel)
    ensures (lines, ctr) == EmitPanels(KindOf(panel), Strip(panelArgs), n, c)
  {
    lines := [];
    var counter, skip := c.counter, c.skip;
    var i := 0;
    while i < n
      invariant 0 <= i <= n
      invariant (lines, Counters(counter, skip)) == EmitPanels(KindOf(panel), Strip(panelArgs), i, c)
    {
      var pas := Strip(panelArgs);
      if Contains(panelArgs, "x") || Contains(panelArgs, "z") {
        counter, skip := counter + 1, skip + 1;
        lines := lines + [Panel(pas, Star)];
      } else if Contains(panelArgs, "u") {
        var umax := MaxOr(SpanArgs(panel, 'u'), 1);
        if umax == 0 {
          counter, skip := counter + 1, skip + 1;
          lines := lines + [Panel(pas, Star)];
        } else if umax == 1 {
          counter := counter + 1;
          lines := lines + [Panel(pas, Num(counter - skip))];
        } else {
          lines := lines + [Panel(pas, Span(counter + 1 - skip, counter + umax - skip))];
          counter := counter + umax;
        }
      } else {
        counter := counter + 1;
        lines := lines + [Panel(pas, Num(counter - skip))];
      }
      i := i + 1;
    }
    ctr := Counters(counter, skip);
  }

  /** The panel loop over the units of one row. */
  method EmitRow(row: seq<Cell>, c: Counters) returns (r: Result<(seq<Line>, Counters), RenderError>)
    ensures r == EmitCells(row, c)
  {
    var lines: seq<Line> := [];
    var ctr := c;
    var j := 0;
    assert row[j..] == row;
    PrependNil(EmitCells(row, c));
    while j < |row|
      invariant 0 <= j <= |row|
      invariant EmitCells(row, c) == Prepend(lines, EmitCells(row[j..], ctr))
    {
      ghost var rest := row[j..];
      assert rest[0] == row[j] && rest[1..] == row[j + 1..];
      var p := EmitCell(row[j], ctr);
      if p.Err? {
        assert EmitCells(row[j..], ctr) == Err(p.error);
        return Err(p.error);
      }
      PrependAssoc(lines, p.value.0, EmitCells(row[j + 1..], p.value.1));
      lines := lines + p.value.0;
      ctr := p.value.1;
      j := j + 1;
    }
    assert row[j..] == [] && lines + [] == lines;
    r := Ok((lines, ctr));
  }

  /** Emitting `a + b` is emitting `a`, then `b` from where `a` left the counters. */
  lemma {:induction false} EmitCellsAppend(a: seq<Cell>, b: seq<Cell>, c: Counters)
    ensures EmitCells(a + b, c) ==
      match EmitCells(a, c)
      case Err(e) => Err(e)
      case Ok(p) => Prepend(p.0, EmitCells(b, p.1))
  {
    if |a| == 0 {
      assert a + b == b;
      PrependNil(EmitCells(b, c));
    } else {
      assert (a + b)[0] == a[0] && (a + b)[1..] == a[1..] + b;
      match CellPanels(a[0], c)
      case Err(e) =>
      case Ok(p) =>
        EmitCellsAppend(a[1..], b, p.1);
        match EmitCells(a[1..], p.1)
        case Err(e) =>
        case Ok(q) =>
          PrependAssoc(p.0, q.0, EmitCells(b, q.1));
    }
  }

  lemma {:induction false} PrependNil(r: Result<(seq<Line>, Counters), RenderError>)
    ensures Prepend([], r) == r
  {
    if r.Ok? {
      assert [] + r.value.0 == r.value.0;
    }
  }

  /** The panel loops over the rows of a panelgroup. */
  method EmitRows(rows: seq<seq<Cell>>, c: Counters) returns (r: Result<(seq<Line>, Counters), RenderError>)
    ensures r == EmitCells(Flatten(rows), c)
  {
    var lines: seq<Line> := [];
    var ctr := c;
    var i := 0;
    assert rows[i..] == rows;
    PrependNil(EmitCells(Flatten(rows), c));
    while i < |rows|
      invariant 0 <= i <= |rows|
      invariant EmitCells(Flatten(rows), c) == Prepend(lines, EmitCells(Flatten(rows[i..]), ctr))
    {
      assert Flatten(rows[i..]) == rows[i] + Flatten(rows[i + 1..]) by {
        assert rows[i..][1..] == rows[i + 1..];
      }
      EmitCellsAppend(rows[i], Flatten(rows[i + 1..]), ctr);
      var p := EmitRow(rows[i], ctr);
      if p.Err? {
        return Err(p.error);
      }
      PrependAssoc(lines, p.value.0, EmitCells(Flatten(rows[i + 1..]), p.value.1));
      lines := lines + p.value.0;
      ctr := p.value.1;
      i := i + 1;
    }
    assert rows[i..] == [] && lines + [] == lines;
    r := Ok((lines, ctr));
  }

  lemma {:induction false} PrependAssoc(a: seq<Line>, b: seq<Line>, r: Result<(seq<Line>, Counters), RenderError>)
    ensures Prepend(a, Prepend(b, r)) == Prepend(a + b, r)
  {
    if r.Ok? {
      assert a + (b + r.value.0) == (a + b) + r.value.0;
    }
  }

  /** One panelgroup as the renderer's loop body computes it. */
  method RenderPanelGroup(above: seq<seq<OptToken>>, pg: PanelGroup, c: Counters)
    returns (r: Result<(seq<Line>, Counters), RenderError>)
    ensures r == PanelGroupLines(above, pg, c)
  {
    var pgOpts := OptsOf(pg.opts);
    if pg.terms.None? {
      return Err(IndexError);
    }
    var rows := BuildRows(pg.terms.value);
    var w := FindWidth(above + [pgOpts]);
    if w.Err? {
      return Err(w.error);
    }
    var width := w.value;
    if width == 0 {
      var d := DeriveWidth(rows);
      if d.Err? {
        return Err(d.error);
      }
      width := d.value;
    }
    var cls := GroupClass(pgOpts, width);
    if cls.Err? {
      return Err(cls.error);
    }
    var body := EmitRows(rows, c);
    if body.Err? {
      return Err(body.error);
    }
    r := Ok(([Open(PanelGroupDiv, cls.value)] + body.value.0 + [Close(PanelGroupDiv)], body.value.1));
  }
}
