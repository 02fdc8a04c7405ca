/**
 * The Panelcode grammar as a deterministic recursive-descent parser over
 * positions of the input text.
 *
 * Every token first skips the blanks ' ', '\t', '\n' and '\r'.  A choice
 * written `a ^ b` in the grammar takes the alternative that reaches furthest,
 * the earlier one on a tie; `a | b` takes the first that matches.  An optional
 * part that does not match consumes nothing.
 */
module Grammar {
  import opened Wrappers
  import opened Text
  import opened Options

  /** One entry of a panelgroup's term list: `+`, `,` or a unit `[count, attr...]`. */
  datatype Term = NewCol | NewRow | Unit(count: string, attrs: seq<string>)

  /**
   * A panelgroup.  `terms` is None when the group was read by the bare-unit
   * alternative of the grammar, which records no term list.
   */
  datatype PanelGroup = PanelGroup(terms: Option<seq<Term>>, opts: Option<seq<OptToken>>)
  datatype Layout = Layout(groups: seq<PanelGroup>, opts: Option<seq<OptToken>>)
  datatype Spread = Spread(layouts: seq<Layout>, opts: Option<seq<OptToken>>)
  datatype Gallery = Gallery(spreads: seq<Spread>, opts: Option<seq<OptToken>>)
  datatype Document = Document(galleries: seq<Gallery>, opts: Option<seq<OptToken>>)

  /** Where the text stopped matching the grammar, in the tab-expanded text. */
  datatype ParseError = ParseError(position: nat)

  /** The outcome of one grammar element at a position. */
  datatype Res<T> = Fail | Got(value: T, next: nat)

  // ---------------------------------------------------------------- text

  /** The characters every token skips before it. */
  predicate IsBlank(c: char) { c == ' ' || c == '\t' || c == '\n' || c == '\r' }

  predicate IsWordChar(c: char) { IsLetter(c) || IsDigit(c) || c == '-' }

  /** The kinds of character run the tokens read. */
  datatype CharClass = Blanks | Digits | Letters | WordChars | NonQuotes

  predicate InClass(c: char, cls: CharClass) {
    match cls
    case Blanks => IsBlank(c)
    case Digits => IsDigit(c)
    case Letters => IsLetter(c)
    case WordChars => IsWordChar(c)
    case NonQuotes => c != '\''
  }

  /** The end of the run of characters of class `cls` that starts at j. */
  function RunEnd(s: string, j: nat, cls: CharClass): (k: nat)
    requires j <= |s|
    ensures j <= k <= |s|
    ensures forall m :: j <= m < k ==> InClass(s[m], cls)
    ensures k < |s| ==> !InClass(s[k], cls)
    decreases |s| - j
  {
    if j < |s| && InClass(s[j], cls) then RunEnd(s, j + 1, cls) else j
  }

  /** The position after the blanks that start at i. */
  function Skip(s: string, i: nat): (j: nat)
    requires i <= |s|
    ensures i <= j <= |s|
    ensures forall m :: i <= m < j ==> IsBlank(s[m])
    ensures j < |s| ==> !IsBlank(s[j])
  {
    RunEnd(s, i, Blanks)
  }

  /** The tab stop of str.expandtabs(): `col` is the column modulo 8. */
  function ExpandTabsFrom(s: string, col: nat): (r: string)
    requires col < 8
    ensures '\t' !in r
    decreases |s|
  {
    if |s| == 0 then []
    else if s[0] == '\t' then seq(8 - col, _ => ' ') + ExpandTabsFrom(s[1..], 0)
    else if s[0] == '\n' || s[0] == '\r' then [s[0]] + ExpandTabsFrom(s[1..], 0)
    else [s[0]] + ExpandTabsFrom(s[1..], (col + 1) % 8)
  }

  /** str.expandtabs(), which the parser applies to its input first. */
  function ExpandTabs(s: string): string {
    ExpandTabsFrom(s, 0)
  }

  /** Expanding a text without tabs leaves it as it is. */
  lemma {:induction false} ExpandTabsNoTabs(s: string, col: nat)
    requires col < 8 && '\t' !in s
    ensures ExpandTabsFrom(s, col) == s
    decreases |s|
  {
    if |s| > 0 {
      assert '\t' !in s[1..] by { assert forall c :: c in s[1..] ==> c in s; }
      var next := if s[0] == '\n' || s[0] == '\r' then 0 else (col + 1) % 8;
      ExpandTabsNoTabs(s[1..], next);
      assert s == [s[0]] + s[1..];
    }
  }

  // ---------------------------------------------------------------- tokens

  /** A literal token. */
  function LitAt(s: string, i: nat, lit: string): (r: Res<()>)
    requires i <= |s|
    ensures r.Got? ==> r.next == Skip(s, i) + |lit| <= |s| && s[Skip(s, i)..r.next] == lit
    ensures r.Fail? ==> !(Skip(s, i) + |lit| <= |s| && s[Skip(s, i)..Skip(s, i) + |lit|] == lit)
  {
    var j := Skip(s, i);
    if j + |lit| <= |s| && s[j..j + |lit|] == lit then Got((), j + |lit|) else Fail
  }

  /** `term`: a letter followed by letters, digits and dashes. */
  function TermAt(s: string, i: nat): (r: Res<string>)
    requires i <= |s|
    ensures r.Got? ==> i < r.next <= |s| && |r.value| > 0 && IsLetter(r.value[0])
    ensures r.Got? ==> forall m :: 0 <= m < |r.value| ==> IsWordChar(r.value[m])
    ensures r.Got? ==> r.next < |s| ==> !IsWordChar(s[r.next])
    ensures r.Fail? <==> Skip(s, i) == |s| || !IsLetter(s[Skip(s, i)])
  {
    var j := Skip(s, i);
    if j < |s| && IsLetter(s[j]) then
      var k := RunEnd(s, j + 1, WordChars);
      Got(s[j..k], k)
    else Fail
  }

  /** `Optional(".")`: the position after a dot, or i itself. */
  function OptionalDot(s: string, i: nat): (j: nat)
    requires i <= |s|
    ensures i <= j <= |s|
  {
    var j := Skip(s, i);
    if j < |s| && s[j] == '.' then j + 1 else i
  }

  /** `attr_word`: an optional dot, which is dropped, and a term. */
  function AttrWordAt(s: string, i: nat): (r: Res<string>)
    requires i <= |s|
    ensures r.Got? ==> i < r.next <= |s| && |r.value| > 0 && IsLetter(r.value[0])
  {
    TermAt(s, OptionalDot(s, i))
  }

  /** `Regex("[0-9]*")`: a possibly empty run of digits; it always matches. */
  function DigitsAt(s: string, i: nat): (r: (string, nat))
    requires i <= |s|
    ensures i <= r.1 <= |s| && AllDigits(r.0)
    ensures r.1 < |s| ==> !IsDigit(s[r.1])
  {
    var j := Skip(s, i);
    var k := RunEnd(s, j, Digits);
    (s[j..k], k)
  }

  /** `Regex("[a-zA-Z]+")` */
  function LettersAt(s: string, i: nat): (r: Res<string>)
    requires i <= |s|
    ensures r.Got? ==> i < r.next <= |s| && |r.value| > 0
  {
    var j := Skip(s, i);
    if j < |s| && IsLetter(s[j]) then
      var k := RunEnd(s, j, Letters);
      Got(s[j..k], k)
    else Fail
  }

  /** `"'" + Regex("[^']*") + "'"`: the quoted text, after the blanks that follow the opening quote. */
  function QuotedAt(s: string, i: nat): (r: Res<string>)
    requires i <= |s|
    ensures r.Got? ==> i < r.next <= |s| && '\'' !in r.value
  {
    match LitAt(s, i, "'")
    case Fail => Fail
    case Got(_, a) =>
      var j := Skip(s, a);
      var k := RunEnd(s, j, NonQuotes);
      match LitAt(s, k, "'")
      case Fail => Fail
      case Got(_, e) => Got(s[j..k], e)
  }

  /** `value`: quoted text, else a term. */
  function ValueAt(s: string, i: nat): (r: Res<string>)
    requires i <= |s|
    ensures r.Got? ==> i < r.next <= |s|
  {
    var q := QuotedAt(s, i);
    if q.Got? then q else TermAt(s, i)
  }

  /** `kv_expr`: `key=value`, grouped as [key, value]. */
  function KvExprAt(s: string, i: nat): (r: Res<OptToken>)
    requires i <= |s|
    ensures r.Got? ==> i < r.next <= |s| && r.value.Grouped? && |r.value.tail| == 1
  {
    match TermAt(s, OptionalDot(s, i))
    case Fail => Fail
    case Got(key, a) =>
      match LitAt(s, a, "=")
      case Fail => Fail
      case Got(_, b) =>
        match ValueAt(s, b)
        case Fail => Fail
        case Got(v, e) => Got(Grouped(key, [v]), e)
  }

  /** `kv_word`: letters then a possibly empty run of digits, grouped as [letters, digits]. */
  function KvWordAt(s: string, i: nat): (r: Res<OptToken>)
    requires i <= |s|
    ensures r.Got? ==> i < r.next <= |s| && r.value.Grouped? && |r.value.tail| == 1
    ensures r.Got? ==> IsAlpha(r.value.head) && AllDigits(r.value.tail[0])
  {
    match LettersAt(s, OptionalDot(s, i))
    case Fail => Fail
    case Got(l, a) =>
      assert forall m :: 0 <= m < |l| ==> IsLetter(l[m]);
      var d := DigitsAt(s, a);
      Got(Grouped(l, [d.0]), d.1)
  }

  /** `a ^ b`: the match that reaches furthest, `a` on a tie. */
  function Longest<T>(a: Res<T>, b: Res<T>): (r: Res<T>)
    ensures r == a || r == b
    ensures r.Fail? <==> a.Fail? && b.Fail?
    ensures r.Got? && a.Got? ==> r.next >= a.next
    ensures r.Got? && b.Got? ==> r.next >= b.next
  {
    if b.Got? && (a.Fail? || b.next > a.next) then b else a
  }

  function AsBare(r: Res<string>): Res<OptToken> {
    match r
    case Fail => Fail
    case Got(w, n) => Got(Bare(w), n)
  }

  /** `attr_word ^ kv_expr ^ kv_word` */
  function OptItemAt(s: string, i: nat): (r: Res<OptToken>)
    requires i <= |s|
    ensures r.Got? ==> i < r.next <= |s|
  {
    Longest(Longest(AsBare(AttrWordAt(s, i)), KvExprAt(s, i)), KvWordAt(s, i))
  }

  /** `attr_list`: as many option items as match. */
  function OptItemsAt(s: string, i: nat): (r: (seq<OptToken>, nat))
    requires i <= |s|
    ensures i <= r.1 <= |s|
    decreases |s| - i
  {
    match OptItemAt(s, i)
    case Fail => ([], i)
    case Got(t, j) =>
      var rest := OptItemsAt(s, j);
      ([t] + rest.0, rest.1)
  }

  /** An option block `open1|open2`, the items, and `}`. */
  function OptBlockAt(s: string, i: nat, open1: string, open2: string): (r: Res<seq<OptToken>>)
    requires i <= |s|
    ensures r.Got? ==> i < r.next <= |s|
  {
    var o1 := LitAt(s, i, open1);
    var o := if o1.Got? then o1 else LitAt(s, i, open2);
    match o
    case Fail => Fail
    case Got(_, a) =>
      var items := OptItemsAt(s, a);
      match LitAt(s, items.1, "}")
      case Fail => Fail
      case Got(_, e) => Got(items.0, e)
  }

  /** `Optional(block)`: the block's tokens when it matches, and the position after it. */
  function OptionalBlock(s: string, i: nat, open1: string, open2: string): (r: (Option<seq<OptToken>>, nat))
    requires i <= |s|
    ensures i <= r.1 <= |s|
    ensures r.0.None? ==> r.1 == i
  {
    match OptBlockAt(s, i, open1, open2)
    case Fail => (None, i)
    case Got(v, e) => (Some(v), e)
  }

  // ---------------------------------------------------------------- panelgroups

  /** `ZeroOrMore(attr_word)` */
  function AttrWordsAt(s: string, i: nat): (r: (seq<string>, nat))
    requires i <= |s|
    ensures i <= r.1 <= |s|
    ensures |r.0| > 0 ==> i < r.1
    decreases |s| - i
  {
    match AttrWordAt(s, i)
    case Fail => ([], i)
    case Got(w, j) =>
      var rest := AttrWordsAt(s, j);
      ([w] + rest.0, rest.1)
  }

  /** `numrow + OneOrMore(attr_word)` */
  function UnitWithAttrsAt(s: string, i: nat): (r: Res<seq<string>>)
    requires i <= |s|
    ensures r.Got? ==> i <= r.next <= |s| && |r.value| >= 2
  {
    var d := DigitsAt(s, i);
    var ws := AttrWordsAt(s, d.1);
    if |ws.0| > 0 then Got([d.0] + ws.0, ws.1) else Fail
  }

  /** `numrow` alone */
  function BareCountAt(s: string, i: nat): (r: Res<seq<string>>)
    requires i <= |s|
    ensures r.Got? && i <= r.next <= |s| && |r.value| == 1
  {
    var d := DigitsAt(s, i);
    Got([d.0], d.1)
  }

  /** `attr_word` alone */
  function BareWordAt(s: string, i: nat): (r: Res<seq<string>>)
    requires i <= |s|
    ensures r.Got? ==> i <= r.next <= |s| && |r.value| == 1
  {
    match AttrWordAt(s, i)
    case Fail => Fail
    case Got(w, j) => Got([w], j)
  }

  /** `groupunit`: the group `[count, attr...]` of the furthest-reaching unit shape. */
  function GroupUnitAt(s: string, i: nat): (r: Res<seq<string>>)
    requires i <= |s|
    ensures r.Got? && i <= r.next <= |s| && |r.value| >= 1
  {
    Longest(Longest(UnitWithAttrsAt(s, i), BareCountAt(s, i)), BareWordAt(s, i))
  }

  function AsUnit(g: seq<string>): Term
    requires |g| >= 1
  {
    Unit(g[0], g[1..])
  }

  /** `groupseparator`: `+` or `,`. */
  function SeparatorAt(s: string, i: nat): (r: Res<Term>)
    requires i <= |s|
    ensures r.Got? ==> i < r.next <= |s| && (r.value == NewCol || r.value == NewRow)
  {
    var plus := LitAt(s, i, "+");
    var comma := LitAt(s, i, ",");
    Longest(if plus.Got? then Got(NewCol, plus.next) else Fail,
            if comma.Got? then Got(NewRow, comma.next) else Fail)
  }

  /** `ZeroOrMore(groupseparator + groupunit)`, flattened. */
  function TermsTailAt(s: string, i: nat): (r: (seq<Term>, nat))
    requires i <= |s|
    ensures i <= r.1 <= |s|
    decreases |s| - i
  {
    match SeparatorAt(s, i)
    case Fail => ([], i)
    case Got(sep, j) =>
      var u := GroupUnitAt(s, j);
      var rest := TermsTailAt(s, u.next);
      ([sep, AsUnit(u.value)] + rest.0, rest.1)
  }

  /** `groupterms`: optional `(`, the terms, optional `)`. */
  function GroupTermsAt(s: string, i: nat): (r: Res<seq<Term>>)
    requires i <= |s|
    ensures r.Got? && i <= r.next <= |s|
  {
    var p := LitAt(s, i, "(");
    var a := if p.Got? then p.next else i;
    var u := GroupUnitAt(s, a);
    var tail := TermsTailAt(s, u.next);
    var c := LitAt(s, tail.1, ")");
    Got([AsUnit(u.value)] + tail.0, if c.Got? then c.next else tail.1)
  }

  /** `panelgroup`: `groupterms ^ groupunit`, then an optional `{...}` block. */
  function PanelGroupAt(s: string, i: nat): (r: (PanelGroup, nat))
    requires i <= |s|
    ensures i <= r.1 <= |s|
  {
    var t := GroupTermsAt(s, i);
    var u := GroupUnitAt(s, i);
    var body := Longest(Got(Some(t.value), t.next), Got(None, u.next));
    var o := OptionalBlock(s, body.next, "{+", "{");
    (PanelGroup(body.value, o.0), o.1)
  }

  // ---------------------------------------------------------------- levels

  /** `ZeroOrMore("_" + panelgroup)` */
  function GroupsTailAt(s: string, i: nat): (r: (seq<PanelGroup>, nat))
    requires i <= |s|
    ensures i <= r.1 <= |s|
    decreases |s| - i
  {
    match LitAt(s, i, "_")
    case Fail => ([], i)
    case Got(_, j) =>
      var g := PanelGroupAt(s, j);
      var rest := GroupsTailAt(s, g.1);
      ([g.0] + rest.0, rest.1)
  }

  /** `layout`: `_`-separated panelgroups and an optional `{: }` / `{| }` block. */
  function LayoutAt(s: string, i: nat): (r: (Layout, nat))
    requires i <= |s|
    ensures i <= r.1 <= |s|
    ensures |r.0.groups| > 0
  {
    var g := PanelGroupAt(s, i);
    var rest := GroupsTailAt(s, g.1);
    var o := OptionalBlock(s, rest.1, "{|", "{:");
    (Layout([g.0] + rest.0, o.0), o.1)
  }

  /** `ZeroOrMore("|" + layout)` */
  function LayoutsTailAt(s: string, i: nat): (r: (seq<Layout>, nat))
    requires i <= |s|
    ensures i <= r.1 <= |s|
    decreases |s| - i
  {
    match LitAt(s, i, "|")
    case Fail => ([], i)
    case Got(_, j) =>
      var l := LayoutAt(s, j);
      var rest := LayoutsTailAt(s, l.1);
      ([l.0] + rest.0, rest.1)
  }

  /** `spread`: `|`-separated layouts and an optional `{:: }` / `{; }` block. */
  function SpreadAt(s: string, i: nat): (r: (Spread, nat))
    requires i <= |s|
    ensures i <= r.1 <= |s|
    ensures |r.0.layouts| > 0
  {
    var l := LayoutAt(s, i);
    var rest := LayoutsTailAt(s, l.1);
    var o := OptionalBlock(s, rest.1, "{;", "{::");
    (Spread([l.0] + rest.0, o.0), o.1)
  }

  /** `ZeroOrMore(";" + spread)` */
  function SpreadsTailAt(s: string, i: nat): (r: (seq<Spread>, nat))
    requires i <= |s|
    ensures i <= r.1 <= |s|
    decreases |s| - i
  {
    match LitAt(s, i, ";")
    case Fail => ([], i)
    case Got(_, j) =>
      var p := SpreadAt(s, j);
      var rest := SpreadsTailAt(s, p.1);
      ([p.0] + rest.0, rest.1)
  }

  /** `gallery`: `;`-separated spreads and an optional `{::: }` / `{@ }` block. */
  function GalleryAt(s: string, i: nat): (r: (Gallery, nat))
    requires i <= |s|
    ensures i <= r.1 <= |s|
    ensures |r.0.spreads| > 0
  {
    var p := SpreadAt(s, i);
    var rest := SpreadsTailAt(s, p.1);
    var o := OptionalBlock(s, rest.1, "{@", "{:::");
    (Gallery([p.0] + rest.0, o.0), o.1)
  }

  /** `ZeroOrMore("@" + gallery)` */
  function GalleriesTailAt(s: string, i: nat): (r: (seq<Gallery>, nat))
    requires i <= |s|
    ensures i <= r.1 <= |s|
    decreases |s| - i
  {
    match LitAt(s, i, "@")
    case Fail => ([], i)
    case Got(_, j) =>
      var g := GalleryAt(s, j);
      var rest := GalleriesTailAt(s, g.1);
      ([g.0] + rest.0, rest.1)
  }

  /** `root`: `@`-separated galleries and an optional `{:::: }` / `{! }` block. */
  function DocumentAt(s: string, i: nat): (r: (Document, nat))
    requires i <= |s|
    ensures i <= r.1 <= |s|
    ensures |r.0.galleries| > 0
  {
    var g := GalleryAt(s, i);
    var rest := GalleriesTailAt(s, g.1);
    var o := OptionalBlock(s, rest.1, "{!", "{::::");
    (Document([g.0] + rest.0, o.0), o.1)
  }

  /**
   * parse(code_str, root): the document, or the position of the first text
   * left over after it (the whole input must be consumed).
   */
  function Parse(code: string): (r: Result<Document, ParseError>)
    ensures r.Err? ==> r.error.position < |ExpandTabs(code)| && !IsBlank(ExpandTabs(code)[r.error.position])
    ensures r.Ok? <==> Skip(ExpandTabs(code), DocumentAt(ExpandTabs(code), 0).1) == |ExpandTabs(code)|
  {
    var s := ExpandTabs(code);
    var d := DocumentAt(s, 0);
    var e := Skip(s, d.1);
    if e == |s| then Ok(d.0) else Err(ParseError(e))
  }
}
