/**
 * Different spellings of the same panelcode that the grammar reads alike:
 * blanks before and after any separator, blanks before the whole text, a
 * dot before an attribute word and an opening parenthesis before a
 * panelgroup's terms change nothing in the tree.
 */
module Spelling {
  import opened Wrappers
  import opened Text
  import opened Grammar
  import opened GrammarShift
  import opened GrammarLaws

  predicate AllBlank(b: string) {
    forall m :: 0 <= m < |b| ==> IsBlank(b[m])
  }

  // ---------------------------------------------------------------- runs

  /** A run of class `cls` goes on through characters of that class. */
  lemma {:induction false} RunThrough(s: string, a: nat, b: nat, cls: CharClass)
    requires a <= b <= |s|
    requires forall m :: a <= m < b ==> InClass(s[m], cls)
    ensures RunEnd(s, a, cls) == RunEnd(s, b, cls)
    decreases b - a
  {
    if a < b {
      RunThrough(s, a + 1, b, cls);
    }
  }

  /** Blanks written before a text are skipped with the text's own. */
  lemma {:induction false} SkipBlanks(b: string, x: string)
    requires AllBlank(b)
    ensures Skip(b + x, 0) == |b| + Skip(x, 0)
  {
    var s := b + x;
    SuffixOfAppend(b, x, 0);
    assert x[0..] == x;
    SkipShift(s, |b|, x, |b|, 0);
    forall m | 0 <= m < |b|
      ensures InClass(s[m], Blanks)
    {
      assert s[m] == b[m];
    }
    RunThrough(s, 0, |b|, Blanks);
  }

  /** A one-character literal where that character follows the blanks. */
  lemma {:induction false} LitHere(s: string, i: nat, c: char)
    requires i <= |s| && Skip(s, i) < |s| && s[Skip(s, i)] == c
    ensures LitAt(s, i, [c]) == Got((), Skip(s, i) + 1)
  {
    assert s[Skip(s, i)..Skip(s, i) + 1] == [c];
  }

  /** A one-character literal where another character follows the blanks. */
  lemma {:induction false} LitNotHere(s: string, i: nat, c: char)
    requires i <= |s| && (Skip(s, i) == |s| || s[Skip(s, i)] != c)
    ensures LitAt(s, i, [c]).Fail?
  {
    if Skip(s, i) < |s| {
      assert s[Skip(s, i)..Skip(s, i) + 1][0] == s[Skip(s, i)];
    }
  }

  lemma {:induction false} SeparatorHere(s: string, i: nat, c: char)
    requires i <= |s| && Skip(s, i) < |s| && s[Skip(s, i)] == c && (c == '+' || c == ',')
    ensures SeparatorAt(s, i) == Got(if c == '+' then NewCol else NewRow, Skip(s, i) + 1)
  {
    if c == '+' {
      LitHere(s, i, '+');
      LitNotHere(s, i, ',');
    } else {
      LitNotHere(s, i, '+');
      LitHere(s, i, ',');
    }
  }

  /**
   * The text `b1 + [c] + b2 + x`, a separator with blanks around it, where
   * `[c] + x` has none: the separator and the text after it are found in
   * both.
   */
  lemma {:induction false} Spaced(b1: string, c: char, b2: string, x: string)
    requires AllBlank(b1) && AllBlank(b2) && !IsBlank(c)
    ensures var s := b1 + [c] + b2 + x;
      Skip(s, 0) == |b1| && s[|b1|] == c && Skip(s, |b1| + 1) == |b1| + 1 + |b2| + Skip(x, 0) &&
      Suffix(s, |b1| + 1 + |b2| + Skip(x, 0), x[Skip(x, 0)..])
    ensures var t := [c] + x;
      Skip(t, 0) == 0 && t[0] == c && Skip(t, 1) == 1 + Skip(x, 0) && Suffix(t, 1 + Skip(x, 0), x[Skip(x, 0)..])
  {
    var s := b1 + [c] + b2 + x;
    var t := [c] + x;
    assert s == b1 + ([c] + b2 + x);
    SkipBlanks(b1, [c] + b2 + x);
    SuffixOfAppend(b1 + [c], b2 + x, 0);
    assert (b2 + x)[0..] == b2 + x;
    assert s == (b1 + [c]) + (b2 + x);
    SkipShift(s, |b1| + 1, b2 + x, |b1| + 1, 0);
    SkipBlanks(b2, x);
    SuffixOfAppend(b1 + [c] + b2, x, Skip(x, 0));
    SuffixOfAppend([c], x, 0);
    assert x[0..] == x;
    SkipShift(t, 1, x, 1, 0);
    SuffixOfAppend([c], x, Skip(x, 0));
  }

  // ---------------------------------------------------------------- blanks before an element

  /** A unit read before its blanks is the unit read after them. */
  lemma {:induction false} UnitAfterBlanks(s: string, i: nat)
    requires i <= |s|
    ensures GroupUnitAt(s, i) == GroupUnitAt(s, Skip(s, i))
  {
    var k := Skip(s, i);
    SkipSkipped(s, i);
    assert DigitsAt(s, i) == DigitsAt(s, k);
    assert TermAt(s, i) == TermAt(s, k);
    assert AttrWordAt(s, i) == AttrWordAt(s, k);
  }

  lemma {:induction false} GroupTermsAfterBlanks(s: string, i: nat)
    requires i <= |s|
    ensures GroupTermsAt(s, i) == GroupTermsAt(s, Skip(s, i))
  {
    var k := Skip(s, i);
    SkipSkipped(s, i);
    UnitAfterBlanks(s, i);
    var p := LitAt(s, i, "(");
    assert p == LitAt(s, k, "(");
    var u := GroupUnitAt(s, if p.Got? then p.next else k);
    var tail := TermsTailAt(s, u.next);
    var c := LitAt(s, tail.1, ")");
    assert GroupTermsAt(s, i) == Got([AsUnit(u.value)] + tail.0, if c.Got? then c.next else tail.1);
  }

  lemma {:induction false} PanelGroupAfterBlanks(s: string, i: nat)
    requires i <= |s|
    ensures PanelGroupAt(s, i) == PanelGroupAt(s, Skip(s, i))
  {
    UnitAfterBlanks(s, i);
    GroupTermsAfterBlanks(s, i);
  }

  lemma {:induction false} LayoutAfterBlanks(s: string, i: nat)
    requires i <= |s|
    ensures LayoutAt(s, i) == LayoutAt(s, Skip(s, i))
  {
    PanelGroupAfterBlanks(s, i);
  }

  lemma {:induction false} SpreadAfterBlanks(s: string, i: nat)
    requires i <= |s|
    ensures SpreadAt(s, i) == SpreadAt(s, Skip(s, i))
  {
    LayoutAfterBlanks(s, i);
  }

  lemma {:induction false} GalleryAfterBlanks(s: string, i: nat)
    requires i <= |s|
    ensures GalleryAt(s, i) == GalleryAt(s, Skip(s, i))
  {
    SpreadAfterBlanks(s, i);
  }

  lemma {:induction false} DocumentAfterBlanks(s: string, i: nat)
    requires i <= |s|
    ensures DocumentAt(s, i) == DocumentAt(s, Skip(s, i))
  {
    GalleryAfterBlanks(s, i);
  }

  // ---------------------------------------------------------------- blanks around separators

  /**
   * Two texts whose separator `+` or `,` is followed, after blanks, by the
   * same text `u` read the same terms after it.
   */
  lemma {:induction false} TermsTailCommon(s: string, t: string, u: string, sep: Term, e: nat, f: nat)
    requires SeparatorAt(s, 0) == Got(sep, e) && SeparatorAt(t, 0) == Got(sep, f)
    requires Suffix(s, Skip(s, e), u) && Suffix(t, Skip(t, f), u)
    ensures TermsTailAt(s, 0).0 == TermsTailAt(t, 0).0
    ensures TermsTailAt(s, 0).1 + Skip(t, f) == TermsTailAt(t, 0).1 + Skip(s, e)
  {
    var p, q := Skip(s, e), Skip(t, f);
    UnitAfterBlanks(s, e);
    UnitAfterBlanks(t, f);
    GroupUnitShift(s, p, u, p, 0);
    GroupUnitShift(t, q, u, q, 0);
    TermsTailShift(s, p, u, GroupUnitAt(s, p).next, GroupUnitAt(u, 0).next);
    TermsTailShift(t, q, u, GroupUnitAt(t, q).next, GroupUnitAt(u, 0).next);
  }

  /** Blanks before and after `+` or `,` change nothing in the terms that follow. */
  lemma {:induction false} TermsBlanks(b1: string, c: char, b2: string, x: string)
    requires AllBlank(b1) && AllBlank(b2) && (c == '+' || c == ',')
    ensures TermsTailAt(b1 + [c] + b2 + x, 0).0 == TermsTailAt([c] + x, 0).0
    ensures TermsTailAt(b1 + [c] + b2 + x, 0).1 == TermsTailAt([c] + x, 0).1 + |b1| + |b2|
  {
    var s, t := b1 + [c] + b2 + x, [c] + x;
    Spaced(b1, c, b2, x);
    SeparatorHere(s, 0, c);
    SeparatorHere(t, 0, c);
    TermsTailCommon(s, t, x[Skip(x, 0)..], if c == '+' then NewCol else NewRow, |b1| + 1, 1);
  }

  /** After blanks, the text `u`: the panelgroups read there are those `u` starts with. */
  lemma {:induction false} GroupsTailFrom(s: string, e: nat, u: string)
    requires e <= |s| && Suffix(s, Skip(s, e), u)
    ensures PanelGroupAt(s, e).0 == PanelGroupAt(u, 0).0
    ensures GroupsTailAt(s, PanelGroupAt(s, e).1).0 == GroupsTailAt(u, PanelGroupAt(u, 0).1).0
    ensures GroupsTailAt(s, PanelGroupAt(s, e).1).1 == GroupsTailAt(u, PanelGroupAt(u, 0).1).1 + Skip(s, e)
  {
    var p := Skip(s, e);
    PanelGroupAfterBlanks(s, e);
    PanelGroupShift(s, p, u, p, 0);
    GroupsTailShift(s, p, u, PanelGroupAt(s, p).1, PanelGroupAt(u, 0).1);
  }

  /**
   * Two texts whose `_` is followed, after blanks, by the same text `u`
   * read the same panelgroups after it.
   */
  lemma {:induction false} GroupsTailCommon(s: string, t: string, u: string, e: nat, f: nat)
    requires LitAt(s, 0, "_") == Got((), e) && LitAt(t, 0, "_") == Got((), f)
    requires Suffix(s, Skip(s, e), u) && Suffix(t, Skip(t, f), u)
    ensures GroupsTailAt(s, 0).0 == GroupsTailAt(t, 0).0
    ensures GroupsTailAt(s, 0).1 + Skip(t, f) == GroupsTailAt(t, 0).1 + Skip(s, e)
  {
    GroupsTailFrom(s, e, u);
    GroupsTailFrom(t, f, u);
  }

  /** Blanks before and after `_` change nothing in the panelgroups that follow. */
  lemma {:induction false} GroupsBlanks(b1: string, b2: string, x: string)
    requires AllBlank(b1) && AllBlank(b2)
    ensures GroupsTailAt(b1 + "_" + b2 + x, 0).0 == GroupsTailAt("_" + x, 0).0
    ensures GroupsTailAt(b1 + "_" + b2 + x, 0).1 == GroupsTailAt("_" + x, 0).1 + |b1| + |b2|
  {
    var s, t := b1 + "_" + b2 + x, "_" + x;
    Spaced(b1, '_', b2, x);
    LitHere(s, 0, '_');
    LitHere(t, 0, '_');
    GroupsTailCommon(s, t, x[Skip(x, 0)..], |b1| + 1, 1);
  }

  /** After blanks, the text `u`: the layouts read there are those `u` starts with. */
  lemma {:induction false} LayoutsTailFrom(s: string, e: nat, u: string)
    requires e <= |s| && Suffix(s, Skip(s, e), u)
    ensures LayoutAt(s, e).0 == LayoutAt(u, 0).0
    ensures LayoutsTailAt(s, LayoutAt(s, e).1).0 == LayoutsTailAt(u, LayoutAt(u, 0).1).0
    ensures LayoutsTailAt(s, LayoutAt(s, e).1).1 == LayoutsTailAt(u, LayoutAt(u, 0).1).1 + Skip(s, e)
  {
    var p := Skip(s, e);
    LayoutAfterBlanks(s, e);
    LayoutShift(s, p, u, p, 0);
    LayoutsTailShift(s, p, u, LayoutAt(s, p).1, LayoutAt(u, 0).1);
  }

  /**
   * Two texts whose `|` is followed, after blanks, by the same text `u`
   * read the same layouts after it.
   */
  lemma {:induction false} LayoutsTailCommon(s: string, t: string, u: string, e: nat, f: nat)
    requires LitAt(s, 0, "|") == Got((), e) && LitAt(t, 0, "|") == Got((), f)
    requires Suffix(s, Skip(s, e), u) && Suffix(t, Skip(t, f), u)
    ensures LayoutsTailAt(s, 0).0 == LayoutsTailAt(t, 0).0
    ensures LayoutsTailAt(s, 0).1 + Skip(t, f) == LayoutsTailAt(t, 0).1 + Skip(s, e)
  {
    LayoutsTailFrom(s, e, u);
    LayoutsTailFrom(t, f, u);
  }

  /** Blanks before and after `|` change nothing in the layouts that follow. */
  lemma {:induction false} LayoutsBlanks(b1: string, b2: string, x: string)
    requires AllBlank(b1) && AllBlank(b2)
    ensures LayoutsTailAt(b1 + "|" + b2 + x, 0).0 == LayoutsTailAt("|" + x, 0).0
    ensures LayoutsTailAt(b1 + "|" + b2 + x, 0).1 == LayoutsTailAt("|" + x, 0).1 + |b1| + |b2|
  {
    var s, t := b1 + "|" + b2 + x, "|" + x;
    Spaced(b1, '|', b2, x);
    LitHere(s, 0, '|');
    LitHere(t, 0, '|');
    LayoutsTailCommon(s, t, x[Skip(x, 0)..], |b1| + 1, 1);
  }

  /** After blanks, the text `u`: the spreads read there are those `u` starts with. */
  lemma {:induction false} SpreadsTailFrom(s: string, e: nat, u: string)
    requires e <= |s| && Suffix(s, Skip(s, e), u)
    ensures SpreadAt(s, e).0 == SpreadAt(u, 0).0
    ensures SpreadsTailAt(s, SpreadAt(s, e).1).0 == SpreadsTailAt(u, SpreadAt(u, 0).1).0
    ensures SpreadsTailAt(s, SpreadAt(s, e).1).1 == SpreadsTailAt(u, SpreadAt(u, 0).1).1 + Skip(s, e)
  {
    var p := Skip(s, e);
    SpreadAfterBlanks(s, e);
    SpreadShift(s, p, u, p, 0);
    SpreadsTailShift(s, p, u, SpreadAt(s, p).1, SpreadAt(u, 0).1);
  }

  /**
   * Two texts whose `;` is followed, after blanks, by the same text `u`
   * read the same spreads after it.
   */
  lemma {:induction false} SpreadsTailCommon(s: string, t: string, u: string, e: nat, f: nat)
    requires LitAt(s, 0, ";") == Got((), e) && LitAt(t, 0, ";") == Got((), f)
    requires Suffix(s, Skip(s, e), u) && Suffix(t, Skip(t, f), u)
    ensures SpreadsTailAt(s, 0).0 == SpreadsTailAt(t, 0).0
    ensures SpreadsTailAt(s, 0).1 + Skip(t, f) == SpreadsTailAt(t, 0).1 + Skip(s, e)
  {
    SpreadsTailFrom(s, e, u);
    SpreadsTailFrom(t, f, u);
  }

  /** Blanks before and after `;` change nothing in the spreads that follow. */
  lemma {:induction false} SpreadsBlanks(b1: string, b2: string, x: string)
    requires AllBlank(b1) && AllBlank(b2)
    ensures SpreadsTailAt(b1 + ";" + b2 + x, 0).0 == SpreadsTailAt(";" + x, 0).0
    ensures SpreadsTailAt(b1 + ";" + b2 + x, 0).1 == SpreadsTailAt(";" + x, 0).1 + |b1| + |b2|
  {
    var s, t := b1 + ";" + b2 + x, ";" + x;
    Spaced(b1, ';', b2, x);
    LitHere(s, 0, ';');
    LitHere(t, 0, ';');
    SpreadsTailCommon(s, t, x[Skip(x, 0)..], |b1| + 1, 1);
  }

  /** After blanks, the text `u`: the galleries read there are those `u` starts with. */
  lemma {:induction false} GalleriesTailFrom(s: string, e: nat, u: string)
    requires e <= |s| && Suffix(s, Skip(s, e), u)
    ensures GalleryAt(s, e).0 == GalleryAt(u, 0).0
    ensures GalleriesTailAt(s, GalleryAt(s, e).1).0 == GalleriesTailAt(u, GalleryAt(u, 0).1).0
    ensures GalleriesTailAt(s, GalleryAt(s, e).1).1 == GalleriesTailAt(u, GalleryAt(u, 0).1).1 + Skip(s, e)
  {
    var p := Skip(s, e);
    GalleryAfterBlanks(s, e);
    GalleryShift(s, p, u, p, 0);
    GalleriesTailShift(s, p, u, GalleryAt(s, p).1, GalleryAt(u, 0).1);
  }

  /**
   * Two texts whose `@` is followed, after blanks, by the same text `u`
   * read the same galleries after it.
   */
  lemma {:induction false} GalleriesTailCommon(s: string, t: string, u: string, e: nat, f: nat)
    requires LitAt(s, 0, "@") == Got((), e) && LitAt(t, 0, "@") == Got((), f)
    requires Suffix(s, Skip(s, e), u) && Suffix(t, Skip(t, f), u)
    ensures GalleriesTailAt(s, 0).0 == GalleriesTailAt(t, 0).0
    ensures GalleriesTailAt(s, 0).1 + Skip(t, f) == GalleriesTailAt(t, 0).1 + Skip(s, e)
  {
    GalleriesTailFrom(s, e, u);
    GalleriesTailFrom(t, f, u);
  }

  /** Blanks before and after `@` change nothing in the galleries that follow. */
  lemma {:induction false} GalleriesBlanks(b1: string, b2: string, x: string)
    requires AllBlank(b1) && AllBlank(b2)
    ensures GalleriesTailAt(b1 + "@" + b2 + x, 0).0 == GalleriesTailAt("@" + x, 0).0
    ensures GalleriesTailAt(b1 + "@" + b2 + x, 0).1 == GalleriesTailAt("@" + x, 0).1 + |b1| + |b2|
  {
    var s, t := b1 + "@" + b2 + x, "@" + x;
    Spaced(b1, '@', b2, x);
    LitHere(s, 0, '@');
    LitHere(t, 0, '@');
    GalleriesTailCommon(s, t, x[Skip(x, 0)..], |b1| + 1, 1);
  }

  // ---------------------------------------------------------------- blanks before the text

  /** Expanding the tabs of blanks followed by a text without tabs. */
  lemma {:induction false} ExpandBlanks(b: string, x: string, col: nat)
    requires AllBlank(b) && col < 8 && '\t' !in x
    ensures ExpandTabsFrom(b + x, col) == ExpandTabsFrom(b, col) + x
    ensures AllBlank(ExpandTabsFrom(b, col))
    decreases |b|
  {
    if |b| == 0 {
      assert b + x == x;
      ExpandTabsNoTabs(x, col);
    } else {
      var next := if b[0] == '\t' || b[0] == '\n' || b[0] == '\r' then 0 else (col + 1) % 8;
      assert (b + x)[0] == b[0] && (b + x)[1..] == b[1..] + x;
      assert AllBlank(b[1..]) by {
        forall m | 0 <= m < |b[1..]| ensures IsBlank(b[1..][m]) { assert b[1..][m] == b[m + 1]; }
      }
      ExpandBlanks(b[1..], x, next);
      var head := if b[0] == '\t' then seq(8 - col, _ => ' ') else [b[0]];
      assert ExpandTabsFrom(b, col) == head + ExpandTabsFrom(b[1..], next);
      assert ExpandTabsFrom(b + x, col) == head + ExpandTabsFrom(b[1..] + x, next);
      var e := ExpandTabsFrom(b, col);
      forall m | 0 <= m < |e| ensures IsBlank(e[m]) {
        if m >= |head| {
          assert e[m] == ExpandTabsFrom(b[1..], next)[m - |head|];
        }
      }
    }
  }

  /** A text that is only blanks up to `u` reads the document `u` reads. */
  lemma {:induction false} DocumentOnSuffix(s: string, d: nat, u: string)
    requires Suffix(s, d, u) && Skip(s, 0) == Skip(s, d)
    ensures DocumentAt(s, 0).0 == DocumentAt(u, 0).0
    ensures DocumentAt(s, 0).1 == DocumentAt(u, 0).1 + d
    ensures Skip(s, DocumentAt(s, 0).1) == Skip(u, DocumentAt(u, 0).1) + d
  {
    DocumentAfterBlanks(s, 0);
    DocumentAfterBlanks(s, d);
    DocumentShift(s, d, u, d, 0);
    SkipShift(s, d, u, DocumentAt(s, d).1, DocumentAt(u, 0).1);
  }

  /** Blanks before a text leave its document and what follows it in place. */
  lemma {:induction false} DocumentAfterPrefix(e: string, code: string)
    requires AllBlank(e)
    ensures DocumentAt(e + code, 0).0 == DocumentAt(code, 0).0
    ensures DocumentAt(e + code, 0).1 == DocumentAt(code, 0).1 + |e|
    ensures Skip(e + code, DocumentAt(e + code, 0).1) == Skip(code, DocumentAt(code, 0).1) + |e|
  {
    var s := e + code;
    SuffixOfAppend(e, code, 0);
    assert code[0..] == code;
    SkipBlanks(e, code);
    SkipShift(s, |e|, code, |e|, 0);
    DocumentOnSuffix(s, |e|, code);
  }

  /**
   * Blanks before the text change nothing: the text parses exactly when it
   * parses with blanks (spaces, tabs, line breaks) before it, to the same
   * document.  The text itself holds no tab, whose expansion would depend
   * on the column the blanks leave it at.
   */
  lemma {:induction false} LeadingBlanks(b: string, code: string)
    requires AllBlank(b) && '\t' !in code
    ensures Parse(b + code).Ok? <==> Parse(code).Ok?
    ensures Parse(code).Ok? ==> Parse(b + code).value == Parse(code).value
  {
    ExpandBlanks(b, code, 0);
    ExpandTabsNoTabs(code, 0);
    var e := ExpandTabsFrom(b, 0);
    assert ExpandTabs(b + code) == e + code && ExpandTabs(code) == code;
    DocumentAfterPrefix(e, code);
  }

  // ---------------------------------------------------------------- dots and parentheses

  /** The digits at the start of `n + y`, when y does not go on with a digit. */
  lemma {:induction false} CountAtStart(n: string, y: string)
    requires AllDigits(n) && |y| > 0 && !IsDigit(y[0]) && !IsBlank(y[0])
    ensures DigitsAt(n + y, 0) == (n, |n|)
  {
    var s := n + y;
    assert s[0] == if |n| > 0 then n[0] else y[0];
    assert Skip(s, 0) == 0;
    forall m | 0 <= m < |n| ensures InClass(s[m], Digits) {
      assert s[m] == n[m];
    }
    RunThrough(s, 0, |n|, Digits);
    assert s[|n|] == y[0];
    assert s[0..|n|] == n;
  }

  /** A dot before a letter is dropped: the attribute words read from it are those read after it. */
  lemma {:induction false} DotSkipped(s: string, k: nat)
    requires k + 1 < |s| && s[k] == '.' && IsLetter(s[k + 1])
    ensures AttrWordsAt(s, k) == AttrWordsAt(s, k + 1)
  {
    assert Skip(s, k) == k && OptionalDot(s, k) == k + 1;
    assert Skip(s, k + 1) == k + 1 && OptionalDot(s, k + 1) == k + 1;
    assert AttrWordAt(s, k) == AttrWordAt(s, k + 1);
  }

  /**
   * Two texts that read the same count and then go on with the same
   * attribute words `x`, the first with a dot between, read the same unit.
   */
  lemma {:induction false} DotCommon(s: string, t: string, x: string, n: string)
    requires DigitsAt(s, 0) == (n, |n|) && DigitsAt(t, 0) == (n, |n|)
    requires |n| < |s| && s[|n|] == '.' && Suffix(s, |n| + 1, x) && Suffix(t, |n|, x)
    requires |x| > 0 && IsLetter(x[0])
    ensures GroupUnitAt(s, 0).value == GroupUnitAt(t, 0).value
    ensures GroupUnitAt(s, 0).next == GroupUnitAt(t, 0).next + 1
  {
    var k := |n|;
    CharShift(s, k + 1, x, 0);
    DotSkipped(s, k);
    AttrWordsShift(s, k + 1, x, k + 1, 0);
    AttrWordsShift(t, k, x, k, 0);
    GroupUnitShape(s, 0);
    GroupUnitShape(t, 0);
  }

  /**
   * A dot between a unit's count and its first attribute changes nothing:
   * `n.x` reads the unit `n x` reads, one character further on, so `1.r2`
   * is `1r2`.
   */
  lemma {:induction false} DotBeforeAttribute(n: string, x: string)
    requires AllDigits(n) && |x| > 0 && IsLetter(x[0])
    ensures GroupUnitAt(n + "." + x, 0).value == GroupUnitAt(n + x, 0).value
    ensures GroupUnitAt(n + "." + x, 0).next == GroupUnitAt(n + x, 0).next + 1
  {
    var s, t := n + "." + x, n + x;
    assert s == n + ("." + x);
    CountAtStart(n, "." + x);
    CountAtStart(n, x);
    assert s == (n + ".") + x;
    SuffixOfAppend(n + ".", x, 0);
    SuffixOfAppend(n, x, 0);
    assert x[0..] == x;
    DotCommon(s, t, x, n);
  }

  /** After an opening parenthesis the terms are read from the next position. */
  lemma {:induction false} TermsAfterParen(s: string, i: nat)
    requires i <= |s| && Skip(s, i) < |s| && s[Skip(s, i)] == '('
    requires LitAt(s, Skip(s, i) + 1, "(").Fail?
    ensures GroupTermsAt(s, i) == GroupTermsAt(s, Skip(s, i) + 1)
  {
    LitHere(s, i, '(');
    var k := Skip(s, i) + 1;
    var u := GroupUnitAt(s, k);
    var tail := TermsTailAt(s, u.next);
    var c := LitAt(s, tail.1, ")");
    assert GroupTermsAt(s, i) == Got([AsUnit(u.value)] + tail.0, if c.Got? then c.next else tail.1);
  }

  /** A text that is `(` followed by `x` reads the panelgroup `x` reads. */
  lemma {:induction false} ParenCommon(s: string, x: string)
    requires |s| > 0 && s[0] == '(' && Suffix(s, 1, x)
    requires Skip(x, 0) == |x| || x[Skip(x, 0)] != '('
    ensures PanelGroupAt(s, 0).0 == PanelGroupAt(x, 0).0
    ensures PanelGroupAt(s, 0).1 == PanelGroupAt(x, 0).1 + 1
  {
    assert Skip(s, 0) == 0;
    LitNotHere(x, 0, '(');
    LitShift(s, 1, x, 1, 0, "(");
    TermsAfterParen(s, 0);
    GroupTermsShift(s, 1, x, 1, 0);
    UnitAtParen(s, 0);
    PanelGroupHasTerms(x, 0);
    TermsReachUnit(x, 0);
    var t, t' := GroupTermsAt(s, 0), GroupTermsAt(x, 0);
    var g, g' := GroupUnitAt(s, 0), GroupUnitAt(x, 0);
    assert Longest(Got(Some(t.value), t.next), Got(None, g.next)) == Got(Some(t.value), t.next);
    assert Longest(Got(Some(t'.value), t'.next), Got(None, g'.next)) == Got(Some(t'.value), t'.next);
    OptionalBlockShift(s, 1, x, t.next, t'.next, "{+", "{");
  }

  /**
   * An opening parenthesis before a panelgroup's terms changes nothing:
   * `(x` reads the panelgroup `x` reads, one character further on, so
   * `(1,1)` is `1,1)`, whose closing parenthesis the terms accept as well.
   */
  lemma {:induction false} ParenthesisBeforeTerms(x: string)
    requires Skip(x, 0) == |x| || x[Skip(x, 0)] != '('
    ensures PanelGroupAt("(" + x, 0).0 == PanelGroupAt(x, 0).0
    ensures PanelGroupAt("(" + x, 0).1 == PanelGroupAt(x, 0).1 + 1
  {
    SuffixOfAppend("(", x, 0);
    assert x[0..] == x;
    ParenCommon("(" + x, x);
  }
}
