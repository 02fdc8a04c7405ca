/**
 * Every element of the Panelcode grammar looks only forward from its
 * position: read at position k + d of a text whose suffix from d is `u`, it
 * reads what it reads at k in `u`, and stops d positions further on.  The
 * laws about blanks, dots and parentheses rest on this.
 */
module GrammarShift {
  import opened Wrappers
  import opened Text
  import opened Options
  import opened Grammar

  /** `u` is the text of `s` from position d on. */
  predicate Suffix(s: string, d: nat, u: string) {
    d <= |s| && s[d..] == u
  }

  /** Two outcomes that both fail, or read the same value and stop d positions apart. */
  predicate Shifted<T(==)>(a: Res<T>, b: Res<T>, d: nat) {
    (a.Fail? && b.Fail?) || (a.Got? && b.Got? && a.value == b.value && a.next == b.next + d)
  }

  /** The same for elements that always match. */
  predicate PairShifted<T(==)>(a: (T, nat), b: (T, nat), d: nat) {
    a.0 == b.0 && a.1 == b.1 + d
  }

  // ---------------------------------------------------------------- characters

  lemma {:induction false} SuffixLength(s: string, d: nat, u: string)
    requires Suffix(s, d, u)
    ensures |s| == |u| + d
  {
  }

  lemma {:induction false} CharShift(s: string, d: nat, u: string, k: nat)
    requires Suffix(s, d, u) && k < |u|
    ensures k + d < |s| && s[k + d] == u[k]
  {
    assert u[k] == s[d..][k];
  }

  lemma {:induction false} SliceShift(s: string, d: nat, u: string, a: nat, b: nat)
    requires Suffix(s, d, u) && a <= b <= |u|
    ensures b + d <= |s| && s[a + d..b + d] == u[a..b]
  {
    forall m | 0 <= m < b - a
      ensures s[a + d..b + d][m] == u[a..b][m]
    {
      CharShift(s, d, u, a + m);
    }
  }

  /** What is left of the text after position k of `u`. */
  lemma {:induction false} SuffixLater(s: string, d: nat, u: string, k: nat)
    requires Suffix(s, d, u) && k <= |u|
    ensures Suffix(s, k + d, u[k..])
  {
    forall m | 0 <= m < |u| - k
      ensures s[k + d..][m] == u[k..][m]
    {
      CharShift(s, d, u, k + m);
    }
  }

  /** A text written after a prefix. */
  lemma {:induction false} SuffixOfAppend(p: string, x: string, k: nat)
    requires k <= |x|
    ensures Suffix(p + x, |p| + k, x[k..])
  {
    assert (p + x)[|p|..] == x;
    SuffixLater(p + x, |p|, x, k);
  }

  // ---------------------------------------------------------------- runs and tokens

  lemma {:induction false} RunEndShift(s: string, d: nat, u: string, i: nat, k: nat, cls: CharClass)
    requires Suffix(s, d, u) && k <= |u| && i == k + d
    ensures RunEnd(s, i, cls) == RunEnd(u, k, cls) + d
    ensures s[i..RunEnd(s, i, cls)] == u[k..RunEnd(u, k, cls)]
    decreases |u| - k
  {
    SuffixLength(s, d, u);
    if k < |u| {
      CharShift(s, d, u, k);
      if InClass(u[k], cls) {
        RunEndShift(s, d, u, i + 1, k + 1, cls);
      }
    }
    SliceShift(s, d, u, k, RunEnd(u, k, cls));
  }

  lemma {:induction false} SkipShift(s: string, d: nat, u: string, i: nat, k: nat)
    requires Suffix(s, d, u) && k <= |u| && i == k + d
    ensures Skip(s, i) == Skip(u, k) + d
  {
    RunEndShift(s, d, u, i, k, Blanks);
  }

  lemma {:induction false} LitShift(s: string, d: nat, u: string, i: nat, k: nat, lit: string)
    requires Suffix(s, d, u) && k <= |u| && i == k + d
    ensures Shifted(LitAt(s, i, lit), LitAt(u, k, lit), d)
  {
    SkipShift(s, d, u, i, k);
    SuffixLength(s, d, u);
    var a := Skip(u, k);
    if a + |lit| <= |u| {
      SliceShift(s, d, u, a, a + |lit|);
    }
  }

  lemma {:induction false} TermShift(s: string, d: nat, u: string, i: nat, k: nat)
    requires Suffix(s, d, u) && k <= |u| && i == k + d
    ensures Shifted(TermAt(s, i), TermAt(u, k), d)
  {
    SkipShift(s, d, u, i, k);
    SuffixLength(s, d, u);
    var a := Skip(u, k);
    if a < |u| {
      CharShift(s, d, u, a);
      RunEndShift(s, d, u, Skip(s, i) + 1, a + 1, WordChars);
      SliceShift(s, d, u, a, RunEnd(u, a + 1, WordChars));
    }
  }

  lemma {:induction false} DotShift(s: string, d: nat, u: string, i: nat, k: nat)
    requires Suffix(s, d, u) && k <= |u| && i == k + d
    ensures OptionalDot(s, i) == OptionalDot(u, k) + d
  {
    SkipShift(s, d, u, i, k);
    SuffixLength(s, d, u);
    if Skip(u, k) < |u| {
      CharShift(s, d, u, Skip(u, k));
    }
  }

  lemma {:induction false} AttrWordShift(s: string, d: nat, u: string, i: nat, k: nat)
    requires Suffix(s, d, u) && k <= |u| && i == k + d
    ensures Shifted(AttrWordAt(s, i), AttrWordAt(u, k), d)
  {
    DotShift(s, d, u, i, k);
    TermShift(s, d, u, OptionalDot(s, i), OptionalDot(u, k));
  }

  lemma {:induction false} DigitsShift(s: string, d: nat, u: string, i: nat, k: nat)
    requires Suffix(s, d, u) && k <= |u| && i == k + d
    ensures PairShifted(DigitsAt(s, i), DigitsAt(u, k), d)
  {
    SkipShift(s, d, u, i, k);
    RunEndShift(s, d, u, Skip(s, i), Skip(u, k), Digits);
  }

  lemma {:induction false} LettersShift(s: string, d: nat, u: string, i: nat, k: nat)
    requires Suffix(s, d, u) && k <= |u| && i == k + d
    ensures Shifted(LettersAt(s, i), LettersAt(u, k), d)
  {
    SkipShift(s, d, u, i, k);
    SuffixLength(s, d, u);
    var a := Skip(u, k);
    if a < |u| {
      CharShift(s, d, u, a);
      RunEndShift(s, d, u, Skip(s, i), a, Letters);
    }
  }

  lemma {:induction false} QuotedShift(s: string, d: nat, u: string, i: nat, k: nat)
    requires Suffix(s, d, u) && k <= |u| && i == k + d
    ensures Shifted(QuotedAt(s, i), QuotedAt(u, k), d)
  {
    LitShift(s, d, u, i, k, "'");
    var o, O := LitAt(u, k, "'"), LitAt(s, i, "'");
    if o.Got? {
      SkipShift(s, d, u, O.next, o.next);
      var a, A := Skip(u, o.next), Skip(s, O.next);
      RunEndShift(s, d, u, A, a, NonQuotes);
      LitShift(s, d, u, RunEnd(s, A, NonQuotes), RunEnd(u, a, NonQuotes), "'");
    }
  }

  lemma {:induction false} ValueShift(s: string, d: nat, u: string, i: nat, k: nat)
    requires Suffix(s, d, u) && k <= |u| && i == k + d
    ensures Shifted(ValueAt(s, i), ValueAt(u, k), d)
  {
    QuotedShift(s, d, u, i, k);
    TermShift(s, d, u, i, k);
  }

  lemma {:induction false} KvExprShift(s: string, d: nat, u: string, i: nat, k: nat)
    requires Suffix(s, d, u) && k <= |u| && i == k + d
    ensures Shifted(KvExprAt(s, i), KvExprAt(u, k), d)
  {
    DotShift(s, d, u, i, k);
    var a, A := OptionalDot(u, k), OptionalDot(s, i);
    TermShift(s, d, u, A, a);
    var key, Key := TermAt(u, a), TermAt(s, A);
    if key.Got? {
      LitShift(s, d, u, Key.next, key.next, "=");
      var e, E := LitAt(u, key.next, "="), LitAt(s, Key.next, "=");
      if e.Got? {
        ValueShift(s, d, u, E.next, e.next);
      }
    }
  }

  lemma {:induction false} KvWordShift(s: string, d: nat, u: string, i: nat, k: nat)
    requires Suffix(s, d, u) && k <= |u| && i == k + d
    ensures Shifted(KvWordAt(s, i), KvWordAt(u, k), d)
  {
    DotShift(s, d, u, i, k);
    var a, A := OptionalDot(u, k), OptionalDot(s, i);
    LettersShift(s, d, u, A, a);
    var l, L := LettersAt(u, a), LettersAt(s, A);
    if l.Got? {
      DigitsShift(s, d, u, L.next, l.next);
    }
  }

  lemma {:induction false} LongestShift<T>(a: Res<T>, b: Res<T>, a': Res<T>, b': Res<T>, d: nat)
    requires Shifted(a, a', d) && Shifted(b, b', d)
    ensures Shifted(Longest(a, b), Longest(a', b'), d)
  {
  }

  lemma {:induction false} OptItemShift(s: string, d: nat, u: string, i: nat, k: nat)
    requires Suffix(s, d, u) && k <= |u| && i == k + d
    ensures Shifted(OptItemAt(s, i), OptItemAt(u, k), d)
  {
    AttrWordShift(s, d, u, i, k);
    KvExprShift(s, d, u, i, k);
    KvWordShift(s, d, u, i, k);
    var w, w' := AsBare(AttrWordAt(s, i)), AsBare(AttrWordAt(u, k));
    LongestShift(w, KvExprAt(s, i), w', KvExprAt(u, k), d);
    LongestShift(Longest(w, KvExprAt(s, i)), KvWordAt(s, i), Longest(w', KvExprAt(u, k)), KvWordAt(u, k), d);
  }

  lemma {:induction false} OptItemsShift(s: string, d: nat, u: string, i: nat, k: nat)
    requires Suffix(s, d, u) && k <= |u| && i == k + d
    ensures PairShifted(OptItemsAt(s, i), OptItemsAt(u, k), d)
    decreases |u| - k
  {
    OptItemShift(s, d, u, i, k);
    var o, O := OptItemAt(u, k), OptItemAt(s, i);
    if o.Got? {
      OptItemsShift(s, d, u, O.next, o.next);
    }
  }

  /** The opening of an option block, `open1 | open2`. */
  lemma {:induction false} OpenShift(s: string, d: nat, u: string, i: nat, k: nat, open1: string, open2: string)
    requires Suffix(s, d, u) && k <= |u| && i == k + d
    ensures Shifted(if LitAt(s, i, open1).Got? then LitAt(s, i, open1) else LitAt(s, i, open2),
                    if LitAt(u, k, open1).Got? then LitAt(u, k, open1) else LitAt(u, k, open2), d)
  {
    LitShift(s, d, u, i, k, open1);
    LitShift(s, d, u, i, k, open2);
  }

  lemma {:induction false} OptBlockShift(s: string, d: nat, u: string, i: nat, k: nat, open1: string, open2: string)
    requires Suffix(s, d, u) && k <= |u| && i == k + d
    ensures Shifted(OptBlockAt(s, i, open1, open2), OptBlockAt(u, k, open1, open2), d)
  {
    OpenShift(s, d, u, i, k, open1, open2);
    var o1, O1 := LitAt(u, k, open1), LitAt(s, i, open1);
    var o := if o1.Got? then o1 else LitAt(u, k, open2);
    var O := if O1.Got? then O1 else LitAt(s, i, open2);
    if o.Got? {
      OptItemsShift(s, d, u, O.next, o.next);
      var items, Items := OptItemsAt(u, o.next), OptItemsAt(s, O.next);
      LitShift(s, d, u, Items.1, items.1, "}");
    }
  }

  lemma {:induction false} OptionalBlockShift(s: string, d: nat, u: string, i: nat, k: nat, open1: string, open2: string)
    requires Suffix(s, d, u) && k <= |u| && i == k + d
    ensures PairShifted(OptionalBlock(s, i, open1, open2), OptionalBlock(u, k, open1, open2), d)
  {
    OptBlockShift(s, d, u, i, k, open1, open2);
  }

  // ---------------------------------------------------------------- panelgroups

  lemma {:induction false} AttrWordsShift(s: string, d: nat, u: string, i: nat, k: nat)
    requires Suffix(s, d, u) && k <= |u| && i == k + d
    ensures PairShifted(AttrWordsAt(s, i), AttrWordsAt(u, k), d)
    decreases |u| - k
  {
    AttrWordShift(s, d, u, i, k);
    var w := AttrWordAt(u, k);
    if w.Got? {
      AttrWordsShift(s, d, u, AttrWordAt(s, i).next, w.next);
    }
  }

  lemma {:induction false} GroupUnitShift(s: string, d: nat, u: string, i: nat, k: nat)
    requires Suffix(s, d, u) && k <= |u| && i == k + d
    ensures Shifted(GroupUnitAt(s, i), GroupUnitAt(u, k), d)
  {
    DigitsShift(s, d, u, i, k);
    AttrWordsShift(s, d, u, DigitsAt(s, i).1, DigitsAt(u, k).1);
    AttrWordShift(s, d, u, i, k);
    var a, a' := UnitWithAttrsAt(s, i), UnitWithAttrsAt(u, k);
    var b, b' := BareCountAt(s, i), BareCountAt(u, k);
    var c, c' := BareWordAt(s, i), BareWordAt(u, k);
    assert Shifted(a, a', d) && Shifted(b, b', d) && Shifted(c, c', d);
    LongestShift(a, b, a', b', d);
    LongestShift(Longest(a, b), c, Longest(a', b'), c', d);
  }

  lemma {:induction false} SeparatorShift(s: string, d: nat, u: string, i: nat, k: nat)
    requires Suffix(s, d, u) && k <= |u| && i == k + d
    ensures Shifted(SeparatorAt(s, i), SeparatorAt(u, k), d)
  {
    LitShift(s, d, u, i, k, "+");
    LitShift(s, d, u, i, k, ",");
  }

  lemma {:induction false} TermsTailShift(s: string, d: nat, u: string, i: nat, k: nat)
    requires Suffix(s, d, u) && k <= |u| && i == k + d
    ensures PairShifted(TermsTailAt(s, i), TermsTailAt(u, k), d)
    decreases |u| - k
  {
    SeparatorShift(s, d, u, i, k);
    var p, P := SeparatorAt(u, k), SeparatorAt(s, i);
    if p.Got? {
      GroupUnitShift(s, d, u, P.next, p.next);
      var g, G := GroupUnitAt(u, p.next), GroupUnitAt(s, P.next);
      TermsTailShift(s, d, u, G.next, g.next);
    }
  }

  lemma {:induction false} GroupTermsShift(s: string, d: nat, u: string, i: nat, k: nat)
    requires Suffix(s, d, u) && k <= |u| && i == k + d
    ensures Shifted(GroupTermsAt(s, i), GroupTermsAt(u, k), d)
  {
    LitShift(s, d, u, i, k, "(");
    var p, P := LitAt(u, k, "("), LitAt(s, i, "(");
    var a := if p.Got? then p.next else k;
    var A := if P.Got? then P.next else i;
    GroupUnitShift(s, d, u, A, a);
    var g, G := GroupUnitAt(u, a), GroupUnitAt(s, A);
    TermsTailShift(s, d, u, G.next, g.next);
    var tail, Tail := TermsTailAt(u, g.next), TermsTailAt(s, G.next);
    LitShift(s, d, u, Tail.1, tail.1, ")");
  }

  lemma {:induction false} PanelGroupShift(s: string, d: nat, u: string, i: nat, k: nat)
    requires Suffix(s, d, u) && k <= |u| && i == k + d
    ensures PairShifted(PanelGroupAt(s, i), PanelGroupAt(u, k), d)
  {
    GroupTermsShift(s, d, u, i, k);
    GroupUnitShift(s, d, u, i, k);
    var t, t' := GroupTermsAt(s, i), GroupTermsAt(u, k);
    var g, g' := GroupUnitAt(s, i), GroupUnitAt(u, k);
    LongestShift(Got(Some(t.value), t.next), Got(None, g.next), Got(Some(t'.value), t'.next), Got(None, g'.next), d);
    var body := Longest(Got(Some(t'.value), t'.next), Got(None, g'.next));
    var Body := Longest(Got(Some(t.value), t.next), Got(None, g.next));
    OptionalBlockShift(s, d, u, Body.next, body.next, "{+", "{");
  }

  // ---------------------------------------------------------------- levels

  lemma {:induction false} GroupsTailShift(s: string, d: nat, u: string, i: nat, k: nat)
    requires Suffix(s, d, u) && k <= |u| && i == k + d
    ensures PairShifted(GroupsTailAt(s, i), GroupsTailAt(u, k), d)
    decreases |u| - k
  {
    LitShift(s, d, u, i, k, "_");
    var p, P := LitAt(u, k, "_"), LitAt(s, i, "_");
    if p.Got? {
      PanelGroupShift(s, d, u, P.next, p.next);
      var g, G := PanelGroupAt(u, p.next), PanelGroupAt(s, P.next);
      GroupsTailShift(s, d, u, G.1, g.1);
    }
  }

  lemma {:induction false} LayoutShift(s: string, d: nat, u: string, i: nat, k: nat)
    requires Suffix(s, d, u) && k <= |u| && i == k + d
    ensures PairShifted(LayoutAt(s, i), LayoutAt(u, k), d)
  {
    PanelGroupShift(s, d, u, i, k);
    var g, G := PanelGroupAt(u, k), PanelGroupAt(s, i);
    GroupsTailShift(s, d, u, G.1, g.1);
    var rest, Rest := GroupsTailAt(u, g.1), GroupsTailAt(s, G.1);
    OptionalBlockShift(s, d, u, Rest.1, rest.1, "{|", "{:");
  }

  lemma {:induction false} LayoutsTailShift(s: string, d: nat, u: string, i: nat, k: nat)
    requires Suffix(s, d, u) && k <= |u| && i == k + d
    ensures PairShifted(LayoutsTailAt(s, i), LayoutsTailAt(u, k), d)
    decreases |u| - k
  {
    LitShift(s, d, u, i, k, "|");
    var p, P := LitAt(u, k, "|"), LitAt(s, i, "|");
    if p.Got? {
      LayoutShift(s, d, u, P.next, p.next);
      var l, L := LayoutAt(u, p.next), LayoutAt(s, P.next);
      LayoutsTailShift(s, d, u, L.1, l.1);
    }
  }

  lemma {:induction false} SpreadShift(s: string, d: nat, u: string, i: nat, k: nat)
    requires Suffix(s, d, u) && k <= |u| && i == k + d
    ensures PairShifted(SpreadAt(s, i), SpreadAt(u, k), d)
  {
    LayoutShift(s, d, u, i, k);
    var l, L := LayoutAt(u, k), LayoutAt(s, i);
    LayoutsTailShift(s, d, u, L.1, l.1);
    var rest, Rest := LayoutsTailAt(u, l.1), LayoutsTailAt(s, L.1);
    OptionalBlockShift(s, d, u, Rest.1, rest.1, "{;", "{::");
  }

  lemma {:induction false} SpreadsTailShift(s: string, d: nat, u: string, i: nat, k: nat)
    requires Suffix(s, d, u) && k <= |u| && i == k + d
    ensures PairShifted(SpreadsTailAt(s, i), SpreadsTailAt(u, k), d)
    decreases |u| - k
  {
    LitShift(s, d, u, i, k, ";");
    var p, P := LitAt(u, k, ";"), LitAt(s, i, ";");
    if p.Got? {
      SpreadShift(s, d, u, P.next, p.next);
      var q, Q := SpreadAt(u, p.next), SpreadAt(s, P.next);
      SpreadsTailShift(s, d, u, Q.1, q.1);
    }
  }

  lemma {:induction false} GalleryShift(s: string, d: nat, u: string, i: nat, k: nat)
    requires Suffix(s, d, u) && k <= |u| && i == k + d
    ensures PairShifted(GalleryAt(s, i), GalleryAt(u, k), d)
  {
    SpreadShift(s, d, u, i, k);
    var p, P := SpreadAt(u, k), SpreadAt(s, i);
    SpreadsTailShift(s, d, u, P.1, p.1);
    var rest, Rest := SpreadsTailAt(u, p.1), SpreadsTailAt(s, P.1);
    OptionalBlockShift(s, d, u, Rest.1, rest.1, "{@", "{:::");
  }

  lemma {:induction false} GalleriesTailShift(s: string, d: nat, u: string, i: nat, k: nat)
    requires Suffix(s, d, u) && k <= |u| && i == k + d
    ensures PairShifted(GalleriesTailAt(s, i), GalleriesTailAt(u, k), d)
    decreases |u| - k
  {
    LitShift(s, d, u, i, k, "@");
    var p, P := LitAt(u, k, "@"), LitAt(s, i, "@");
    if p.Got? {
      GalleryShift(s, d, u, P.next, p.next);
      var g, G := GalleryAt(u, p.next), GalleryAt(s, P.next);
      GalleriesTailShift(s, d, u, G.1, g.1);
    }
  }

  lemma {:induction false} DocumentShift(s: string, d: nat, u: string, i: nat, k: nat)
    requires Suffix(s, d, u) && k <= |u| && i == k + d
    ensures PairShifted(DocumentAt(s, i), DocumentAt(u, k), d)
  {
    GalleryShift(s, d, u, i, k);
    var g, G := GalleryAt(u, k), GalleryAt(s, i);
    GalleriesTailShift(s, d, u, G.1, g.1);
    var rest, Rest := GalleriesTailAt(u, g.1), GalleriesTailAt(s, G.1);
    OptionalBlockShift(s, d, u, Rest.1, rest.1, "{!", "{::::");
  }
}
