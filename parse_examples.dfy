/**
 * Whole texts parsed: a text that is one panelgroup parses to a document
 * of one layout, and the test texts `1+2`, `3`, ` 1 + 2 `, `1\n+\n2`,
 * `1.r2` and `1r2` parse to the trees the rendering laws are about, so
 * `1+2` and `3` render alike.
 */
module ParseExamples {
  import opened Wrappers
  import opened Text
  import opened Grammar
  import opened GrammarShift
  import opened GrammarLaws
  import opened Spelling
  import opened GridRender
  import opened Laws

  // ---------------------------------------------------------------- the end of the text

  /** Where only blanks are left, no literal matches. */
  lemma {:induction false} NoLitLeft(s: string, i: nat, lit: string)
    requires i <= |s| && Skip(s, i) == |s| && |lit| > 0
    ensures LitAt(s, i, lit).Fail?
  {
  }

  /** Where only blanks are left, no option block is read. */
  lemma {:induction false} NoBlockLeft(s: string, i: nat, open1: string, open2: string)
    requires i <= |s| && Skip(s, i) == |s| && |open1| > 0 && |open2| > 0
    ensures OptionalBlock(s, i, open1, open2) == (None, i)
  {
    NoLitLeft(s, i, open1);
    NoLitLeft(s, i, open2);
  }

  /** Where only blanks are left, no separator is read and the terms end. */
  lemma {:induction false} NoTermsLeft(s: string, i: nat)
    requires i <= |s| && Skip(s, i) == |s|
    ensures TermsTailAt(s, i) == ([], i) && LitAt(s, i, ")").Fail?
  {
    NoLitLeft(s, i, "+");
    NoLitLeft(s, i, ",");
    NoLitLeft(s, i, ")");
  }

  lemma {:induction false} NoGroupsLeft(s: string, i: nat)
    requires i <= |s| && Skip(s, i) == |s|
    ensures GroupsTailAt(s, i) == ([], i)
  {
    NoLitLeft(s, i, "_");
  }

  lemma {:induction false} NoLayoutsLeft(s: string, i: nat)
    requires i <= |s| && Skip(s, i) == |s|
    ensures LayoutsTailAt(s, i) == ([], i)
  {
    NoLitLeft(s, i, "|");
  }

  lemma {:induction false} NoSpreadsLeft(s: string, i: nat)
    requires i <= |s| && Skip(s, i) == |s|
    ensures SpreadsTailAt(s, i) == ([], i)
  {
    NoLitLeft(s, i, ";");
  }

  lemma {:induction false} NoGalleriesLeft(s: string, i: nat)
    requires i <= |s| && Skip(s, i) == |s|
    ensures GalleriesTailAt(s, i) == ([], i)
  {
    NoLitLeft(s, i, "@");
  }

  /**
   * A group's terms that leave only blanks make the panelgroup; the term
   * list wins over a lone unit.
   */
  lemma {:induction false} TermsGroup(s: string, ts: seq<Term>, e: nat)
    requires GroupTermsAt(s, 0) == Got(ts, e) && Skip(s, e) == |s|
    ensures PanelGroupAt(s, 0) == (Plain(ts), e)
  {
    TermsReachUnit(s, 0);
    NoBlockLeft(s, e, "{+", "{");
    var u := GroupUnitAt(s, 0);
    assert Longest(Got(Some(ts), e), Got(None, u.next)) == Got(Some(ts), e);
  }

  lemma {:induction false} OneGroupLayout(s: string, g: PanelGroup, e: nat)
    requires PanelGroupAt(s, 0) == (g, e) && Skip(s, e) == |s|
    ensures LayoutAt(s, 0) == (Layout([g], None), e)
  {
    NoGroupsLeft(s, e);
    NoBlockLeft(s, e, "{|", "{:");
    AppendNothing([g], GroupsTailAt(s, e).0);
  }

  lemma {:induction false} OneLayoutSpread(s: string, l: Layout, e: nat)
    requires LayoutAt(s, 0) == (l, e) && Skip(s, e) == |s|
    ensures SpreadAt(s, 0) == (Spread([l], None), e)
  {
    NoLayoutsLeft(s, e);
    NoBlockLeft(s, e, "{;", "{::");
    AppendNothing([l], LayoutsTailAt(s, e).0);
  }

  lemma {:induction false} OneSpreadGallery(s: string, p: Spread, e: nat)
    requires SpreadAt(s, 0) == (p, e) && Skip(s, e) == |s|
    ensures GalleryAt(s, 0) == (Gallery([p], None), e)
  {
    NoSpreadsLeft(s, e);
    NoBlockLeft(s, e, "{@", "{:::");
    AppendNothing([p], SpreadsTailAt(s, e).0);
  }

  lemma {:induction false} OneGalleryDocument(s: string, y: Gallery, e: nat)
    requires GalleryAt(s, 0) == (y, e) && Skip(s, e) == |s|
    ensures DocumentAt(s, 0) == (Document([y], None), e)
  {
    NoGalleriesLeft(s, e);
    NoBlockLeft(s, e, "{!", "{::::");
    AppendNothing([y], GalleriesTailAt(s, e).0);
  }

  lemma {:induction false} AppendNothing<T>(a: seq<T>, b: seq<T>)
    requires b == []
    ensures a + b == a
  {
  }

  lemma {:induction false} Prepend<T>(a: seq<T>, b: seq<T>)
    requires |a| == 1 && |b| == 2
    ensures a + b == [a[0], b[0], b[1]]
  {
  }

  /** A unit group that is a count alone is the unit with no attributes. */
  lemma {:induction false} CountAsUnit(c: string)
    ensures AsUnit([c]) == Unit(c, [])
  {
    assert [c][1..] == [];
  }

  /** A panelgroup that leaves only blanks is a document of one layout. */
  lemma {:induction false} SingleGroup(s: string, g: PanelGroup, e: nat)
    requires PanelGroupAt(s, 0) == (g, e) && Skip(s, e) == |s|
    ensures DocumentAt(s, 0) == (OneLayout([g]), e)
  {
    OneGroupLayout(s, g, e);
    OneLayoutSpread(s, Layout([g], None), e);
    OneSpreadGallery(s, Spread([Layout([g], None)], None), e);
    OneGalleryDocument(s, Gallery([Spread([Layout([g], None)], None)], None), e);
  }

  /** A text without tabs that is one panelgroup, and blanks, parses to a document of one layout. */
  lemma {:induction false} SingleGroupParse(code: string, g: PanelGroup, e: nat)
    requires '\t' !in code && PanelGroupAt(code, 0) == (g, e) && Skip(code, e) == |code|
    ensures Parse(code) == Ok(OneLayout([g]))
  {
    ExpandTabsNoTabs(code, 0);
    assert ExpandTabs(code) == code;
    SingleGroup(code, g, e);
  }

  /**
   * A unit that is only a count: the digits from the first non-blank up to
   * `j`, after which no attribute word starts.
   */
  lemma {:induction false} CountUnit(s: string, i: nat, j: nat)
    requires i <= |s| && Skip(s, i) < j <= |s|
    requires forall m :: Skip(s, i) <= m < j ==> IsDigit(s[m])
    requires EndsCount(s, j)
    ensures GroupUnitAt(s, i) == Got([s[Skip(s, i)..j]], j)
  {
    var a := Skip(s, i);
    forall m | a <= m < j ensures InClass(s[m], Digits) {
    }
    RunThrough(s, a, j, Digits);
    assert DigitsAt(s, i) == (s[a..j], j);
    assert OptionalDot(s, j) == j;
    assert AttrWordAt(s, j).Fail?;
    GroupUnitShape(s, i);
  }

  // ---------------------------------------------------------------- counts and sums

  /** A character after which no attribute word and no more digits start. */
  predicate EndsCount(s: string, j: nat)
    requires j <= |s|
  {
    (j == |s| || !IsDigit(s[j])) &&
    (Skip(s, j) == |s| || (!IsLetter(s[Skip(s, j)]) && s[Skip(s, j)] != '.'))
  }

  /**
   * A text that is one count between blanks parses to the document of that
   * one plain unit.
   */
  lemma {:induction false} CountText(s: string, p: nat)
    requires '\t' !in s && Skip(s, 0) < p <= |s| && Skip(s, p) == |s|
    requires forall m :: Skip(s, 0) <= m < p ==> IsDigit(s[m])
    ensures Parse(s) == Ok(OneLayout([Plain([Unit(s[Skip(s, 0)..p], [])])]))
  {
    CountUnit(s, 0, p);
    LitNotHere(s, 0, '(');
    NoTermsLeft(s, p);
    var c := s[Skip(s, 0)..p];
    CountAsUnit(c);
    AppendNothing([AsUnit([c])], TermsTailAt(s, p).0);
    var ts := [Unit(c, [])];
    TermsGroup(s, ts, p);
    SingleGroupParse(s, Plain(ts), p);
  }

  /** Only blanks after `j`: no attribute word and no more digits start there. */
  lemma {:induction false} BlanksEndCount(s: string, j: nat)
    requires j <= |s| && Skip(s, j) == |s|
    ensures EndsCount(s, j)
  {
    if j < |s| {
      assert InClass(s[j], Blanks);
    }
  }

  /** One step of `ZeroOrMore(groupseparator + groupunit)`. */
  lemma {:induction false} TailStep(s: string, p: nat, sep: Term, e: nat, u: seq<string>, f: nat)
    requires p <= |s| && SeparatorAt(s, p) == Got(sep, e) && GroupUnitAt(s, e) == Got(u, f)
    ensures TermsTailAt(s, p) == ([sep, AsUnit(u)] + TermsTailAt(s, f).0, TermsTailAt(s, f).1)
  {
  }

  /** A `+` and a count starting at `a`, and only blanks after them. */
  lemma {:induction false} PlusTail(s: string, p: nat, e: nat, a: nat, q: nat)
    requires p <= |s| && SeparatorAt(s, p) == Got(NewCol, e)
    requires a == Skip(s, e) && a < q <= |s| && forall m :: a <= m < q ==> IsDigit(s[m])
    requires Skip(s, q) == |s|
    ensures TermsTailAt(s, p) == ([NewCol, Unit(s[a..q], [])], q)
  {
    BlanksEndCount(s, q);
    CountUnit(s, e, q);
    TailStep(s, p, NewCol, e, [s[a..q]], q);
    NoTermsLeft(s, q);
    LastStep(TermsTailAt(s, p), TermsTailAt(s, q), s[a..q], q);
  }

  /** A separator step followed by nothing is the step alone. */
  lemma {:induction false} LastStep(t: (seq<Term>, nat), rest: (seq<Term>, nat), b: string, q: nat)
    requires t == ([NewCol, AsUnit([b])] + rest.0, rest.1) && rest == ([], q)
    ensures t == ([NewCol, Unit(b, [])], q)
  {
    CountAsUnit(b);
    AppendNothing([NewCol, AsUnit([b])], rest.0);
  }

  /**
   * The terms of a text that is two counts joined by `+`, with blanks
   * anywhere between the tokens.
   */
  lemma {:induction false} SumTermsOf(s: string, p: nat, c: nat, q: nat)
    requires Skip(s, 0) < p <= |s| && forall m :: Skip(s, 0) <= m < p ==> IsDigit(s[m])
    requires c == Skip(s, p) && c < |s| && s[c] == '+'
    requires Skip(s, c + 1) < q <= |s| && forall m :: Skip(s, c + 1) <= m < q ==> IsDigit(s[m])
    requires Skip(s, q) == |s|
    ensures GroupTermsAt(s, 0) == Got([Unit(s[Skip(s, 0)..p], []), NewCol, Unit(s[Skip(s, c + 1)..q], [])], q)
  {
    SkipSkipped(s, p);
    assert EndsCount(s, p);
    CountUnit(s, 0, p);
    SeparatorHere(s, p, '+');
    PlusTail(s, p, c + 1, Skip(s, c + 1), q);
    var a := s[Skip(s, 0)..p];
    CountAsUnit(a);
    LitNotHere(s, 0, '(');
    Prepend([AsUnit([a])], TermsTailAt(s, p).0);
  }

  /**
   * A text that is two counts joined by `+`, with blanks (spaces, line
   * breaks) anywhere between the tokens, parses to the document of the two
   * plain units side by side.
   */
  lemma {:induction false} SumText(s: string, p: nat, c: nat, q: nat)
    requires '\t' !in s
    requires Skip(s, 0) < p <= |s| && forall m :: Skip(s, 0) <= m < p ==> IsDigit(s[m])
    requires c == Skip(s, p) && c < |s| && s[c] == '+'
    requires Skip(s, c + 1) < q <= |s| && forall m :: Skip(s, c + 1) <= m < q ==> IsDigit(s[m])
    requires Skip(s, q) == |s|
    ensures Parse(s) == Ok(OneLayout([Plain([Unit(s[Skip(s, 0)..p], []), NewCol, Unit(s[Skip(s, c + 1)..q], [])])]))
  {
    SumTermsOf(s, p, c, q);
    var ts := [Unit(s[Skip(s, 0)..p], []), NewCol, Unit(s[Skip(s, c + 1)..q], [])];
    TermsGroup(s, ts, q);
    SingleGroupParse(s, Plain(ts), q);
  }

  // ---------------------------------------------------------------- the test texts

  /** Where the blanks of `3` end and what its count reads. */
  lemma {:induction false} ThreeSpelled(s: string)
    requires |s| == 1 && s[0] == '3'
    ensures Skip(s, 0) == 0 && Skip(s, 1) == 1 && s[0..1] == NatToStr(3)
  {
  }

  /** `3` is the panelgroup of the one plain unit 3. */
  lemma {:induction false} ParseThree(s: string)
    requires |s| == 1 && s[0] == '3'
    ensures Parse(s) == Ok(OneLayout([Plain([PlainUnit(3)])]))
  {
    ThreeSpelled(s);
    CountText(s, 1);
  }

  lemma {:induction false} SumSpelled(s: string)
    requires |s| == 3 && s[0] == '1' && s[1] == '+' && s[2] == '2'
    ensures Skip(s, 0) == 0 && Skip(s, 1) == 1 && Skip(s, 2) == 2 && Skip(s, 3) == 3
    ensures s[0..1] == NatToStr(1) && s[2..3] == NatToStr(2)
  {
  }

  /** `1+2` is the panelgroup of the plain units 1 and 2 side by side. */
  lemma {:induction false} ParseSum(s: string)
    requires |s| == 3 && s[0] == '1' && s[1] == '+' && s[2] == '2'
    ensures Parse(s) == Ok(OneLayout([Plain(SumTerms(1, 2))]))
  {
    SumSpelled(s);
    SumText(s, 1, 1, 3);
  }

  /** `1+2` and `3` parse, and their documents render alike (tests.py:94). */
  lemma {:induction false} SumParsesAlike(s: string, t: string)
    requires |s| == 3 && s[0] == '1' && s[1] == '+' && s[2] == '2'
    requires |t| == 1 && t[0] == '3'
    ensures Parse(s).Ok? && Parse(t).Ok?
    ensures DocumentLines(Parse(s).value) == DocumentLines(Parse(t).value)
  {
    ParseSum(s);
    ParseThree(t);
    SumDocuments();
  }

  /** The documents of `1+2` and `3` render alike. */
  lemma {:induction false} SumDocuments()
    ensures DocumentLines(OneLayout([Plain(SumTerms(1, 2))])) == DocumentLines(OneLayout([Plain([PlainUnit(3)])]))
  {
    SumLaw(1, 2, 3, None);
    var a := OneLayout([Plain(SumTerms(1, 2))]);
    var b := OneLayout([Plain([PlainUnit(3)])]);
    assert GroupsAlike(a.galleries[0].spreads[0].layouts[0].groups, b.galleries[0].spreads[0].layouts[0].groups);
    assert LayoutsAlike(a.galleries[0].spreads[0].layouts, b.galleries[0].spreads[0].layouts);
    assert SpreadsAlike(a.galleries[0].spreads, b.galleries[0].spreads);
    DocumentCongruence(a, b);
  }

  lemma {:induction false} SpacedSumSpelled(s: string)
    requires |s| == 7 && s[0] == ' ' && s[1] == '1' && s[2] == ' ' && s[3] == '+'
    requires s[4] == ' ' && s[5] == '2' && s[6] == ' '
    ensures Skip(s, 0) == 1 && Skip(s, 2) == 3 && Skip(s, 4) == 5 && Skip(s, 6) == 7
    ensures s[1..2] == NatToStr(1) && s[5..6] == NatToStr(2)
  {
  }

  /** Blanks before, around and after the `+` change nothing: ` 1 + 2 ` is `1+2` (tests.py:215-230). */
  lemma {:induction false} ParseSpacedSum(s: string)
    requires |s| == 7 && s[0] == ' ' && s[1] == '1' && s[2] == ' ' && s[3] == '+'
    requires s[4] == ' ' && s[5] == '2' && s[6] == ' '
    ensures Parse(s) == Ok(OneLayout([Plain(SumTerms(1, 2))]))
  {
    SpacedSumSpelled(s);
    SumText(s, 2, 3, 6);
  }

  lemma {:induction false} BrokenSumSpelled(s: string)
    requires |s| == 5 && s[0] == '1' && s[1] == '\n' && s[2] == '+' && s[3] == '\n' && s[4] == '2'
    ensures Skip(s, 0) == 0 && Skip(s, 1) == 2 && Skip(s, 3) == 4 && Skip(s, 5) == 5
    ensures s[0..1] == NatToStr(1) && s[4..5] == NatToStr(2)
  {
  }

  /** Line breaks around the `+` change nothing: `1\n+\n2` is `1+2` (tests.py:200-213). */
  lemma {:induction false} ParseBrokenSum(s: string)
    requires |s| == 5 && s[0] == '1' && s[1] == '\n' && s[2] == '+' && s[3] == '\n' && s[4] == '2'
    ensures Parse(s) == Ok(OneLayout([Plain(SumTerms(1, 2))]))
  {
    BrokenSumSpelled(s);
    SumText(s, 1, 2, 5);
  }
}
