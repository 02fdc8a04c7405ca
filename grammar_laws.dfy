/**
 * What the Panelcode grammar guarantees about the trees it builds: a unit
 * is always read as a count and its attributes (the bare attribute-word
 * alternative never wins, so `r2` is the unit `['', 'r2']`), a panelgroup
 * always keeps its term list, and an option block of a lower level never
 * swallows the opening brace of a higher level's block.
 */
module GrammarLaws {
  import opened Wrappers
  import opened Text
  import opened Options
  import opened Grammar

  lemma {:induction false} SkipSkipped(s: string, i: nat)
    requires i <= |s|
    ensures Skip(s, Skip(s, i)) == Skip(s, i)
  {
  }

  /** A character that can start no option item and does not close a block. */
  predicate IsStop(c: char) {
    !IsBlank(c) && !IsLetter(c) && c != '.' && c != '}'
  }

  /** After the blanks, a character neither a dot nor a letter starts no attribute word. */
  lemma {:induction false} NoWordAt(s: string, a: nat)
    requires a < |s| && !IsBlank(s[a]) && !IsLetter(s[a]) && s[a] != '.'
    ensures Skip(s, a) == a && OptionalDot(s, a) == a
    ensures AttrWordAt(s, a).Fail? && AttrWordsAt(s, a) == ([], a)
  {
  }

  /** At a stop character the option items are empty and no `}` follows, so the block fails. */
  lemma {:induction false} ItemsStop(s: string, a: nat)
    requires a < |s| && IsStop(s[a])
    ensures OptItemsAt(s, a) == ([], a) && LitAt(s, a, "}").Fail?
  {
    NoWordAt(s, a);
    assert TermAt(s, a).Fail?;
    assert KvExprAt(s, a).Fail?;
    assert LettersAt(s, a).Fail?;
    assert KvWordAt(s, a).Fail?;
    assert OptItemAt(s, a).Fail?;
    assert s[a..a + 1][0] == s[a];
  }

  // ---------------------------------------------------------------- units

  /** An attribute word read from the position after the digits is the one read from the start. */
  lemma {:induction false} SameWord(s: string, i: nat)
    requires i <= |s| && AttrWordAt(s, i).Got?
    ensures DigitsAt(s, i) == ("", Skip(s, i))
    ensures AttrWordAt(s, Skip(s, i)) == AttrWordAt(s, i)
  {
    var j := Skip(s, i);
    SkipSkipped(s, i);
    assert j < |s|;
    assert !IsDigit(s[j]);
    assert RunEnd(s, j, Digits) == j;
    assert s[j..j] == "";
  }

  /** The first word of an attribute-word run ends no later than the run. */
  lemma {:induction false} WordsReachFirst(s: string, i: nat)
    requires i <= |s| && AttrWordAt(s, i).Got?
    ensures |AttrWordsAt(s, i).0| > 0 && AttrWordsAt(s, i).1 >= AttrWordAt(s, i).next
  {
  }

  /** Every attribute word starts with a letter. */
  lemma {:induction false} WordsStartWithLetters(s: string, i: nat)
    requires i <= |s|
    ensures forall m :: 0 <= m < |AttrWordsAt(s, i).0| ==> |AttrWordsAt(s, i).0[m]| > 0 && IsLetter(AttrWordsAt(s, i).0[m][0])
    decreases |s| - i
  {
    match AttrWordAt(s, i)
    case Fail =>
    case Got(w, j) =>
      WordsStartWithLetters(s, j);
      var rest := AttrWordsAt(s, j).0;
      assert AttrWordsAt(s, i).0 == [w] + rest;
      forall m | 0 < m < |AttrWordsAt(s, i).0| ensures AttrWordsAt(s, i).0[m] == rest[m - 1] {
      }
  }

  /**
   * `groupunit` always reads a count and its attributes: the bare
   * `attr_word` alternative never reaches further than `numrow` followed by
   * the same words, so `r2` is the unit with the empty count (which the
   * renderer reads as 1) and the attribute `r2`.  The count is a run of
   * digits, possibly empty, and every attribute starts with a letter.
   */
  lemma {:induction false} GroupUnitShape(s: string, i: nat)
    requires i <= |s|
    ensures GroupUnitAt(s, i) == Longest(UnitWithAttrsAt(s, i), BareCountAt(s, i))
    ensures AllDigits(GroupUnitAt(s, i).value[0])
    ensures forall m :: 1 <= m < |GroupUnitAt(s, i).value| ==>
      |GroupUnitAt(s, i).value[m]| > 0 && IsLetter(GroupUnitAt(s, i).value[m][0])
  {
    var d := DigitsAt(s, i);
    WordsStartWithLetters(s, d.1);
    if AttrWordAt(s, i).Got? {
      SameWord(s, i);
      WordsReachFirst(s, Skip(s, i));
    }
    var r := GroupUnitAt(s, i);
    var ws := AttrWordsAt(s, d.1).0;
    if |r.value| > 1 {
      assert r == UnitWithAttrsAt(s, i);
      assert r.value == [d.0] + ws;
      forall m | 1 <= m < |r.value| ensures r.value[m] == ws[m - 1] {
      }
    }
  }

  // ---------------------------------------------------------------- panelgroups

  /** An opening parenthesis is no unit: there a unit is the empty count, read without moving. */
  lemma {:induction false} UnitAtParen(s: string, i: nat)
    requires i <= |s| && Skip(s, i) < |s| && s[Skip(s, i)] == '('
    ensures GroupUnitAt(s, i).next == Skip(s, i)
  {
    var j := Skip(s, i);
    SkipSkipped(s, i);
    assert RunEnd(s, j, Digits) == j;
    NoWordAt(s, j);
    assert OptionalDot(s, i) == i;
    assert TermAt(s, i).Fail?;
    assert UnitWithAttrsAt(s, i).Fail?;
  }

  /**
   * A parsed panelgroup always keeps its term list: `groupterms` reaches at
   * least as far as a lone `groupunit`, and a tie goes to it, so every
   * panelgroup of a parsed document is rendered from its terms.
   */
  lemma {:induction false} PanelGroupHasTerms(s: string, i: nat)
    requires i <= |s|
    ensures PanelGroupAt(s, i).0.terms.Some?
    ensures PanelGroupAt(s, i).0.terms == Some(GroupTermsAt(s, i).value)
  {
    TermsReachUnit(s, i);
    var t := GroupTermsAt(s, i);
    var u := GroupUnitAt(s, i);
    assert Longest(Got(Some(t.value), t.next), Got(None, u.next)) == Got(Some(t.value), t.next);
  }

  /** The term list reaches at least as far as a lone unit read from the same place. */
  lemma {:induction false} TermsReachUnit(s: string, i: nat)
    requires i <= |s|
    ensures GroupTermsAt(s, i).next >= GroupUnitAt(s, i).next
  {
    var p := LitAt(s, i, "(");
    if p.Got? {
      UnitAtParen(s, i);
      assert p.next > Skip(s, i);
    }
  }

  // ---------------------------------------------------------------- option blocks

  lemma {:induction false} PairAt(s: string, j: nat, a: char, b: char)
    requires j + 1 < |s| && s[j] == a && s[j + 1] == b
    ensures s[j..j + 2] == [a, b]
  {
  }

  lemma {:induction false} TripleAt(s: string, j: nat, a: char, b: char, c: char)
    requires j + 2 < |s| && s[j] == a && s[j + 1] == b && s[j + 2] == c
    ensures s[j..j + 3] == [a, b, c]
  {
  }

  lemma {:induction false} QuadAt(s: string, j: nat, a: char, b: char, c: char, d: char)
    requires j + 3 < |s| && s[j] == a && s[j + 1] == b && s[j + 2] == c && s[j + 3] == d
    ensures s[j..j + 4] == [a, b, c, d]
  {
  }

  /** A literal whose character at `k` differs from the text's is not there. */
  lemma {:induction false} LitMismatch(s: string, i: nat, lit: string, k: nat)
    requires i <= |s| && k < |lit| && Skip(s, i) + k < |s| && s[Skip(s, i) + k] != lit[k]
    ensures LitAt(s, i, lit).Fail?
  {
    var j := Skip(s, i);
    if j + |lit| <= |s| {
      assert s[j..j + |lit|][k] == s[j + k];
    }
  }

  /** A block whose second opener matches and is followed by a stop character is not there. */
  lemma {:induction false} BlockStops(s: string, i: nat, open1: string, open2: string, a: nat)
    requires i <= |s| && LitAt(s, i, open1).Fail? && LitAt(s, i, open2) == Got((), a) && a < |s| && IsStop(s[a])
    ensures OptionalBlock(s, i, open1, open2) == (None, i)
  {
    ItemsStop(s, a);
  }

  /** A block neither of whose openers matches is not there. */
  lemma {:induction false} BlockAbsent(s: string, i: nat, open1: string, open2: string)
    requires i <= |s| && LitAt(s, i, open1).Fail? && LitAt(s, i, open2).Fail?
    ensures OptionalBlock(s, i, open1, open2) == (None, i)
  {
  }

  /**
   * The panelgroup block `{+ }` / `{ }` leaves alone a brace followed by a
   * character that starts no option item: `{:`, `{|`, `{;`, `{@` and `{!`
   * stay for the layout, spread, gallery and document blocks.
   */
  lemma {:induction false} GroupBlockLeavesUpper(s: string, i: nat)
    requires i <= |s| && Skip(s, i) + 1 < |s|
    requires s[Skip(s, i)] == '{' && IsStop(s[Skip(s, i) + 1]) && s[Skip(s, i) + 1] != '+'
    ensures OptionalBlock(s, i, "{+", "{") == (None, i)
  {
    var j := Skip(s, i);
    LitMismatch(s, i, "{+", 1);
    assert s[j..j + 1] == "{";
    assert LitAt(s, i, "{") == Got((), j + 1);
    BlockStops(s, i, "{+", "{", j + 1);
  }

  /** The layout block `{| }` / `{: }` leaves `{;`, `{::`, `{@` and `{!` to the levels above. */
  lemma {:induction false} LayoutBlockLeavesUpper(s: string, i: nat)
    requires i <= |s| && Skip(s, i) + 2 < |s| && s[Skip(s, i)] == '{'
    requires s[Skip(s, i) + 1] in ";@!" || (s[Skip(s, i) + 1] == ':' && s[Skip(s, i) + 2] == ':')
    ensures OptionalBlock(s, i, "{|", "{:") == (None, i)
  {
    var j := Skip(s, i);
    LitMismatch(s, i, "{|", 1);
    if s[j + 1] == ':' {
      PairAt(s, j, '{', ':');
      assert LitAt(s, i, "{:") == Got((), j + 2);
      BlockStops(s, i, "{|", "{:", j + 2);
    } else {
      LitMismatch(s, i, "{:", 1);
      BlockAbsent(s, i, "{|", "{:");
    }
  }

  /** The spread block `{; }` / `{:: }` leaves `{@`, `{:::` and `{!` to the levels above. */
  lemma {:induction false} SpreadBlockLeavesUpper(s: string, i: nat)
    requires i <= |s| && Skip(s, i) + 3 < |s| && s[Skip(s, i)] == '{'
    requires s[Skip(s, i) + 1] in "@!" || (s[Skip(s, i) + 1] == ':' && s[Skip(s, i) + 2] == ':' && s[Skip(s, i) + 3] == ':')
    ensures OptionalBlock(s, i, "{;", "{::") == (None, i)
  {
    var j := Skip(s, i);
    LitMismatch(s, i, "{;", 1);
    if s[j + 1] == ':' {
      TripleAt(s, j, '{', ':', ':');
      assert LitAt(s, i, "{::") == Got((), j + 3);
      BlockStops(s, i, "{;", "{::", j + 3);
    } else {
      LitMismatch(s, i, "{::", 1);
      BlockAbsent(s, i, "{;", "{::");
    }
  }

  /** The gallery block `{@ }` / `{::: }` leaves `{!` and `{::::` to the document. */
  lemma {:induction false} GalleryBlockLeavesUpper(s: string, i: nat)
    requires i <= |s| && Skip(s, i) + 4 < |s| && s[Skip(s, i)] == '{'
    requires s[Skip(s, i) + 1] == '!' ||
             (s[Skip(s, i) + 1] == ':' && s[Skip(s, i) + 2] == ':' && s[Skip(s, i) + 3] == ':' && s[Skip(s, i) + 4] == ':')
    ensures OptionalBlock(s, i, "{@", "{:::") == (None, i)
  {
    var j := Skip(s, i);
    LitMismatch(s, i, "{@", 1);
    if s[j + 1] == ':' {
      QuadAt(s, j, '{', ':', ':', ':');
      assert LitAt(s, i, "{:::") == Got((), j + 4);
      BlockStops(s, i, "{@", "{:::", j + 4);
    } else {
      LitMismatch(s, i, "{:::", 1);
      BlockAbsent(s, i, "{@", "{:::");
    }
  }
}
