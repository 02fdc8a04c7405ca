/**
 * The comment stripper of panelcode/render.py: one regular-expression
 * substitution that deletes `//` line comments and `/* */` block comments
 * and copies double- or single-quoted strings verbatim, so that comment
 * markers inside a quoted string survive.
 *
 * The expression is written out as the leftmost, first-alternative,
 * backtracking match the Python re engine performs at each position.
 */
module Comments {
  import opened Wrappers
  import opened Text

  /** The end of `.*` from i: the next newline, or the end of the text. */
  function LineEnd(s: string, i: nat): (k: nat)
    requires i <= |s|
    ensures i <= k <= |s| && (k == |s| || s[k] == '\n')
    ensures forall j :: i <= j < k ==> s[j] != '\n'
    decreases |s| - i
  {
    if i == |s| || s[i] == '\n' then i else LineEnd(s, i + 1)
  }

  /**
   * The end of `(\\.|[^q])*q` from i, in the engine's order: one more
   * escaped pair first, then one more non-quote character, and only then
   * the closing quote; None when no choice reaches a closing quote.
   */
  function QuoteEnd(s: string, i: nat, q: char): (r: Option<nat>)
    requires i <= |s|
    ensures r.Some? ==> i < r.value <= |s| && s[r.value - 1] == q
    decreases |s| - i
  {
    if i == |s| then None
    else
      var escaped := if s[i] == '\\' && i + 1 < |s| && s[i + 1] != '\n' then QuoteEnd(s, i + 2, q) else None;
      if escaped.Some? then escaped
      else
        var plain := if s[i] != q then QuoteEnd(s, i + 1, q) else None;
        if plain.Some? then plain
        else if s[i] == q then Some(i + 1)
        else None
  }

  /** What the expression matches at the start of s: its length, and whether group 1 (the quoted string) keeps it. */
  datatype Hit = Hit(len: nat, keep: bool)

  function MatchAt(s: string): (r: Option<Hit>)
    ensures r.Some? ==> 0 < r.value.len <= |s|
  {
    if |s| >= 2 && s[..2] == "//" then Some(Hit(LineEnd(s, 2), false))
    else if |s| >= 2 && s[..2] == ['/', '*'] && FindFrom(s, ['*', '/'], 2) >= 0 then Some(Hit(FindFrom(s, ['*', '/'], 2) + 2, false))
    else if |s| >= 1 && (s[0] == '"' || s[0] == '\'') && QuoteEnd(s, 1, s[0]).Some? then
      Some(Hit(QuoteEnd(s, 1, s[0]).value, true))
    else None
  }

  /** regex.sub(lambda m: m.group(1), string): a comment becomes nothing, a quoted string itself. */
  function Decomment(s: string): (r: string)
    ensures |r| <= |s|
    decreases |s|
  {
    if |s| == 0 then ""
    else match MatchAt(s)
      case Some(h) => (if h.keep then s[..h.len] else "") + Decomment(s[h.len..])
      case None => [s[0]] + Decomment(s[1..])
  }

  /** Text without a slash has no comment to remove: quoted strings and everything else are kept as they are. */
  lemma {:induction false} NoSlashUnchanged(s: string)
    requires '/' !in s
    ensures Decomment(s) == s
    decreases |s|
  {
    if |s| > 0 {
      match MatchAt(s)
      case Some(h) =>
        assert s[0] != '/';
        assert h.keep;
        assert '/' !in s[h.len..];
        NoSlashUnchanged(s[h.len..]);
        assert s[..h.len] + s[h.len..] == s;
      case None =>
        assert '/' !in s[1..];
        NoSlashUnchanged(s[1..]);
    }
  }

  /** A line comment disappears up to, and not including, the end of its line. */
  lemma {:induction false} LineCommentRemoved(c: string, rest: string)
    requires '\n' !in c
    ensures Decomment("//" + c + "\n" + rest) == "\n" + Decomment(rest)
  {
    var s := "//" + c + "\n" + rest;
    assert s[..2] == "//";
    LineEndOf(s, 2, |c|);
    assert s[|c| + 2..] == "\n" + rest;
    var t := "\n" + rest;
    assert MatchAt(t).None?;
    assert t[1..] == rest;
  }

  lemma {:induction false} LineEndOf(s: string, i: nat, n: nat)
    requires i + n < |s| && s[i + n] == '\n'
    requires forall j :: i <= j < i + n ==> s[j] != '\n'
    ensures LineEnd(s, i) == i + n
    decreases n
  {
    if n > 0 {
      LineEndOf(s, i + 1, n - 1);
    }
  }

  /** A comment at the end of the text takes the rest of it. */
  lemma {:induction false} LineCommentAtEnd(c: string)
    requires '\n' !in c
    ensures Decomment("//" + c) == ""
  {
    var s := "//" + c;
    assert s[..2] == "//";
    var k := LineEnd(s, 2);
    assert forall j :: 2 <= j < |s| ==> s[j] == c[j - 2];
    assert s[k..] == [];
  }

  /** A block comment whose body holds no closing marker disappears, closing marker included. */
  lemma {:induction false} BlockCommentRemoved(c: string, rest: string)
    requires !Contains(c, ['*', '/'])
    ensures Decomment(['/', '*'] + c + ['*', '/'] + rest) == Decomment(rest)
  {
    var b := ['/', '*'] + c + ['*', '/'];
    var s := b + rest;
    assert s[1] == '*';
    assert s[..2] == ['/', '*'] && s[..2] != "//";
    assert OccursAt(b, ['*', '/'], |c| + 2);
    forall j: nat | 2 <= j < |c| + 2
      ensures !OccursAt(b, ['*', '/'], j)
    {
      ClosesOnlyAtEnd(c, j);
    }
    FirstOccurrence(b, ['*', '/'], 2, |c| + 2);
    FindFromPrefix(b, rest, ['*', '/'], 2);
    assert s[|c| + 4..] == rest;
  }

  /** Between the markers of a block comment whose body holds none, no closing marker starts. */
  lemma {:induction false} ClosesOnlyAtEnd(c: string, j: nat)
    requires !Contains(c, ['*', '/']) && 2 <= j < |c| + 2
    ensures !OccursAt(['/', '*'] + c + ['*', '/'], ['*', '/'], j)
  {
    var b := ['/', '*'] + c + ['*', '/'];
    if j < |c| + 1 {
      assert b[j..j + 2] == c[j - 2..j];
      assert !OccursAt(c, ['*', '/'], j - 2);
    } else {
      assert b[j + 1] == '*';
      assert b[j..j + 2][1] == b[j + 1];
    }
  }

  /** The first occurrence at or after i is what the search finds. */
  lemma {:induction false} FirstOccurrence(s: string, sub: string, i: nat, k: nat)
    requires i <= k && OccursAt(s, sub, k)
    requires forall j: nat :: i <= j < k ==> !OccursAt(s, sub, j)
    ensures FindFrom(s, sub, i) == k
    decreases k - i
  {
    if i < k {
      assert !OccursAt(s, sub, i);
      FirstOccurrence(s, sub, i + 1, k);
    }
  }

  /**
   * A block-comment opener (slash, star) that is never closed starts no
   * comment: its slash is copied and the text is read on from the star.
   */
  lemma {:induction false} UnclosedBlockKept(c: string)
    requires FindFrom(['/', '*'] + c, ['*', '/'], 2) < 0
    ensures Decomment(['/', '*'] + c) == "/" + Decomment("*" + c)
  {
    var s := ['/', '*'] + c;
    assert s[..2] == ['/', '*'] && s[..2] != "//";
    assert s[1..] == "*" + c;
  }

  /** A match found in a prefix is found at the same place in the whole text. */
  lemma {:induction false} FindFromPrefix(b: string, rest: string, sub: string, i: nat)
    requires i <= |b| && FindFrom(b, sub, i) >= 0
    ensures FindFrom(b + rest, sub, i) == FindFrom(b, sub, i)
    decreases |b| - i
  {
    var s := b + rest;
    if i + |sub| <= |b| && b[i..i + |sub|] == sub {
      assert s[i..i + |sub|] == b[i..i + |sub|];
    } else {
      assert i + |sub| <= |b|;
      assert s[i..i + |sub|] == b[i..i + |sub|];
      FindFromPrefix(b, rest, sub, i + 1);
    }
  }

  /**
   * The body of a quoted string as the expression reads it: characters
   * other than the quote and the backslash, and backslash pairs whose
   * second character is not a newline (`\\.`), the quote included.
   */
  predicate WellEscaped(c: string, q: char)
    decreases |c|
  {
    |c| == 0 ||
    (c[0] == '\\' && |c| >= 2 && c[1] != '\n' && WellEscaped(c[2..], q)) ||
    (c[0] != '\\' && c[0] != q && WellEscaped(c[1..], q))
  }

  /**
   * An escaped pair is stepped over whole when the string closes after it:
   * the engine tries `\\.` before `[^q]`.
   */
  lemma {:induction false} EscapeSkipped(s: string, i: nat, q: char)
    requires i + 1 < |s| && s[i] == '\\' && s[i + 1] != '\n' && QuoteEnd(s, i + 2, q).Some?
    ensures QuoteEnd(s, i, q) == QuoteEnd(s, i + 2, q)
  {
  }

  /**
   * A well-escaped body followed by the quote ends there: no escaped quote
   * closes the string, and the first unescaped quote does.
   */
  lemma {:induction false} QuoteEndEscaped(s: string, i: nat, n: nat, q: char)
    requires i + n < |s| && s[i + n] == q && q != '\\' && WellEscaped(s[i..i + n], q)
    ensures QuoteEnd(s, i, q) == Some(i + n + 1)
    decreases n
  {
    var c := s[i..i + n];
    if n > 0 {
      assert c[0] == s[i];
      if s[i] == '\\' {
        assert c[1] == s[i + 1];
        assert c[2..] == s[i + 2..i + n];
        QuoteEndEscaped(s, i + 2, n - 2, q);
        EscapeSkipped(s, i, q);
      } else {
        assert c[1..] == s[i + 1..i + n];
        QuoteEndEscaped(s, i + 1, n - 1, q);
      }
    }
  }

  /**
   * A double- or single-quoted string is copied verbatim, comment markers
   * and escaped quotes included, and the text after it is read on.
   */
  lemma {:induction false} QuotedKept(q: char, c: string, rest: string)
    requires (q == '"' || q == '\'') && WellEscaped(c, q)
    ensures Decomment([q] + c + [q] + rest) == [q] + c + [q] + Decomment(rest)
  {
    var s := [q] + c + [q] + rest;
    assert s[0] == q && s[..2][0] == q;
    assert s[1..1 + |c|] == c && s[1 + |c|] == q;
    QuoteEndEscaped(s, 1, |c|, q);
    assert MatchAt(s) == Some(Hit(|c| + 2, true));
    assert s[..|c| + 2] == [q] + c + [q];
    assert s[|c| + 2..] == rest;
  }

  /**
   * An escaped quote does not close the string: the double-quoted text of
   * `a`, a backslash, a double quote, two slashes and `b` is kept whole,
   * the slashes included.
   */
  lemma {:induction false} EscapedQuote(c: string)
    requires |c| == 6 && c[0] == 'a' && c[1] == '\\' && c[2] == '"' && c[3] == '/' && c[4] == '/' && c[5] == 'b'
    ensures Decomment(['"'] + c + ['"']) == ['"'] + c + ['"']
  {
    EscapedBody(c);
    QuotedKept('"', c, []);
    assert ['"'] + c + ['"'] + [] == ['"'] + c + ['"'];
  }

  /** The body of that text is well escaped: the backslash pair holds the quote. */
  lemma {:induction false} EscapedBody(c: string)
    requires |c| == 6 && c[0] == 'a' && c[1] == '\\' && c[2] == '"' && c[3] == '/' && c[4] == '/' && c[5] == 'b'
    ensures WellEscaped(c, '"')
  {
    assert WellEscaped(c[6..], '"');
    assert WellEscaped(c[5..], '"');
    assert WellEscaped(c[4..], '"');
    assert WellEscaped(c[3..], '"');
    assert c[3..] == c[1..][2..];
    assert WellEscaped(c[1..], '"');
  }

  /** Nothing matches at a character that starts neither a comment nor a quoted string. */
  lemma {:induction false} NoMatchAtPlain(s: string)
    requires |s| > 0 && s[0] != '/' && s[0] != '"' && s[0] != '\''
    ensures MatchAt(s).None? && Decomment(s) == [s[0]] + Decomment(s[1..])
  {
    assert |s| >= 2 ==> s[..2][0] == s[0];
  }

  /** A plain character in front of any text is copied and the rest is read on from the next character. */
  lemma {:induction false} PlainCons(c: char, u: string)
    requires c != '/' && c != '"' && c != '\''
    ensures Decomment([c] + u) == [c] + Decomment(u)
  {
    var s := [c] + u;
    assert s[0] == c;
    NoMatchAtPlain(s);
    assert s[1..] == u;
  }

  lemma {:induction false} ConsRest(a: string, d: string)
    requires |a| > 0
    ensures [a[0]] + (a[1..] + d) == a + d
  {
  }

  /** Text holding no slash and no quote passes through untouched, whatever follows it. */
  lemma {:induction false} PlainPrefix(a: string, b: string)
    requires forall i :: 0 <= i < |a| ==> a[i] != '/' && a[i] != '"' && a[i] != '\''
    ensures Decomment(a + b) == a + Decomment(b)
    decreases |a|
  {
    if |a| > 0 {
      var t, u := a[1..], a[1..] + b;
      assert forall i :: 0 <= i < |t| ==> t[i] == a[i + 1];
      assert a + b == [a[0]] + u;
      PlainCons(a[0], u);
      PlainPrefix(t, b);
      ConsRest(a, Decomment(b));
    } else {
      assert a + b == b;
    }
  }
}
