/**
  String helpers with the semantics of the Python built-ins the source
  relies on: str.strip, str.find, `in`, str.split, str.join, str.replace,
  int(), str() of an int, posixpath.basename and posixpath.splitext.
  Text is a sequence of characters; only ASCII whitespace, digits and
  letters are classified (the grammar never produces anything else).
*/
module Text {

  import opened Wrappers

  /** Characters that str.strip() and str.split() treat as whitespace. */
  predicate IsSpace(c: char) {
    c == ' ' || c == '\t' || c == '\n' || c == '\r' || c == '\U{B}' || c == '\U{C}'
  }

  predicate IsDigit(c: char) { '0' <= c <= '9' }

  predicate IsLetter(c: char) { 'a' <= c <= 'z' || 'A' <= c <= 'Z' }

  predicate AllSpace(s: string) { forall i :: 0 <= i < |s| ==> IsSpace(s[i]) }

  predicate AllDigits(s: string) { forall i :: 0 <= i < |s| ==> IsDigit(s[i]) }

  /** str.isdigit(): non-empty and made of digits only. */
  predicate IsDigits(s: string) { |s| > 0 && AllDigits(s) }

  /** str.isalpha(): non-empty and made of letters only. */
  predicate IsAlpha(s: string) { |s| > 0 && forall i :: 0 <= i < |s| ==> IsLetter(s[i]) }

  predicate StartsWith(s: string, prefix: string) { prefix <= s }

  predicate EndsWith(s: string, suffix: string) {
    |suffix| <= |s| && s[|s| - |suffix|..] == suffix
  }

  /** `sub` occurs in `s` starting at index i. */
  predicate OccursAt(s: string, sub: string, i: nat) {
    i + |sub| <= |s| && s[i..i + |sub|] == sub
  }

  /** `sub in s` */
  predicate Contains(s: string, sub: string) {
    exists i: nat :: i <= |s| && OccursAt(s, sub, i)
  }

  /** The first index at or after i that is not whitespace (|s| if none). */
  function SpaceRunEnd(s: string, i: nat): (k: nat)
    requires i <= |s|
    ensures i <= k <= |s|
    ensures forall m :: i <= m < k ==> IsSpace(s[m])
    ensures k == |s| || !IsSpace(s[k])
    decreases |s| - i
  {
    if i < |s| && IsSpace(s[i]) then SpaceRunEnd(s, i + 1) else i
  }

  /** The index just after the last non-whitespace character in s[lo..j] (lo if none). */
  function SpaceRunStart(s: string, lo: nat, j: nat): (k: nat)
    requires lo <= j <= |s|
    ensures lo <= k <= j
    ensures forall m :: k <= m < j ==> IsSpace(s[m])
    ensures k == lo || !IsSpace(s[k - 1])
    decreases j
  {
    if j > lo && IsSpace(s[j - 1]) then SpaceRunStart(s, lo, j - 1) else j
  }

  /** str.lstrip() */
  function LStrip(s: string): string {
    s[SpaceRunEnd(s, 0)..]
  }

  /** str.strip(): the text between the leading and the trailing whitespace. */
  function Strip(s: string): (r: string)
    ensures |r| <= |s|
    ensures r == [] <==> AllSpace(s)
    ensures r != [] ==> !IsSpace(r[0]) && !IsSpace(r[|r| - 1])
  {
    var lo := SpaceRunEnd(s, 0);
    var hi := SpaceRunStart(s, lo, |s|);
    s[lo..hi]
  }

  /** A text without surrounding whitespace is its own strip. */
  lemma {:induction false} StripUnspaced(s: string)
    requires s == [] || (!IsSpace(s[0]) && !IsSpace(s[|s| - 1]))
    ensures Strip(s) == s
  {
  }

  /** A piece of a text cannot contain what the whole text does not. */
  lemma {:induction false} ContainsInfix(s: string, a: nat, b: nat, sub: string)
    requires a <= b <= |s|
    requires Contains(s[a..b], sub)
    ensures Contains(s, sub)
  {
    var t := s[a..b];
    var i: nat :| i <= |t| && OccursAt(t, sub, i);
    assert i + |sub| <= |t| && t[i..i + |sub|] == sub;
    assert forall j :: 0 <= j < |t| ==> t[j] == s[a + j];
    assert t[i..i + |sub|] == s[a + i..a + i + |sub|];
    assert OccursAt(s, sub, a + i);
  }

  /** Stripping never brings in an occurrence the text did not have. */
  lemma {:induction false} StripKeepsAbsence(s: string, sub: string)
    requires !Contains(s, sub)
    ensures !Contains(Strip(s), sub)
  {
    var lo := SpaceRunEnd(s, 0);
    var hi := SpaceRunStart(s, lo, |s|);
    if Contains(s[lo..hi], sub) { ContainsInfix(s, lo, hi, sub); }
  }

  /** A one-character substring occurs exactly when the character does. */
  lemma {:induction false} ContainsChar(s: string, c: char)
    ensures Contains(s, [c]) <==> c in s
  {
    if c in s {
      var i :| 0 <= i < |s| && s[i] == c;
      assert OccursAt(s, [c], i);
    }
    if Contains(s, [c]) {
      var i: nat :| i <= |s| && OccursAt(s, [c], i);
      assert s[i..i + 1][0] == s[i];
    }
  }

  /** First index j >= i at which `sub` occurs, or -1. */
  function FindFrom(s: string, sub: string, i: nat): (r: int)
    requires i <= |s|
    ensures r == -1 || (i <= r && OccursAt(s, sub, r))
    ensures forall j: nat :: i <= j && (r == -1 || j < r) ==> !OccursAt(s, sub, j)
    decreases |s| - i
  {
    if i + |sub| > |s| then -1
    else if s[i..i + |sub|] == sub then i
    else FindFrom(s, sub, i + 1)
  }

  /** str.find(sub): the first occurrence, or -1. */
  function Find(s: string, sub: string): (r: int)
    ensures r >= 0 <==> Contains(s, sub)
    ensures r >= 0 ==> OccursAt(s, sub, r)
    ensures r >= 0 ==> forall j: nat :: j < r ==> !OccursAt(s, sub, j)
    ensures r < 0 ==> r == -1
  {
    FindFrom(s, sub, 0)
  }

  /** The text before the first occurrence of `sub` (all of `s` when absent). */
  function Before(s: string, sub: string): (r: string)
    ensures r <= s
    ensures Contains(s, sub) ==> OccursAt(s, sub, |r|)
    ensures !Contains(s, sub) ==> r == s
    ensures |sub| > 0 ==> !Contains(r, sub)
  {
    var k := Find(s, sub);
    var r := if k >= 0 then s[..k] else s;
    assert |sub| > 0 && Contains(r, sub) ==> false by {
      if |sub| > 0 && Contains(r, sub) {
        var j: nat :| j <= |r| && OccursAt(r, sub, j);
        assert j + |sub| <= |r| && r[j..j + |sub|] == sub;
        assert s[j..j + |sub|] == r[j..j + |sub|];
        assert OccursAt(s, sub, j);
      }
    }
    r
  }

  /** sep.join(xs) */
  function Join(sep: string, xs: seq<string>): string {
    if |xs| == 0 then "" else if |xs| == 1 then xs[0] else xs[0] + sep + Join(sep, xs[1..])
  }

  lemma {:induction false} JoinAppend(sep: string, xs: seq<string>, x: string)
    requires |xs| > 0
    ensures Join(sep, xs + [x]) == Join(sep, xs) + sep + x
  {
    if |xs| > 1 {
      assert (xs + [x])[1..] == xs[1..] + [x];
      JoinAppend(sep, xs[1..], x);
    }
  }

  /** Every element of a joined list occurs in the joined text. */
  lemma {:induction false} JoinContains(sep: string, xs: seq<string>, i: nat)
    requires i < |xs|
    ensures Contains(Join(sep, xs), xs[i])
  {
    if |xs| == 1 {
      assert OccursAt(Join(sep, xs), xs[i], 0);
    } else if i == 0 {
      assert OccursAt(Join(sep, xs), xs[0], 0);
    } else {
      JoinContains(sep, xs[1..], i - 1);
      var t := Join(sep, xs[1..]);
      var s := xs[0] + sep + t;
      assert s[|xs[0] + sep|..|s|] == t;
      ContainsInfix(s, |xs[0] + sep|, |s|, xs[i]);
    }
  }

  /** A character of a joined list comes from the separator or from one of the elements. */
  lemma {:induction false} JoinChars(sep: string, xs: seq<string>, c: char)
    requires c in Join(sep, xs)
    ensures c in sep || exists i :: 0 <= i < |xs| && c in xs[i]
  {
    if |xs| > 1 {
      var t := Join(sep, xs[1..]);
      if c in t {
        JoinChars(sep, xs[1..], c);
        if c !in sep {
          var i :| 0 <= i < |xs| - 1 && c in xs[1..][i];
          assert c in xs[i + 1];
        }
      } else {
        assert c in xs[0] + sep;
      }
    }
  }

  function IndexOfChar(s: string, c: char): (k: nat)
    requires c in s
    ensures k < |s| && s[k] == c && c !in s[..k]
  {
    if s[0] == c then 0 else
      var k := IndexOfChar(s[1..], c);
      assert s[..k + 1] == [s[0]] + s[1..][..k];
      k + 1
  }

  /** s.split(sep) for a one-character separator: always at least one piece. */
  function SplitOn(s: string, sep: char): (r: seq<string>)
    ensures |r| >= 1
    ensures forall k :: 0 <= k < |r| ==> sep !in r[k]
    decreases |s|
  {
    if sep in s then
      var k := IndexOfChar(s, sep);
      [s[..k]] + SplitOn(s[k + 1..], sep)
    else [s]
  }

  lemma {:induction false} JoinCons(sep: string, x: string, rest: seq<string>)
    requires |rest| > 0
    ensures Join(sep, [x] + rest) == x + sep + Join(sep, rest)
  {
    assert ([x] + rest)[0] == x && ([x] + rest)[1..] == rest;
  }

  /** Joining the pieces back with the separator restores the text. */
  lemma {:induction false} JoinSplitOn(s: string, sep: char)
    ensures Join([sep], SplitOn(s, sep)) == s
    decreases |s|
  {
    if sep in s {
      var k := IndexOfChar(s, sep);
      JoinSplitOn(s[k + 1..], sep);
      JoinCons([sep], s[..k], SplitOn(s[k + 1..], sep));
      assert s == s[..k] + [sep] + s[k + 1..];
    }
  }

  lemma {:induction false} IndexOfCharAfter(a: string, c: char, b: string)
    requires c !in a
    ensures c in a + [c] + b && IndexOfChar(a + [c] + b, c) == |a|
  {
    if a != [] {
      assert (a + [c] + b)[1..] == a[1..] + [c] + b;
      IndexOfCharAfter(a[1..], c, b);
    }
  }

  /** Splitting a join of separator-free pieces gives the pieces back. */
  lemma {:induction false} SplitOnJoin(xs: seq<string>, sep: char)
    requires |xs| >= 1
    requires forall k :: 0 <= k < |xs| ==> sep !in xs[k]
    ensures SplitOn(Join([sep], xs), sep) == xs
  {
    if |xs| > 1 {
      var j := Join([sep], xs);
      var rest := Join([sep], xs[1..]);
      assert j == xs[0] + [sep] + rest;
      IndexOfCharAfter(xs[0], sep, rest);
      assert j[..|xs[0]|] == xs[0];
      assert j[|xs[0]| + 1..] == rest;
      SplitOnJoin(xs[1..], sep);
    } else {
      assert Join([sep], xs) == xs[0];
    }
  }

  /** The lines of a text: s.split('\n'). */
  function Lines(s: string): (r: seq<string>)
    ensures |r| >= 1
  {
    SplitOn(s, '\n')
  }

  /** '\n'.join(lines) */
  function Unlines(lines: seq<string>): string {
    Join("\n", lines)
  }

  function DigitChar(d: nat): (c: char)
    requires d < 10
    ensures IsDigit(c)
  {
    ['0', '1', '2', '3', '4', '5', '6', '7', '8', '9'][d]
  }

  /** The decimal value of a digit string (leading zeros allowed). */
  function DigitsValue(s: string): nat
    requires AllDigits(s)
  {
    if |s| == 0 then 0 else DigitsValue(s[..|s| - 1]) * 10 + (s[|s| - 1] as int - '0' as int)
  }

  /** str(n) for a natural number. */
  function NatToStr(n: nat): (r: string)
    ensures IsDigits(r)
    ensures DigitsValue(r) == n
  {
    if n < 10 then [DigitChar(n)]
    else
      var r := NatToStr(n / 10) + [DigitChar(n % 10)];
      assert r[..|r| - 1] == NatToStr(n / 10);
      r
  }

  /** str(i) for an integer. */
  function IntToStr(i: int): string {
    if i < 0 then "-" + NatToStr(-i) else NatToStr(i)
  }

  /** int(s): optional surrounding whitespace and sign around a decimal numeral, else ValueError. */
  function PyInt(s: string): Option<int> {
    var t := Strip(s);
    if |t| > 0 && (t[0] == '-' || t[0] == '+') && IsDigits(t[1..]) then
      var v: int := DigitsValue(t[1..]);
      Some(if t[0] == '-' then -v else v)
    else if IsDigits(t) then Some(DigitsValue(t))
    else None
  }

  /** int() of a plain digit string is its decimal value. */
  lemma {:induction false} PyIntDigits(s: string)
    requires IsDigits(s)
    ensures PyInt(s) == Some(DigitsValue(s))
  {
    assert IsDigit(s[0]) && IsDigit(s[|s| - 1]);
    StripUnspaced(s);
    assert s[0] != '-' && s[0] != '+';
  }

  /** s.replace('', repl): `repl` at every position. */
  function ReplaceEmpty(s: string, repl: string): string {
    if s == [] then repl else repl + [s[0]] + ReplaceEmpty(s[1..], repl)
  }

  /** s.replace(pat, repl): every non-overlapping occurrence, left to right. */
  function Replace(s: string, pat: string, repl: string): string
    decreases |s|
  {
    if |pat| == 0 then ReplaceEmpty(s, repl)
    else if |s| < |pat| then s
    else if s[..|pat|] == pat then repl + Replace(s[|pat|..], pat, repl)
    else [s[0]] + Replace(s[1..], pat, repl)
  }

  function WordEnd(s: string, i: nat): (j: nat)
    requires i <= |s|
    ensures i <= j <= |s|
    ensures forall k :: i <= k < j ==> !IsSpace(s[k])
    ensures j < |s| ==> IsSpace(s[j])
    decreases |s| - i
  {
    if i < |s| && !IsSpace(s[i]) then WordEnd(s, i + 1) else i
  }

  /** s.split() with no argument: the maximal runs of non-whitespace. */
  function SplitWs(s: string): (r: seq<string>)
    ensures forall k :: 0 <= k < |r| ==> |r[k]| > 0 && forall c :: c in r[k] ==> !IsSpace(c)
    decreases |s|
  {
    var t := LStrip(s);
    if t == [] then []
    else
      var k := WordEnd(t, 1);
      [t[..k]] + SplitWs(t[k..])
  }

  function LastIndexOfChar(s: string, c: char): (k: int)
    ensures -1 <= k < |s|
    ensures k >= 0 ==> s[k] == c
    ensures forall j :: k < j < |s| ==> s[j] != c
  {
    if |s| == 0 then -1
    else if s[|s| - 1] == c then |s| - 1
    else LastIndexOfChar(s[..|s| - 1], c)
  }

  /** posixpath.basename(p): the text after the last '/'. */
  function Basename(p: string): (r: string)
    ensures '/' !in r
    ensures EndsWith(p, r)
  {
    p[LastIndexOfChar(p, '/') + 1..]
  }

  /** posixpath.splitext(p)[0] for a name without '/': drops the last extension unless the name is all dots before it. */
  function SplitextRoot(p: string): (r: string)
    ensures r <= p
  {
    var d := LastIndexOfChar(p, '.');
    if d > 0 && exists j :: 0 <= j < d && p[j] != '.' then p[..d] else p
  }

  /** os.path.splitext(os.path.basename(p))[0] */
  function Stem(p: string): string {
    SplitextRoot(Basename(p))
  }
}
