/**
 * The text utilities of the Panelcode formatter (panelcode/format.py):
 * the line decommenter, blank-line removal, whitespace removal, token
 * padding, column alignment of a delimiter and the choice of formatting
 * style. Texts are split into lines on '\n' and joined back with it.
 */
module Format {
  import opened Wrappers
  import opened Text

  /** A delimiter argument: one string, or a list of them (the source checks `isinstance(delims, basestring)`). */
  datatype Delims = Delim(d: string) | DelimList(ds: seq<string>)

  /** A string delimiter is a one-element list. */
  function DelimSeq(delims: Delims): seq<string> {
    match delims
    case Delim(d) => [d]
    case DelimList(ds) => ds
  }

  /** `if not delims: delims = ['#', '//']`: a missing, empty-string or empty-list argument means the defaults. */
  function DecommentDelims(delims: Option<Delims>): seq<string> {
    match delims
    case None => ["#", "//"]
    case Some(Delim(d)) => if d == "" then ["#", "//"] else [d]
    case Some(DelimList(ds)) => if ds == [] then ["#", "//"] else ds
  }

  /** A line after the delimiters, in order, have each cut it at their first occurrence. */
  function StripDelims(line: string, ds: seq<string>): string
    decreases |ds|
  {
    if |ds| == 0 then line else Before(StripDelims(line, ds[..|ds| - 1]), ds[|ds| - 1])
  }

  function StripAll(lines: seq<string>, ds: seq<string>): (r: seq<string>)
    ensures |r| == |lines|
  {
    seq(|lines|, i requires 0 <= i < |lines| => StripDelims(lines[i], ds))
  }

  /** decomment(string, delims): delim_strip with the delimiters or their defaults. */
  function Decommented(s: string, delims: Option<Delims>): string {
    Unlines(StripAll(Lines(s), DecommentDelims(delims)))
  }

  /** delim_strip: every line of the text is cut at each delimiter in turn. */
  method DelimStrip(s: string, delims: seq<string>) returns (r: string)
    ensures r == Unlines(StripAll(Lines(s), delims))
  {
    var lines := Lines(s);
    ghost var orig := lines;
    var idx := 0;
    while idx < |lines|
      invariant 0 <= idx <= |lines| == |orig|
      invariant forall k :: 0 <= k < idx ==> lines[k] == StripDelims(orig[k], delims)
      invariant forall k :: idx <= k < |lines| ==> lines[k] == orig[k]
    {
      var line := lines[idx];
      ghost var before := lines;
      var j := 0;
      while j < |delims|
        invariant 0 <= j <= |delims|
        invariant line == StripDelims(orig[idx], delims[..j])
        invariant lines == before[idx := line]
      {
        assert delims[..j + 1][..j] == delims[..j];
        var delim := delims[j];
        if Contains(line, delim) {
          line := line[..Find(line, delim)];
          lines := lines[idx := line];
        }
        j := j + 1;
      }
      assert delims[..|delims|] == delims;
      idx := idx + 1;
    }
    assert lines == StripAll(orig, delims);
    r := Unlines(lines);
  }

  /** decomment: delim_strip after the defaulting of the delimiters. */
  method Decomment(s: string, delims: Option<Delims>) returns (r: string)
    ensures r == Decommented(s, delims)
  {
    var ds := DecommentDelims(delims);
    r := DelimStrip(s, ds);
  }

  /** A prefix of a text cannot contain what the text does not. */
  lemma {:induction false} PrefixKeepsAbsence(a: string, b: string, sub: string)
    requires a <= b && !Contains(b, sub)
    ensures !Contains(a, sub)
  {
    if Contains(a, sub) {
      assert b[0..|a|] == a;
      ContainsInfix(b, 0, |a|, sub);
    }
  }

  /** Each cut line is a prefix of its line and holds none of the non-empty delimiters. */
  lemma {:induction false} StripDelimsClean(line: string, ds: seq<string>)
    ensures StripDelims(line, ds) <= line
    ensures forall j :: 0 <= j < |ds| && |ds[j]| > 0 ==> !Contains(StripDelims(line, ds), ds[j])
    decreases |ds|
  {
    if |ds| > 0 {
      var init := ds[..|ds| - 1];
      var prev := StripDelims(line, init);
      StripDelimsClean(line, init);
      var r := StripDelims(line, ds);
      assert r == Before(prev, ds[|ds| - 1]);
      forall j | 0 <= j < |ds| - 1 && |ds[j]| > 0
        ensures !Contains(r, ds[j])
      {
        assert ds[j] == init[j];
        PrefixKeepsAbsence(r, prev, ds[j]);
      }
    }
  }

  /**
   * decomment keeps the number of lines, and each line of the result is a
   * prefix of the line it came from holding none of the non-empty
   * delimiters.
   */
  lemma {:induction false} DecommentLines(s: string, delims: Option<Delims>)
    ensures |Lines(Decommented(s, delims))| == |Lines(s)|
    ensures forall i :: 0 <= i < |Lines(s)| ==>
      Lines(Decommented(s, delims))[i] <= Lines(s)[i] &&
      forall j :: 0 <= j < |DecommentDelims(delims)| && |DecommentDelims(delims)[j]| > 0 ==>
        !Contains(Lines(Decommented(s, delims))[i], DecommentDelims(delims)[j])
  {
    var lines := Lines(s);
    var ds := DecommentDelims(delims);
    var out := StripAll(lines, ds);
    forall k | 0 <= k < |out| ensures '\n' !in out[k] && out[k] <= lines[k] {
      StripDelimsClean(lines[k], ds);
      assert '\n' !in lines[k];
    }
    SplitOnJoin(out, '\n');
    assert Lines(Decommented(s, delims)) == out;
    forall i | 0 <= i < |lines| ensures
      forall j :: 0 <= j < |ds| && |ds[j]| > 0 ==> !Contains(out[i], ds[j])
    {
      StripDelimsClean(lines[i], ds);
    }
  }

  /** With the default delimiters no line of the result holds a `#` or a `//`. */
  lemma {:induction false} DecommentDefault(s: string, i: nat)
    requires i < |Lines(s)|
    ensures i < |Lines(Decommented(s, None))|
    ensures !Contains(Lines(Decommented(s, None))[i], "#") && !Contains(Lines(Decommented(s, None))[i], "//")
  {
    DecommentLines(s, None);
    assert DecommentDelims(None)[0] == "#" && DecommentDelims(None)[1] == "//";
  }

  // ---------------------------------------------------------------- tight_lines

  /** The lines that are not empty after strip, in order. */
  function NonBlank(lines: seq<string>): (r: seq<string>)
    ensures |r| <= |lines|
    ensures forall k :: 0 <= k < |r| ==> Strip(r[k]) != "" && r[k] in lines
  {
    if |lines| == 0 then []
    else (if Strip(lines[0]) != "" then [lines[0]] else []) + NonBlank(lines[1..])
  }

  /** tight_lines: the text without its blank lines. */
  function TightLines(s: string): string {
    Unlines(NonBlank(Lines(s)))
  }

  /** Every non-blank line is kept. */
  lemma {:induction false} NonBlankKeeps(lines: seq<string>, k: nat)
    requires k < |lines| && Strip(lines[k]) != ""
    ensures lines[k] in NonBlank(lines)
  {
    if k > 0 {
      NonBlankKeeps(lines[1..], k - 1);
    }
  }

  lemma {:induction false} NonBlankIdempotent(lines: seq<string>)
    requires forall k :: 0 <= k < |lines| ==> Strip(lines[k]) != ""
    ensures NonBlank(lines) == lines
  {
    if |lines| > 0 {
      NonBlankIdempotent(lines[1..]);
    }
  }

  /**
   * The lines of tight_lines are the non-blank lines of the text, in order;
   * when there is none, the result is the empty text.
   */
  lemma {:induction false} TightLinesShape(s: string)
    ensures NonBlank(Lines(s)) == [] ==> TightLines(s) == ""
    ensures NonBlank(Lines(s)) != [] ==> Lines(TightLines(s)) == NonBlank(Lines(s))
    ensures TightLines(s) == "" || forall k :: 0 <= k < |Lines(TightLines(s))| ==> Strip(Lines(TightLines(s))[k]) != ""
  {
    var nb := NonBlank(Lines(s));
    if nb != [] {
      forall k | 0 <= k < |nb| ensures '\n' !in nb[k] {
        var j :| 0 <= j < |Lines(s)| && Lines(s)[j] == nb[k];
      }
      SplitOnJoin(nb, '\n');
    }
  }

  /** Removing blank lines twice is removing them once. */
  lemma {:induction false} TightLinesIdempotent(s: string)
    ensures TightLines(TightLines(s)) == TightLines(s)
  {
    TightLinesShape(s);
    var nb := NonBlank(Lines(s));
    if nb == [] {
      assert Lines("") == [""];
      assert Strip("") == "";
      assert NonBlank([""]) == [];
    } else {
      NonBlankIdempotent(nb);
    }
  }

  // ---------------------------------------------------------------- remove_space

  /** re.sub(r'\s+', new, string), with `new` as `repl`: every maximal run of whitespace becomes `repl`. */
  function RemoveSpace(s: string, repl: string): string
    decreases |s|
  {
    if |s| == 0 then ""
    else if IsSpace(s[0]) then repl + RemoveSpace(s[SpaceRunEnd(s, 0)..], repl)
    else [s[0]] + RemoveSpace(s[1..], repl)
  }

  /** The characters of a text that are not whitespace, in order. */
  function NonSpace(s: string): (r: string)
    ensures forall k :: 0 <= k < |r| ==> !IsSpace(r[k])
  {
    if |s| == 0 then "" else (if IsSpace(s[0]) then "" else [s[0]]) + NonSpace(s[1..])
  }

  lemma {:induction false} NonSpaceAppend(a: string, b: string)
    ensures NonSpace(a + b) == NonSpace(a) + NonSpace(b)
  {
    if |a| > 0 {
      assert (a + b)[1..] == a[1..] + b;
      NonSpaceAppend(a[1..], b);
    } else {
      assert a + b == b;
    }
  }

  lemma {:induction false} NonSpaceOfSpace(s: string)
    requires AllSpace(s)
    ensures NonSpace(s) == ""
  {
    if |s| > 0 {
      NonSpaceOfSpace(s[1..]);
    }
  }

  /** remove_space with the default `new=''` keeps exactly the non-whitespace characters, in order. */
  lemma {:induction false} RemoveSpaceFilter(s: string)
    ensures RemoveSpace(s, "") == NonSpace(s)
    decreases |s|
  {
    if |s| > 0 {
      if IsSpace(s[0]) {
        var k := SpaceRunEnd(s, 0);
        assert s == s[..k] + s[k..];
        NonSpaceAppend(s[..k], s[k..]);
        NonSpaceOfSpace(s[..k]);
        RemoveSpaceFilter(s[k..]);
      } else {
        RemoveSpaceFilter(s[1..]);
      }
    }
  }

  /** With a replacement free of whitespace, no whitespace is left. */
  lemma {:induction false} RemoveSpaceNoSpace(s: string, repl: string)
    requires forall k :: 0 <= k < |repl| ==> !IsSpace(repl[k])
    ensures forall k :: 0 <= k < |RemoveSpace(s, repl)| ==> !IsSpace(RemoveSpace(s, repl)[k])
    decreases |s|
  {
    if |s| > 0 {
      if IsSpace(s[0]) {
        RemoveSpaceNoSpace(s[SpaceRunEnd(s, 0)..], repl);
      } else {
        RemoveSpaceNoSpace(s[1..], repl);
      }
    }
  }

  // ---------------------------------------------------------------- wrap

  /** The `toks` argument of wrap: one string, or a list of tokens. */
  datatype Toks = TokStr(t: string) | TokList(ts: seq<string>)

  /** The `wrapper` argument: one string for both sides, or a list whose first two items are the sides. */
  datatype Wrapper = WrapStr(w: string) | WrapList(ws: seq<string>)

  /** The two sides; a list shorter than two cannot be unpacked (ValueError). */
  function WrapSides(wrapper: Wrapper): Option<(string, string)> {
    match wrapper
    case WrapStr(w) => Some((w, w))
    case WrapList(ws) => if |ws| >= 2 then Some((ws[0], ws[1])) else None
  }

  /** `for tok in toks`: a list is its tokens, a string its one-character substrings. */
  function TokSeq(toks: Toks): (r: seq<string>)
    ensures toks.TokStr? ==> |r| == |toks.t| && forall k :: 0 <= k < |r| ==> r[k] == [toks.t[k]]
  {
    match toks
    case TokStr(t) => seq(|t|, k requires 0 <= k < |t| => [t[k]])
    case TokList(ts) => ts
  }

  /** One round of the loop: every occurrence of a present token is padded. */
  function Pad(s: string, tok: string, left: string, right: string): string {
    if Contains(s, tok) then Replace(s, tok, left + tok + right) else s
  }

  function PadAll(s: string, toks: seq<string>, left: string, right: string): string
    decreases |toks|
  {
    if |toks| == 0 then s else Pad(PadAll(s, toks[..|toks| - 1], left, right), toks[|toks| - 1], left, right)
  }

  /** wrap(string, toks, wrapper), as written: a string `toks` is replaced once before the loop runs over its characters. */
  function Wrapped(s: string, toks: Toks, wrapper: Wrapper): Option<string> {
    match WrapSides(wrapper)
    case None => None
    case Some(sides) =>
      var start := if toks.TokStr? then Replace(s, toks.t, sides.0 + toks.t + sides.1) else s;
      Some(PadAll(start, TokSeq(toks), sides.0, sides.1))
  }

  /** wrap with the correction below: a string `toks` is the one token it names. */
  method Wrap(s: string, toks: Toks, wrapper: Wrapper) returns (r: Option<string>)
    ensures r == WrappedOnce(s, toks, wrapper)
  {
    var left, right;
    match wrapper {
      case WrapStr(w) => left, right := w, w;
      case WrapList(ws) =>
        if |ws| < 2 { return None; }
        left, right := ws[0], ws[1];
    }
    var str := s;
    var ts := if toks.TokStr? then [toks.t] else toks.ts;
    var i := 0;
    while i < |ts|
      invariant 0 <= i <= |ts|
      invariant str == PadAll(s, ts[..i], left, right)
    {
      assert ts[..i + 1][..i] == ts[..i];
      var tok := ts[i];
      if Contains(str, tok) {
        str := Replace(str, tok, left + tok + right);
      }
      i := i + 1;
    }
    assert ts[..|ts|] == ts;
    r := Some(str);
  }

  /** Replacing a pattern that does not occur changes nothing. */
  lemma {:induction false} ReplaceAbsent(s: string, pat: string, repl: string)
    requires !Contains(s, pat)
    ensures Replace(s, pat, repl) == s
    decreases |s|
  {
    if |pat| == 0 {
      assert OccursAt(s, pat, 0);
    } else if |s| >= |pat| {
      assert !OccursAt(s, pat, 0);
      assert s[1..|s|] == s[1..];
      if Contains(s[1..], pat) {
        ContainsInfix(s, 1, |s|, pat);
      }
      ReplaceAbsent(s[1..], pat, repl);
    }
  }

  lemma {:induction false} PadAllAbsent(s: string, toks: seq<string>, left: string, right: string)
    requires forall k :: 0 <= k < |toks| ==> !Contains(s, toks[k])
    ensures PadAll(s, toks, left, right) == s
    decreases |toks|
  {
    if |toks| > 0 {
      PadAllAbsent(s, toks[..|toks| - 1], left, right);
    }
  }

  /** If no token occurs, wrap leaves the text as it is. */
  lemma {:induction false} WrapAbsent(s: string, toks: Toks, wrapper: Wrapper)
    requires WrapSides(wrapper).Some?
    requires toks.TokStr? ==> !Contains(s, toks.t)
    requires forall k :: 0 <= k < |TokSeq(toks)| ==> !Contains(s, TokSeq(toks)[k])
    ensures Wrapped(s, toks, wrapper) == Some(s)
  {
    var sides := WrapSides(wrapper).value;
    if toks.TokStr? {
      ReplaceAbsent(s, toks.t, sides.0 + toks.t + sides.1);
    }
    PadAllAbsent(s, TokSeq(toks), sides.0, sides.1);
  }

  /** The pieces between the occurrences of `pat` that Replace finds, scanning left to right. */
  function SplitStr(s: string, pat: string): (r: seq<string>)
    requires |pat| > 0
    ensures |r| >= 1 && r[0] <= s
    decreases |s|
  {
    if |s| < |pat| then [s]
    else if s[..|pat|] == pat then [""] + SplitStr(s[|pat|..], pat)
    else
      var rest := SplitStr(s[1..], pat);
      [[s[0]] + rest[0]] + rest[1..]
  }

  /** An empty first piece puts a separator at the front. */
  lemma {:induction false} JoinEmptyHead(sep: string, rest: seq<string>)
    requires |rest| > 0
    ensures Join(sep, [""] + rest) == sep + Join(sep, rest)
  {
    var ps := [""] + rest;
    assert ps[0] == "" && ps[1..] == rest;
    assert "" + sep == sep;
  }

  /** Text put before the first piece comes before the whole join. */
  lemma {:induction false} JoinConsHead(sep: string, c: string, rest: seq<string>)
    requires |rest| > 0
    ensures Join(sep, [c + rest[0]] + rest[1..]) == c + Join(sep, rest)
  {
    var ps := [c + rest[0]] + rest[1..];
    assert ps[0] == c + rest[0] && ps[1..] == rest[1..];
    if |rest| > 1 {
      assert Join(sep, rest) == rest[0] + sep + Join(sep, rest[1..]);
      assert (c + rest[0]) + sep + Join(sep, rest[1..]) == c + (rest[0] + sep + Join(sep, rest[1..]));
    }
  }

  /** Replace puts `repl` exactly where the pieces were separated. */
  lemma {:induction false} ReplaceSplit(s: string, pat: string, repl: string)
    requires |pat| > 0
    ensures Replace(s, pat, repl) == Join(repl, SplitStr(s, pat))
    decreases |s|
  {
    if |s| >= |pat| {
      if s[..|pat|] == pat {
        ReplaceSplit(s[|pat|..], pat, repl);
        JoinEmptyHead(repl, SplitStr(s[|pat|..], pat));
      } else {
        ReplaceSplit(s[1..], pat, repl);
        JoinConsHead(repl, [s[0]], SplitStr(s[1..], pat));
      }
    }
  }

  /** Joining the pieces with the pattern itself restores the text. */
  lemma {:induction false} SplitStrJoin(s: string, pat: string)
    requires |pat| > 0
    ensures Join(pat, SplitStr(s, pat)) == s
    decreases |s|
  {
    if |s| >= |pat| {
      if s[..|pat|] == pat {
        SplitStrJoin(s[|pat|..], pat);
        JoinEmptyHead(pat, SplitStr(s[|pat|..], pat));
        assert s == pat + s[|pat|..];
      } else {
        SplitStrJoin(s[1..], pat);
        JoinConsHead(pat, [s[0]], SplitStr(s[1..], pat));
        assert s == [s[0]] + s[1..];
      }
    }
  }

  /** No piece holds the pattern: every occurrence was a separation point. */
  lemma {:induction false} SplitStrPieces(s: string, pat: string, k: nat)
    requires |pat| > 0 && k < |SplitStr(s, pat)|
    ensures !Contains(SplitStr(s, pat)[k], pat)
    decreases |s|
  {
    var r := SplitStr(s, pat);
    if |s| < |pat| {
    } else if s[..|pat|] == pat {
      if k > 0 {
        SplitStrPieces(s[|pat|..], pat, k - 1);
      }
    } else {
      var rest := SplitStr(s[1..], pat);
      if k > 0 {
        assert r[k] == rest[k];
        SplitStrPieces(s[1..], pat, k);
      } else {
        SplitStrPieces(s[1..], pat, 0);
        var p := r[0];
        assert p == [s[0]] + rest[0];
        if Contains(p, pat) {
          var i: nat :| i <= |p| && OccursAt(p, pat, i);
          if i == 0 {
            assert false;
          } else {
            assert p[i..i + |pat|] == rest[0][i - 1..i - 1 + |pat|];
            assert OccursAt(rest[0], pat, i - 1);
            assert false;
          }
        }
      }
    }
  }

  /**
   * A single listed token: the text is the pieces joined by the token, the
   * result the same pieces joined by the padded token, and no piece holds
   * the token, so every occurrence is padded.
   */
  lemma {:induction false} WrapOneToken(s: string, tok: string, wrapper: Wrapper)
    requires |tok| > 0 && WrapSides(wrapper).Some?
    ensures var sides := WrapSides(wrapper).value;
      Wrapped(s, TokList([tok]), wrapper) == Some(Join(sides.0 + tok + sides.1, SplitStr(s, tok))) &&
      s == Join(tok, SplitStr(s, tok)) &&
      forall k :: 0 <= k < |SplitStr(s, tok)| ==> !Contains(SplitStr(s, tok)[k], tok)
  {
    var sides := WrapSides(wrapper).value;
    var x := sides.0 + tok + sides.1;
    assert [tok][..0] == [];
    assert PadAll(s, [tok], sides.0, sides.1) == Pad(s, tok, sides.0, sides.1);
    if !Contains(s, tok) {
      ReplaceAbsent(s, tok, x);
    }
    ReplaceSplit(s, tok, x);
    SplitStrJoin(s, tok);
    forall k | 0 <= k < |SplitStr(s, tok)| ensures !Contains(SplitStr(s, tok)[k], tok) {
      SplitStrPieces(s, tok, k);
    }
  }

  lemma {:induction false} ReplaceAtAlone()
    ensures Replace("@", "@", " @ ") == " @ "
  {
    assert "@"[..1] == "@" && "@"[1..] == "";
  }

  lemma {:induction false} ReplaceSpace()
    ensures Replace(" ", "@", " @ ") == " "
  {
    assert " "[..1] == " " && " "[1..] == "";
  }

  lemma {:induction false} ReplaceAtSpace()
    ensures Replace("@ ", "@", " @ ") == " @  "
  {
    ReplaceSpace();
    assert "@ "[..1] == "@" && "@ "[1..] == " ";
  }

  lemma {:induction false} ReplaceSpacedAt()
    ensures Replace(" @ ", "@", " @ ") == "  @  "
  {
    ReplaceAtSpace();
    var t := " @ ";
    assert t[..1] == " " && t[1..] == "@ ";
  }

  /**
   * As written, a one-character string token is padded twice: once by the
   * replace before the loop and once more by the loop over its characters.
   */
  lemma {:induction false} WrapStringTwice()
    ensures Wrapped("@", TokStr("@"), WrapStr(" ")) == Some("  @  ")
    ensures Wrapped("@", TokList(["@"]), WrapStr(" ")) == Some(" @ ")
  {
    assert TokSeq(TokStr("@")) == ["@"];
    assert ["@"][..0] == [];
    var t := " @ ";
    ReplaceAtAlone();
    ReplaceSpacedAt();
    assert OccursAt(t, "@", 1);
    assert OccursAt("@", "@", 0);
    assert " " + "@" + " " == t;
    assert Contains(t, "@") && Contains("@", "@");
    assert PadAll(t, ["@"], " ", " ") == Pad(t, "@", " ", " ") == "  @  ";
    assert PadAll("@", ["@"], " ", " ") == Pad("@", "@", " ", " ") == t;
  }

  /** Corrected wrap: a string `toks` is one token, padded once, as the other helpers of the module treat a string argument. */
  function WrappedOnce(s: string, toks: Toks, wrapper: Wrapper): Option<string> {
    match WrapSides(wrapper)
    case None => None
    case Some(sides) => Some(PadAll(s, if toks.TokStr? then [toks.t] else toks.ts, sides.0, sides.1))
  }

  /** With the correction a string token is padded exactly where it occurs, like a one-element list. */
  lemma {:induction false} WrapOnceString(s: string, tok: string, wrapper: Wrapper)
    requires |tok| > 0 && WrapSides(wrapper).Some?
    ensures var sides := WrapSides(wrapper).value;
      WrappedOnce(s, TokStr(tok), wrapper) == WrappedOnce(s, TokList([tok]), wrapper) == Wrapped(s, TokList([tok]), wrapper) &&
      WrappedOnce(s, TokStr(tok), wrapper) == Some(Join(sides.0 + tok + sides.1, SplitStr(s, tok)))
  {
    WrapOneToken(s, tok, wrapper);
  }

  // ---------------------------------------------------------------- align

  /** The `dist` argument of align: 'auto', or a column. */
  datatype Dist = Auto | Column(n: int)

  /** A Python slice bound: a negative one counts from the end, and both are clamped to the text. */
  function PyIndex(i: int, n: nat): (r: nat)
    ensures r <= n
  {
    if i < 0 then (if i + n < 0 then 0 else i + n) else if i > n then n else i
  }

  /** s[a:b] */
  function PySlice(s: string, a: int, b: int): string {
    var i, j := PyIndex(a, |s|), PyIndex(b, |s|);
    if i < j then s[i..j] else ""
  }

  function Spaces(n: nat): (r: string)
    ensures |r| == n && AllSpace(r)
  {
    seq(n, _ => ' ')
  }

  /**
   * align_line as written, for a line that holds the delimiter: a line with
   * nothing but whitespace before it is skipped under `skipFull`; a
   * delimiter left of the column is pushed right with spaces; one right of
   * it has a whitespace gap from column dist - 1 collapsed to one space.
   * For dist <= 0 the two slices at dist - 1 count from the end of the line.
   */
  function AlignLineAsWritten(line: string, delim: string, dist: int, skipFull: bool): string
    requires Contains(line, delim)
  {
    var pos := Find(line, delim);
    if Strip(line[..pos]) == "" && skipFull then line
    else if pos < dist then line[..pos] + Spaces(dist - pos) + line[pos..]
    else if pos > dist && Strip(PySlice(line, dist - 1, pos)) == "" then PySlice(line, 0, dist - 1) + " " + line[pos..]
    else line
  }

  lemma {:induction false} HashFound()
    ensures Contains("ab#c", "#") && Find("ab#c", "#") == 2
  {
    var line := "ab#c";
    assert line[2..3] == "#" && OccursAt(line, "#", 2);
    assert line[0..1][0] == 'a' && line[1..2][0] == 'b';
    assert !OccursAt(line, "#", 0) && !OccursAt(line, "#", 1);
    var r := Find(line, "#");
    assert r >= 0;
    assert r != 0 && r != 1;
  }

  lemma {:induction false} HashSlices()
    ensures "ab#c"[..2] == "ab" && Strip("ab") == "ab" && "ab#c"[2..] == "#c"
    ensures PySlice("ab#c", -1, 2) == "" && Strip("") == "" && PySlice("ab#c", 0, -1) == "ab#"
  {
  }

  lemma {:induction false} HashNonSpace()
    ensures NonSpace("ab# #c") == "ab##c" && NonSpace("ab#c") == "ab#c"
  {
  }

  /** A column left of the first one cannot hold a space before the delimiter, so such a line is left alone. */
  lemma {:induction false} AlignColumnZero()
    ensures Contains("ab#c", "#")
    ensures AlignLineAsWritten("ab#c", "#", 0, true) == "ab# #c"
    ensures NonSpace(AlignLineAsWritten("ab#c", "#", 0, true)) != NonSpace("ab#c")
  {
    HashFound();
    HashSlices();
    HashNonSpace();
    assert "ab#" + " " + "#c" == "ab# #c";
  }

  /** Corrected align_line: the gap is collapsed only for a column of at least one. */
  function AlignLine(line: string, delim: string, dist: int, skipFull: bool): (r: string)
    requires Contains(line, delim)
  {
    var pos := Find(line, delim);
    if Strip(line[..pos]) == "" && skipFull then line
    else if pos < dist then line[..pos] + Spaces(dist - pos) + line[pos..]
    else if dist >= 1 && pos > dist && Strip(line[dist - 1..pos]) == "" then line[..dist - 1] + " " + line[pos..]
    else line
  }

  /** For every column of at least one, the correction agrees with the code as written. */
  lemma {:induction false} AlignLineAgrees(line: string, delim: string, dist: int, skipFull: bool)
    requires Contains(line, delim) && dist >= 1
    ensures AlignLine(line, delim, dist, skipFull) == AlignLineAsWritten(line, delim, dist, skipFull)
  {
    var pos := Find(line, delim);
    if pos > dist {
      assert PySlice(line, dist - 1, pos) == line[dist - 1..pos];
      assert PySlice(line, 0, dist - 1) == line[..dist - 1];
    }
  }

  /** A line with only whitespace before the delimiter is untouched under `skipFull`. */
  lemma {:induction false} AlignLineSkip(line: string, delim: string, dist: int)
    requires Contains(line, delim) && AllSpace(line[..Find(line, delim)])
    ensures AlignLine(line, delim, dist, true) == line
  {
  }

  /** The delimiter ends up at column `dist` whenever the line is changed: pushed right, or pulled left over whitespace. */
  lemma {:induction false} AlignLineColumn(line: string, delim: string, dist: int, skipFull: bool)
    requires Contains(line, delim)
    requires AlignLine(line, delim, dist, skipFull) != line
    ensures dist >= 0 && OccursAt(AlignLine(line, delim, dist, skipFull), delim, dist)
  {
    var pos := Find(line, delim);
    var r := AlignLine(line, delim, dist, skipFull);
    if pos < dist {
      assert r[dist..dist + |delim|] == line[pos..pos + |delim|];
    } else {
      assert r == line[..dist - 1] + " " + line[pos..];
      assert r[dist..dist + |delim|] == line[pos..pos + |delim|];
    }
  }

  /** Alignment only ever inserts or removes whitespace. */
  lemma {:induction false} AlignLineOnlySpace(line: string, delim: string, dist: int, skipFull: bool)
    requires Contains(line, delim)
    ensures NonSpace(AlignLine(line, delim, dist, skipFull)) == NonSpace(line)
  {
    var pos := Find(line, delim);
    var r := AlignLine(line, delim, dist, skipFull);
    if r != line {
      if pos < dist {
        NonSpaceAppend(line[..pos] + Spaces(dist - pos), line[pos..]);
        NonSpaceAppend(line[..pos], Spaces(dist - pos));
        NonSpaceOfSpace(Spaces(dist - pos));
        NonSpaceAppend(line[..pos], line[pos..]);
        assert line == line[..pos] + line[pos..];
      } else {
        var gap := line[dist - 1..pos];
        assert AllSpace(gap);
        NonSpaceAppend(line[..dist - 1] + " ", line[pos..]);
        NonSpaceAppend(line[..dist - 1], " ");
        NonSpaceOfSpace(" ");
        NonSpaceOfSpace(gap);
        assert line == line[..dist - 1] + gap + line[pos..];
        NonSpaceAppend(line[..dist - 1] + gap, line[pos..]);
        NonSpaceAppend(line[..dist - 1], gap);
      }
    }
  }

  /** Aligned lines never gain a line break. */
  lemma {:induction false} AlignLineNoBreak(line: string, delim: string, dist: int, skipFull: bool)
    requires Contains(line, delim) && '\n' !in line
    ensures '\n' !in AlignLine(line, delim, dist, skipFull)
  {
    var pos := Find(line, delim);
    if pos < dist {
      assert '\n' !in line[..pos] && '\n' !in line[pos..];
    } else if dist >= 1 && pos > dist {
      assert '\n' !in line[..dist - 1] && '\n' !in line[pos..];
    }
  }

  /** One line in one pass of align: aligned when it holds the delimiter. */
  function AlignOne(line: string, delim: string, dist: int, skipFull: bool): string {
    if Contains(line, delim) then AlignLine(line, delim, dist, skipFull) else line
  }

  function AlignPass(lines: seq<string>, delim: string, dist: int, skipFull: bool): (r: seq<string>)
    ensures |r| == |lines|
  {
    seq(|lines|, i requires 0 <= i < |lines| => AlignOne(lines[i], delim, dist, skipFull))
  }

  /** One pass per delimiter, in order. */
  function AlignAll(lines: seq<string>, ds: seq<string>, dist: int, skipFull: bool): (r: seq<string>)
    ensures |r| == |lines|
    decreases |ds|
  {
    if |ds| == 0 then lines else AlignPass(AlignAll(lines, ds[..|ds| - 1], dist, skipFull), ds[|ds| - 1], dist, skipFull)
  }

  function Min(a: int, b: int): int { if a < b then a else b }
  function Max(a: int, b: int): int { if a < b then b else a }

  /** The earliest position of any of the delimiters in the line, or its length. */
  function FirstPos(line: string, ds: seq<string>): (r: int)
    ensures r <= |line|
    decreases |ds|
  {
    if |ds| == 0 then |line|
    else
      var p := FirstPos(line, ds[..|ds| - 1]);
      if Contains(line, ds[|ds| - 1]) then Min(p, Find(line, ds[|ds| - 1])) else p
  }

  /** The column a line asks for: one past the stripped text of line[:pos - 1]. */
  function LineDist(line: string, ds: seq<string>): int {
    1 + |Strip(PySlice(line, 0, FirstPos(line, ds) - 1))|
  }

  function MaxDist(lines: seq<string>, ds: seq<string>): int
    decreases |lines|
  {
    if |lines| == 0 then 0 else Max(MaxDist(lines[..|lines| - 1], ds), LineDist(lines[|lines| - 1], ds))
  }

  /** dist='auto': the largest column any line asks for, capped at `autoMax`. */
  function AutoDist(lines: seq<string>, ds: seq<string>, autoMax: int): int {
    Min(MaxDist(lines, ds), autoMax)
  }

  function DistOf(dist: Dist, lines: seq<string>, ds: seq<string>, autoMax: int): int {
    match dist
    case Auto => AutoDist(lines, ds, autoMax)
    case Column(n) => n
  }

  /** align(string, delims, dist, auto_max, skip_full) */
  function Aligned(s: string, delims: Delims, dist: Dist, autoMax: int, skipFull: bool): string {
    var ds := DelimSeq(delims);
    Unlines(AlignAll(Lines(s), ds, DistOf(dist, Lines(s), ds, autoMax), skipFull))
  }

  /** The automatic column: the outer loop over lines, the inner one over delimiters. */
  method ComputeAutoDist(lines: seq<string>, ds: seq<string>, autoMax: int) returns (dist: int)
    ensures dist == AutoDist(lines, ds, autoMax)
  {
    dist := 0;
    var k := 0;
    while k < |lines|
      invariant 0 <= k <= |lines|
      invariant dist == MaxDist(lines[..k], ds)
    {
      var line := lines[k];
      var pos := |line|;
      var j := 0;
      while j < |ds|
        invariant 0 <= j <= |ds|
        invariant pos == FirstPos(line, ds[..j])
      {
        assert ds[..j + 1][..j] == ds[..j];
        var delim := ds[j];
        if Contains(line, delim) {
          pos := Min(pos, Find(line, delim));
        }
        j := j + 1;
      }
      assert ds[..|ds|] == ds;
      assert lines[..k + 1][..k] == lines[..k];
      dist := Max(dist, 1 + |Strip(PySlice(line, 0, pos - 1))|);
      k := k + 1;
    }
    assert lines[..|lines|] == lines;
    dist := Min(dist, autoMax);
  }

  /** One pass of the delimiter loop over the lines, in place. */
  method AlignLines(lines: seq<string>, delim: string, dist: int, skipFull: bool) returns (out: seq<string>)
    ensures out == AlignPass(lines, delim, dist, skipFull)
  {
    out := lines;
    var idx := 0;
    while idx < |out|
      invariant 0 <= idx <= |out| == |lines|
      invariant forall k :: 0 <= k < idx ==> out[k] == AlignOne(lines[k], delim, dist, skipFull)
      invariant forall k :: idx <= k < |out| ==> out[k] == lines[k]
    {
      var line := out[idx];
      if Contains(line, delim) {
        out := out[idx := AlignLine(line, delim, dist, skipFull)];
      }
      idx := idx + 1;
    }
  }

  method Align(s: string, delims: Delims, dist: Dist, autoMax: int, skipFull: bool) returns (r: string)
    ensures r == Aligned(s, delims, dist, autoMax, skipFull)
  {
    var ds := DelimSeq(delims);
    var lines := Lines(s);
    ghost var orig := lines;
    var column;
    match dist {
      case Auto => column := ComputeAutoDist(lines, ds, autoMax);
      case Column(n) => column := n;
    }
    var j := 0;
    while j < |ds|
      invariant 0 <= j <= |ds|
      invariant lines == AlignAll(orig, ds[..j], column, skipFull)
    {
      assert ds[..j + 1][..j] == ds[..j];
      lines := AlignLines(lines, ds[j], column, skipFull);
      j := j + 1;
    }
    assert ds[..|ds|] == ds;
    r := Unlines(lines);
  }

  /** The automatic column never exceeds `autoMax` and is at least every line's own column, so capped. */
  lemma {:induction false} AutoDistBounds(lines: seq<string>, ds: seq<string>, autoMax: int, i: nat)
    requires i < |lines|
    ensures AutoDist(lines, ds, autoMax) <= autoMax
    ensures Min(LineDist(lines[i], ds), autoMax) <= AutoDist(lines, ds, autoMax)
  {
    MaxDistAbove(lines, ds, i);
  }

  lemma {:induction false} MaxDistAbove(lines: seq<string>, ds: seq<string>, i: nat)
    requires i < |lines|
    ensures LineDist(lines[i], ds) <= MaxDist(lines, ds)
    decreases |lines|
  {
    if i < |lines| - 1 {
      MaxDistAbove(lines[..|lines| - 1], ds, i);
    }
  }

  /** Lines holding none of the delimiters come through every pass unchanged. */
  lemma {:induction false} AlignAllUntouched(lines: seq<string>, ds: seq<string>, dist: int, skipFull: bool, i: nat)
    requires i < |lines|
    requires forall j :: 0 <= j < |ds| ==> !Contains(lines[i], ds[j])
    ensures AlignAll(lines, ds, dist, skipFull)[i] == lines[i]
    decreases |ds|
  {
    if |ds| > 0 {
      AlignAllUntouched(lines, ds[..|ds| - 1], dist, skipFull, i);
    }
  }

  /** Every pass keeps each line's text apart from whitespace, and adds no line break. */
  lemma {:induction false} AlignAllOnlySpace(lines: seq<string>, ds: seq<string>, dist: int, skipFull: bool, i: nat)
    requires i < |lines|
    ensures NonSpace(AlignAll(lines, ds, dist, skipFull)[i]) == NonSpace(lines[i])
    ensures '\n' !in lines[i] ==> '\n' !in AlignAll(lines, ds, dist, skipFull)[i]
    decreases |ds|
  {
    if |ds| > 0 {
      var prev := AlignAll(lines, ds[..|ds| - 1], dist, skipFull);
      AlignAllOnlySpace(lines, ds[..|ds| - 1], dist, skipFull, i);
      var d := ds[|ds| - 1];
      if Contains(prev[i], d) {
        AlignLineOnlySpace(prev[i], d, dist, skipFull);
        if '\n' !in lines[i] {
          AlignLineNoBreak(prev[i], d, dist, skipFull);
        }
      }
    }
  }

  /**
   * align keeps the number of lines, changes only lines holding a
   * delimiter, and changes those only in their whitespace.
   */
  lemma {:induction false} AlignShape(s: string, delims: Delims, dist: Dist, autoMax: int, skipFull: bool)
    ensures |Lines(Aligned(s, delims, dist, autoMax, skipFull))| == |Lines(s)|
    ensures forall i :: 0 <= i < |Lines(s)| ==>
      NonSpace(Lines(Aligned(s, delims, dist, autoMax, skipFull))[i]) == NonSpace(Lines(s)[i]) &&
      ((forall j :: 0 <= j < |DelimSeq(delims)| ==> !Contains(Lines(s)[i], DelimSeq(delims)[j])) ==>
        Lines(Aligned(s, delims, dist, autoMax, skipFull))[i] == Lines(s)[i])
  {
    var ds := DelimSeq(delims);
    var lines := Lines(s);
    var column := DistOf(dist, lines, ds, autoMax);
    var out := AlignAll(lines, ds, column, skipFull);
    forall k | 0 <= k < |out| ensures '\n' !in out[k] && NonSpace(out[k]) == NonSpace(lines[k]) {
      assert '\n' !in lines[k];
      AlignAllOnlySpace(lines, ds, column, skipFull, k);
    }
    SplitOnJoin(out, '\n');
    forall i | 0 <= i < |lines| && (forall j :: 0 <= j < |ds| ==> !Contains(lines[i], ds[j]))
      ensures out[i] == lines[i]
    {
      AlignAllUntouched(lines, ds, column, skipFull, i);
    }
  }

  // ---------------------------------------------------------------- format

  /** The four formatting styles. */
  datatype Style = Compact | Indent | Minify | Flatten

  /** The mode that selects a style. */
  function ModeName(style: Style): string {
    match style
    case Compact => "compact"
    case Indent => "indent"
    case Minify => "minify"
    case Flatten => "flatten"
  }

  /** PanelcodeFormatter.format: a missing or empty mode means the formatter's own; an unknown one means flatten. */
  function FormatStyle(formatterMode: string, mode: Option<string>): Style {
    var m := if mode.None? || mode.value == "" then formatterMode else mode.value;
    if m == "compact" then Compact
    else if m == "indent" then Indent
    else if m == "minify" then Minify
    else Flatten
  }

  /** Every style is selected by its own mode name, whatever the formatter's mode. */
  lemma {:induction false} FormatStyleByName(formatterMode: string, style: Style)
    ensures FormatStyle(formatterMode, Some(ModeName(style))) == style
  {
  }

  /** A mode other than the four names, given or inherited, falls back to flatten. */
  lemma {:induction false} FormatFallback(formatterMode: string, mode: Option<string>)
    ensures var m := if mode.None? || mode.value == "" then formatterMode else mode.value;
      (forall style: Style :: m != ModeName(style)) <==> FormatStyle(formatterMode, mode) == Flatten && m != "flatten"
  {
    var m := if mode.None? || mode.value == "" then formatterMode else mode.value;
    if forall style: Style :: m != ModeName(style) {
      assert m != ModeName(Compact) && m != ModeName(Indent) && m != ModeName(Minify) && m != ModeName(Flatten);
    } else {
      var style: Style :| m == ModeName(style);
    }
  }
}
