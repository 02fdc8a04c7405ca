/**
 * Option blocks: how the renderers sort the tokens of an option block into
 * attribute words, single-letter+digits words and key=value expressions
 * (opts_load), and how they print them into an HTML class list (opts_render).
 */
module Options {
  import opened Wrappers
  import opened Text

  /**
   * One token of an option block as the grammar delivers it: a bare word
   * (`w3`, `label`) or a group of strings (`['c', '2']` from `c 2`,
   * `['title', 'x y']` from `title='x y'`).
   */
  datatype OptToken = Bare(word: string) | Grouped(head: string, tail: seq<string>)

  /** What opts_load makes of one token. */
  datatype TokenClass = AttrWord(word: string) | KvWord(word: string) | KvExpr(key: string, value: string)

  /** The dictionary of key=value expressions, as (key, value) entries in first-insertion order. */
  type Dict = seq<(string, string)>

  /** The group test of opts_load: a one-character alphabetic key and an all-digits value. */
  predicate IsKvWordGroup(head: string, tail: seq<string>) {
    |tail| == 1 && |head| == 1 && IsAlpha(head) && IsDigits(tail[0])
  }

  /** The branch of opts_load that one token takes, in the order the branches are tried. */
  function Classify(t: OptToken): TokenClass {
    match t
    case Bare(w) => AttrWord(w)
    case Grouped(h, tail) =>
      if |tail| == 0 || (|tail| == 1 && tail[0] == "") then AttrWord(h)
      else if IsKvWordGroup(h, tail) then KvWord(h + tail[0])
      else KvExpr(h, Join(" ", tail))
  }

  /** A token that lands among the key=value expressions. */
  predicate IsKvExpr(t: OptToken) {
    Classify(t).KvExpr?
  }

  function Lookup(d: Dict, k: string): Option<string> {
    if |d| == 0 then None
    else if d[0].0 == k then Some(d[0].1)
    else Lookup(d[1..], k)
  }

  predicate UniqueKeys(d: Dict) {
    forall i, j :: 0 <= i < j < |d| ==> d[i].0 != d[j].0
  }

  /** `d[k] = v`: overwrite in place when the key is present, else append. */
  function Put(d: Dict, k: string, v: string): (r: Dict)
    ensures Lookup(r, k) == Some(v)
    ensures forall j :: j != k ==> Lookup(r, j) == Lookup(d, j)
    ensures UniqueKeys(d) ==> UniqueKeys(r)
    ensures |r| == |d| || |r| == |d| + 1
    ensures forall i :: 0 <= i < |d| ==> r[i].0 == d[i].0
    ensures forall i :: |d| <= i < |r| ==> r[i].0 == k
  {
    if |d| == 0 then [(k, v)]
    else if d[0].0 == k then [(k, v)] + d[1..]
    else
      var t := Put(d[1..], k, v);
      var r := [d[0]] + t;
      assert forall i :: 0 <= i < |t| ==> r[i + 1] == t[i];
      assert UniqueKeys(d) ==> UniqueKeys(r) by {
        if UniqueKeys(d) {
          assert UniqueKeys(d[1..]);
          forall i, j | 0 <= i < j < |r| ensures r[i].0 != r[j].0 {
            if i == 0 {
              if j - 1 < |d| - 1 {
                assert r[j].0 == d[1..][j - 1].0 == d[j].0;
              } else {
                assert r[j].0 == k;
              }
            } else {
              assert r[i].0 == t[i - 1].0 && r[j].0 == t[j - 1].0;
            }
          }
        }
      }
      r
  }

  /** The attribute words of `opts`, in order. */
  function AttrWordsOf(opts: seq<OptToken>): seq<string> {
    if |opts| == 0 then []
    else
      AttrWordsOf(opts[..|opts| - 1]) +
      (match Classify(opts[|opts| - 1]) case AttrWord(w) => [w] case _ => [])
  }

  /** The single-letter+digits words of `opts`, in order. */
  function KvWordsOf(opts: seq<OptToken>): seq<string> {
    if |opts| == 0 then []
    else
      KvWordsOf(opts[..|opts| - 1]) +
      (match Classify(opts[|opts| - 1]) case KvWord(w) => [w] case _ => [])
  }

  /** The key=value dictionary of `opts`, each key set by its tokens in order. */
  function KvExprsOf(opts: seq<OptToken>): Dict {
    if |opts| == 0 then []
    else
      var d := KvExprsOf(opts[..|opts| - 1]);
      match Classify(opts[|opts| - 1])
      case KvExpr(k, v) => Put(d, k, v)
      case _ => d
  }

  /** opts_load: one pass over the tokens, filling the three collections. */
  method OptsLoad(opts: seq<OptToken>) returns (attrWords: seq<string>, kvWords: seq<string>, kvExprs: Dict)
    ensures attrWords == AttrWordsOf(opts)
    ensures kvWords == KvWordsOf(opts)
    ensures kvExprs == KvExprsOf(opts)
  {
    attrWords, kvWords, kvExprs := [], [], [];
    var i := 0;
    while i < |opts|
      invariant 0 <= i <= |opts|
      invariant attrWords == AttrWordsOf(opts[..i])
      invariant kvWords == KvWordsOf(opts[..i])
      invariant kvExprs == KvExprsOf(opts[..i])
    {
      assert opts[..i + 1][..i] == opts[..i];
      match Classify(opts[i]) {
        case AttrWord(w) => attrWords := attrWords + [w];
        case KvWord(w) => kvWords := kvWords + [w];
        case KvExpr(k, v) => kvExprs := Put(kvExprs, k, v);
      }
      i := i + 1;
    }
    assert opts[..i] == opts;
  }

  /** The number of tokens of `opts` that land among the key=value expressions. */
  function KvExprCount(opts: seq<OptToken>): nat {
    if |opts| == 0 then 0
    else KvExprCount(opts[..|opts| - 1]) + (if IsKvExpr(opts[|opts| - 1]) then 1 else 0)
  }

  /** Every token goes to exactly one of the three collections. */
  lemma {:induction false} OptsLoadPartition(opts: seq<OptToken>)
    ensures |AttrWordsOf(opts)| + |KvWordsOf(opts)| + KvExprCount(opts) == |opts|
  {
    if |opts| > 0 {
      OptsLoadPartition(opts[..|opts| - 1]);
    }
  }

  /** Loading a concatenation loads each part in turn. */
  lemma {:induction false} OptsLoadAppend(a: seq<OptToken>, b: seq<OptToken>)
    ensures AttrWordsOf(a + b) == AttrWordsOf(a) + AttrWordsOf(b)
    ensures KvWordsOf(a + b) == KvWordsOf(a) + KvWordsOf(b)
  {
    if |b| > 0 {
      assert (a + b)[..|a + b| - 1] == a + b[..|b| - 1];
      OptsLoadAppend(a, b[..|b| - 1]);
    } else {
      assert a + b == a;
    }
  }

  /** Bare tokens are all attribute words, kept in order. */
  lemma {:induction false} BareTokensAreAttrWords(opts: seq<OptToken>)
    requires forall i :: 0 <= i < |opts| ==> opts[i].Bare?
    ensures |AttrWordsOf(opts)| == |opts|
    ensures forall i :: 0 <= i < |opts| ==> AttrWordsOf(opts)[i] == opts[i].word
    ensures KvWordsOf(opts) == [] && KvExprsOf(opts) == []
  {
    if |opts| > 0 {
      BareTokensAreAttrWords(opts[..|opts| - 1]);
    }
  }

  /** Each single-letter+digits word is one letter followed by a non-empty run of digits. */
  lemma {:induction false} KvWordShape(opts: seq<OptToken>)
    ensures forall i :: 0 <= i < |KvWordsOf(opts)| ==>
      |KvWordsOf(opts)[i]| >= 2 && IsLetter(KvWordsOf(opts)[i][0]) && IsDigits(KvWordsOf(opts)[i][1..])
  {
    if |opts| > 0 {
      var p := opts[..|opts| - 1];
      KvWordShape(p);
      match Classify(opts[|opts| - 1])
      case KvWord(w) =>
        var t := opts[|opts| - 1];
        assert t.Grouped? && IsKvWordGroup(t.head, t.tail) && w == t.head + t.tail[0];
        assert w[1..] == t.tail[0];
      case _ =>
    }
  }

  /** Each key appears once in the dictionary. */
  lemma {:induction false} KvExprsUniqueKeys(opts: seq<OptToken>)
    ensures UniqueKeys(KvExprsOf(opts))
  {
    if |opts| > 0 {
      KvExprsUniqueKeys(opts[..|opts| - 1]);
    }
  }

  /** Token i sets key k to v and no later token sets k again. */
  predicate LastWrite(opts: seq<OptToken>, i: int, k: string, v: string) {
    0 <= i < |opts| && Classify(opts[i]) == KvExpr(k, v) &&
    forall j :: i < j < |opts| ==> !(IsKvExpr(opts[j]) && Classify(opts[j]).key == k)
  }

  /** The last key=value token for a key decides its value; a key without such a token is absent. */
  lemma {:induction false} KvExprsLastWriteWins(opts: seq<OptToken>, k: string, v: string)
    ensures Lookup(KvExprsOf(opts), k) == Some(v) <==> exists i :: LastWrite(opts, i, k, v)
  {
    if |opts| > 0 {
      var n := |opts| - 1;
      KvExprsLastWriteWins(opts[..n], k, v);
      var c := Classify(opts[n]);
      if c.KvExpr? && c.key == k {
        LastTokenWrites(opts, k, v);
      } else {
        OtherTokenKeeps(opts, opts[..n], k, v);
      }
    }
  }

  /** A last token setting k decides alone whether k is last set to v. */
  lemma {:induction false} LastTokenWrites(opts: seq<OptToken>, k: string, v: string)
    requires |opts| > 0 && Classify(opts[|opts| - 1]).KvExpr? && Classify(opts[|opts| - 1]).key == k
    ensures (exists i :: LastWrite(opts, i, k, v)) <==> Classify(opts[|opts| - 1]).value == v
  {
    var n := |opts| - 1;
    if Classify(opts[n]).value == v {
      assert LastWrite(opts, n, k, v);
    } else {
      forall i | 0 <= i < |opts| ensures !LastWrite(opts, i, k, v) {
        if i < n {
          assert IsKvExpr(opts[n]) && Classify(opts[n]).key == k;
        }
      }
    }
  }

  /** A last token that does not set k leaves the last write of k where it was. */
  lemma {:induction false} OtherTokenKeeps(opts: seq<OptToken>, p: seq<OptToken>, k: string, v: string)
    requires |opts| > 0 && p == opts[..|opts| - 1]
    requires !(Classify(opts[|opts| - 1]).KvExpr? && Classify(opts[|opts| - 1]).key == k)
    ensures (exists i :: LastWrite(opts, i, k, v)) <==> exists i :: LastWrite(p, i, k, v)
  {
    var n := |opts| - 1;
    if exists i :: LastWrite(p, i, k, v) {
      var i :| LastWrite(p, i, k, v);
      assert opts[i] == p[i];
      assert LastWrite(opts, i, k, v);
    }
    if exists i :: LastWrite(opts, i, k, v) {
      var i :| LastWrite(opts, i, k, v);
      assert i != n;
      assert p[i] == opts[i];
      assert LastWrite(p, i, k, v);
    }
  }

  /** The `key='value'` strings of the dictionary, in its order. */
  function KvExprStrs(d: Dict): seq<string> {
    if |d| == 0 then []
    else KvExprStrs(d[..|d| - 1]) + [d[|d| - 1].0 + "=" + "'" + d[|d| - 1].1 + "'"]
  }

  /** The words opts_render joins: attribute words, then single-letter words, then the expressions. */
  function RenderedWords(opts: seq<OptToken>, aw: bool, kw: bool, ke: bool): seq<string> {
    (if aw then AttrWordsOf(opts) else []) +
    (if kw then KvWordsOf(opts) else []) +
    (if ke && |KvExprsOf(opts)| > 0 then [Join(" ", KvExprStrs(KvExprsOf(opts)))] else [])
  }

  /** opts_render: the selected words, space-joined. */
  function Rendered(opts: seq<OptToken>, aw: bool, kw: bool, ke: bool): string {
    Join(" ", RenderedWords(opts, aw, kw, ke))
  }

  /** opts_render with its defaults: attribute and single-letter words, no expressions. */
  function RenderDefault(opts: seq<OptToken>): string {
    Rendered(opts, true, true, false)
  }

  /** opts_render: loads the tokens, then builds the expression strings in a loop. */
  method OptsRender(opts: seq<OptToken>, aw: bool, kw: bool, ke: bool) returns (r: string)
    ensures r == Rendered(opts, aw, kw, ke)
  {
    var attrWords, kvWords, kvExprs := OptsLoad(opts);
    var result: seq<string> := [];
    if aw && |attrWords| > 0 {
      result := result + attrWords;
    }
    assert result == (if aw then AttrWordsOf(opts) else []);
    if kw && |kvWords| > 0 {
      result := result + kvWords;
    }
    assert result == (if aw then AttrWordsOf(opts) else []) + (if kw then KvWordsOf(opts) else []);
    if ke && |kvExprs| > 0 {
      var strs: seq<string> := [];
      var i := 0;
      while i < |kvExprs|
        invariant 0 <= i <= |kvExprs|
        invariant strs == KvExprStrs(kvExprs[..i])
      {
        assert kvExprs[..i + 1][..i] == kvExprs[..i];
        strs := strs + [kvExprs[i].0 + "=" + "'" + kvExprs[i].1 + "'"];
        i := i + 1;
      }
      assert kvExprs[..i] == kvExprs;
      result := result + [Join(" ", strs)];
    }
    assert result == RenderedWords(opts, aw, kw, ke);
    r := Join(" ", result);
  }

  /** Key=value tokens never show in the default rendering. */
  lemma {:induction false} KvExprInvisibleByDefault(opts: seq<OptToken>, t: OptToken)
    requires IsKvExpr(t)
    ensures RenderDefault(opts + [t]) == RenderDefault(opts)
  {
    assert (opts + [t])[..|opts|] == opts;
    assert AttrWordsOf(opts + [t]) == AttrWordsOf(opts);
    assert KvWordsOf(opts + [t]) == KvWordsOf(opts);
    assert RenderedWords(opts + [t], true, true, false) == RenderedWords(opts, true, true, false);
  }

  /** Every word of `ws` is non-empty and free of spaces. */
  predicate SpaceFreeWords(ws: seq<string>) {
    forall i :: 0 <= i < |ws| ==> |ws[i]| > 0 && ' ' !in ws[i]
  }

  /**
   * The default rendering splits back, at its spaces, into the attribute words
   * followed by the single-letter words, when the attribute words are space-free.
   */
  lemma {:induction false} RenderDefaultSplits(opts: seq<OptToken>)
    requires SpaceFreeWords(AttrWordsOf(opts))
    requires |AttrWordsOf(opts)| + |KvWordsOf(opts)| > 0
    ensures SplitOn(RenderDefault(opts), ' ') == AttrWordsOf(opts) + KvWordsOf(opts)
  {
    var ws := AttrWordsOf(opts) + KvWordsOf(opts);
    KvWordShape(opts);
    forall k | 0 <= k < |KvWordsOf(opts)|
      ensures ' ' !in KvWordsOf(opts)[k]
    {
      var w := KvWordsOf(opts)[k];
      assert w == [w[0]] + w[1..];
      assert forall c :: c in w[1..] ==> IsDigit(c);
    }
    assert forall k :: 0 <= k < |ws| ==> ' ' !in ws[k] by {
      forall k | 0 <= k < |ws| ensures ' ' !in ws[k] {
        if k >= |AttrWordsOf(opts)| {
          assert ws[k] == KvWordsOf(opts)[k - |AttrWordsOf(opts)|];
        }
      }
    }
    assert RenderedWords(opts, true, true, false) == ws;
    SplitOnJoin(ws, ' ');
  }
}
