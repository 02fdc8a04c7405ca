/**
 * The layout decoration of panelcode/render.py: image previews
 * (img_render), the gallery image path, the layout label, the `url` anchor,
 * and merge_dicts for option dictionaries.
 */
module Decorations {
  import opened Wrappers
  import opened Text
  import opened Options
  import opened Grid

  // ---------------------------------------------------------------- images

  /** What img_render returns: the block before the layout, the layer inside it, the block after it. */
  datatype ImgBlocks = ImgBlocks(before: string, layer: string, after: string)

  /** Some string of `strs` holds `sub`. */
  predicate AnyContains(strs: seq<string>, sub: string) {
    exists i :: 0 <= i < |strs| && Contains(strs[i], sub)
  }

  lemma {:induction false} AnyContainsSnoc(strs: seq<string>, i: nat, sub: string)
    requires i < |strs|
    ensures AnyContains(strs[..i + 1], sub) <==> AnyContains(strs[..i], sub) || Contains(strs[i], sub)
  {
    assert strs[..i + 1][i] == strs[i];
    if AnyContains(strs[..i + 1], sub) {
      var j :| 0 <= j < i + 1 && Contains(strs[..i + 1][j], sub);
      if j < i {
        assert strs[..i][j] == strs[j];
      }
    }
    if AnyContains(strs[..i], sub) {
      var j :| 0 <= j < i && Contains(strs[..i][j], sub);
      assert strs[..i + 1][j] == strs[j];
    }
  }

  /** A character of a stripped text is a character of the text. */
  lemma {:induction false} StripChars(s: string, c: char)
    requires c in Strip(s)
    ensures c in s
  {
    var lo := SpaceRunEnd(s, 0);
    var hi := SpaceRunStart(s, lo, |s|);
    var k :| 0 <= k < |s[lo..hi]| && s[lo..hi][k] == c;
    assert s[lo + k] == c;
  }

  /** The image paths of an `img` value: its ':'-separated pieces, stripped. */
  function ImgPaths(img: string): (r: seq<string>)
    ensures |r| == |SplitOn(img, ':')|
  {
    var parts := SplitOn(img, ':');
    seq(|parts|, k requires 0 <= k < |parts| => Strip(parts[k]))
  }

  /** There is always a first path, and no path holds a ':' or surrounding whitespace. */
  lemma {:induction false} ImgPathsClean(img: string)
    ensures |ImgPaths(img)| >= 1
    ensures forall k :: 0 <= k < |ImgPaths(img)| ==> ':' !in ImgPaths(img)[k]
    ensures forall k :: 0 <= k < |ImgPaths(img)| && ImgPaths(img)[k] != [] ==>
      !IsSpace(ImgPaths(img)[k][0]) && !IsSpace(ImgPaths(img)[k][|ImgPaths(img)[k]| - 1])
  {
    var parts := SplitOn(img, ':');
    forall k | 0 <= k < |parts| ensures ':' !in ImgPaths(img)[k] {
      if ':' in Strip(parts[k]) {
        StripChars(parts[k], ':');
      }
    }
  }

  function ImgTag(imgPath: string, path: string): string {
    "<img src=\"" + imgPath + path + "\"/>"
  }

  /** The img tags of the paths, in order, each under the image path. */
  function ImgTags(imgPath: string, paths: seq<string>): string {
    if |paths| == 0 then "" else ImgTags(imgPath, paths[..|paths| - 1]) + ImgTag(imgPath, paths[|paths| - 1])
  }

  /** A label block under an image or a layout. */
  function LabelBlock(text: string): string {
    "      <div class=\"label bottom\">" + text + "</div>"
  }

  /** A preview block of the layout's own size: the images, then the image label. */
  function LayoutBlock(lopt: string, tags: string, imgLabel: string): string {
    "    <div class=\"layout " + lopt + "\"><div class=\"img\">" + tags + "</div>" + imgLabel + "</div>"
  }

  /** The image label: `ilabel` when given, else with `autoilabel` the stem of the first path, else none. */
  function ImgLabel(kve: Dict, strs: seq<string>, first: string): string {
    match Lookup(kve, "ilabel")
    case Some(l) => LabelBlock(l)
    case None => if AnyContains(strs, "autoilabel") then LabelBlock(Stem(first)) else ""
  }

  /** The option strings img_render scans: global, document, gallery, spread, layout. */
  function ScanOrder(lopt: string, sopt: string, gopt: string, popt: string, glopt: string): seq<string> {
    [glopt, popt, gopt, sopt, lopt]
  }

  /**
   * img_render.  Without an `img` expression there is nothing to show.
   * Otherwise `ibefore` / `iafter` in any of the option strings put a preview
   * block before / after the layout, and only when neither is asked for the
   * images become a layer inside the layout.
   */
  function ImgBlocksOf(kve: Dict, lopt: string, sopt: string, gopt: string, popt: string, glopt: string, imgPath: string): ImgBlocks {
    match Lookup(kve, "img")
    case None => ImgBlocks("", "", "")
    case Some(img) =>
      var paths := ImgPaths(img);
      var strs := ScanOrder(lopt, sopt, gopt, popt, glopt);
      var tags := ImgTags(imgPath, paths);
      var block := LayoutBlock(lopt, tags, ImgLabel(kve, strs, paths[0]));
      var before := if AnyContains(strs, "ibefore") then block else "";
      var after := if AnyContains(strs, "iafter") then block else "";
      var layer := if before == "" && after == "" then "    <div class=\"img\">" + tags + "</div>" else "";
      ImgBlocks(before, layer, after)
  }

  /** The `autoilabel` loop of img_render, then the `ilabel` override. */
  method ScanImgLabel(kve: Dict, strs: seq<string>, first: string) returns (caption: string)
    ensures caption == ImgLabel(kve, strs, first)
  {
    caption := "";
    var i := 0;
    while i < |strs|
      invariant 0 <= i <= |strs|
      invariant caption == if AnyContains(strs[..i], "autoilabel") then LabelBlock(Stem(first)) else ""
    {
      AnyContainsSnoc(strs, i, "autoilabel");
      if Contains(strs[i], "autoilabel") {
        caption := LabelBlock(Stem(first));
      }
      i := i + 1;
    }
    assert strs[..i] == strs;
    var ilabel := Lookup(kve, "ilabel");
    if ilabel.Some? {
      caption := LabelBlock(ilabel.value);
    }
  }

  /** The img tag loop of img_render. */
  method BuildImgTags(imgPath: string, paths: seq<string>) returns (tags: string)
    ensures tags == ImgTags(imgPath, paths)
  {
    tags := "";
    var k := 0;
    while k < |paths|
      invariant 0 <= k <= |paths|
      invariant tags == ImgTags(imgPath, paths[..k])
    {
      assert paths[..k + 1][..k] == paths[..k];
      tags := tags + ImgTag(imgPath, paths[k]);
      k := k + 1;
    }
    assert paths[..k] == paths;
  }

  /** The `ibefore` / `iafter` loop of img_render. */
  method ScanBeforeAfter(strs: seq<string>, block: string) returns (before: string, after: string)
    ensures before == if AnyContains(strs, "ibefore") then block else ""
    ensures after == if AnyContains(strs, "iafter") then block else ""
  {
    before, after := "", "";
    var i := 0;
    while i < |strs|
      invariant 0 <= i <= |strs|
      invariant before == if AnyContains(strs[..i], "ibefore") then block else ""
      invariant after == if AnyContains(strs[..i], "iafter") then block else ""
    {
      AnyContainsSnoc(strs, i, "ibefore");
      AnyContainsSnoc(strs, i, "iafter");
      if Contains(strs[i], "ibefore") {
        before := block;
      }
      if Contains(strs[i], "iafter") {
        after := block;
      }
      i := i + 1;
    }
    assert strs[..i] == strs;
  }

  /** img_render */
  method ImgRender(kve: Dict, lopt: string, sopt: string, gopt: string, popt: string, glopt: string, imgPath: string)
    returns (before: string, layer: string, after: string)
    ensures ImgBlocks(before, layer, after) == ImgBlocksOf(kve, lopt, sopt, gopt, popt, glopt, imgPath)
  {
    var img := Lookup(kve, "img");
    if img.None? {
      return "", "", "";
    }
    var paths := ImgPaths(img.value);
    ImgPathsClean(img.value);
    var strs := ScanOrder(lopt, sopt, gopt, popt, glopt);
    var caption := ScanImgLabel(kve, strs, paths[0]);
    var tags := BuildImgTags(imgPath, paths);
    before, after := ScanBeforeAfter(strs, LayoutBlock(lopt, tags, caption));
    layer := "";
    if before == "" && after == "" {
      layer := "    <div class=\"img\">" + tags + "</div>";
    }
  }

  /** Without an `img` expression the three blocks are empty. */
  lemma {:induction false} NoImgNoBlocks(kve: Dict, lopt: string, sopt: string, gopt: string, popt: string, glopt: string, imgPath: string)
    requires Lookup(kve, "img").None?
    ensures ImgBlocksOf(kve, lopt, sopt, gopt, popt, glopt, imgPath) == ImgBlocks("", "", "")
  {
  }

  /** With an `img` expression the inner layer is there exactly when neither `ibefore` nor `iafter` is asked for. */
  lemma {:induction false} LayerUnlessBeforeAfter(kve: Dict, lopt: string, sopt: string, gopt: string, popt: string, glopt: string, imgPath: string)
    requires Lookup(kve, "img").Some?
    ensures var b := ImgBlocksOf(kve, lopt, sopt, gopt, popt, glopt, imgPath);
      var strs := [glopt, popt, gopt, sopt, lopt];
      (b.layer != "" <==> !AnyContains(strs, "ibefore") && !AnyContains(strs, "iafter")) &&
      (b.before != "" <==> AnyContains(strs, "ibefore")) &&
      (b.after != "" <==> AnyContains(strs, "iafter"))
  {
  }

  /** `ilabel` overrides `autoilabel`; without either there is no image label. */
  lemma {:induction false} ImgLabelPrecedence(kve: Dict, strs: seq<string>, first: string)
    ensures Lookup(kve, "ilabel").Some? ==> ImgLabel(kve, strs, first) == LabelBlock(Lookup(kve, "ilabel").value)
    ensures Lookup(kve, "ilabel").None? && !AnyContains(strs, "autoilabel") ==> ImgLabel(kve, strs, first) == ""
  {
  }

  /** Every path contributes one img tag under the image path, in order. */
  lemma {:induction false} ImgTagsAppend(imgPath: string, a: seq<string>, b: seq<string>)
    ensures ImgTags(imgPath, a + b) == ImgTags(imgPath, a) + ImgTags(imgPath, b)
    decreases |b|
  {
    if |b| == 0 {
      assert a + b == a;
    } else {
      assert (a + b)[..|a + b| - 1] == a + b[..|b| - 1];
      ImgTagsAppend(imgPath, a, b[..|b| - 1]);
    }
  }

  // ---------------------------------------------------------------- gallery image path, anchors, labels

  /** The gallery's `imgpath`, else the global one, else none. */
  function ImgPathOf(gkve: Dict, pkve: Dict): (r: string)
    ensures Lookup(gkve, "imgpath").Some? ==> r == Lookup(gkve, "imgpath").value
    ensures Lookup(gkve, "imgpath").None? && Lookup(pkve, "imgpath").Some? ==> r == Lookup(pkve, "imgpath").value
    ensures Lookup(gkve, "imgpath").None? && Lookup(pkve, "imgpath").None? ==> r == ""
  {
    match Lookup(gkve, "imgpath")
    case Some(p) => p
    case None => Lookup(pkve, "imgpath").GetOr("")
  }

  /** The link target of a `url` expression: `http://` is put in front unless "http" occurs in it. */
  function AnchorHref(url: string): (r: string)
    ensures Contains(r, "http")
    ensures Contains(url, "http") ==> r == url
    ensures !Contains(url, "http") ==> r == "http://" + url
  {
    if Contains(url, "http") then url
    else
      var r := "http://" + url;
      assert OccursAt(r, "http", 0);
      r
  }

  /**
   * The layout label: an explicit `label` expression wins; otherwise an
   * `autolabel` word in the layout, spread, gallery or document options
   * labels the layout with the stem of its `img`, or without one with its
   * number in the gallery.
   */
  function LayoutCaption(kve: Dict, strs: seq<string>, n: int): seq<Line> {
    match Lookup(kve, "label")
    case Some(l) => [Caption("<div>" + l + "</div>")]
    case None =>
      if AnyContains(strs, "autolabel") then
        [Caption(match Lookup(kve, "img") case Some(p) => Stem(p) case None => IntToStr(n))]
      else []
  }

  /** The label loop over the four option strings, then the `label` override. */
  method RenderLabel(kve: Dict, strs: seq<string>, n: int) returns (cap: seq<Line>)
    ensures cap == LayoutCaption(kve, strs, n)
  {
    var html: Option<string> := None;
    var i := 0;
    while i < |strs|
      invariant 0 <= i <= |strs|
      invariant html == if AnyContains(strs[..i], "autolabel") then
        Some(match Lookup(kve, "img") case Some(p) => Stem(p) case None => IntToStr(n)) else None
    {
      AnyContainsSnoc(strs, i, "autolabel");
      if Contains(strs[i], "autolabel") {
        var img := Lookup(kve, "img");
        if img.Some? {
          html := Some(Stem(img.value));
        } else {
          html := Some(IntToStr(n));
        }
      }
      i := i + 1;
    }
    assert strs[..i] == strs;
    var given := Lookup(kve, "label");
    if given.Some? {
      html := Some("<div>" + given.value + "</div>");
    }
    cap := if html.Some? then [Caption(html.value)] else [];
  }

  /** At most one caption; it is there exactly when a `label` or an `autolabel` asks for it. */
  lemma {:induction false} CaptionPresence(kve: Dict, strs: seq<string>, n: int)
    ensures |LayoutCaption(kve, strs, n)| <= 1
    ensures |LayoutCaption(kve, strs, n)| == 1 <==> Lookup(kve, "label").Some? || AnyContains(strs, "autolabel")
    ensures forall i :: 0 <= i < |LayoutCaption(kve, strs, n)| ==> LayoutCaption(kve, strs, n)[i].Caption?
  {
  }

  // ---------------------------------------------------------------- merge_dicts

  /** d.update(e): the pairs of e written into d in order. */
  function Update(d: Dict, e: Dict): (r: Dict)
    ensures UniqueKeys(d) ==> UniqueKeys(r)
    decreases |e|
  {
    if |e| == 0 then d else Update(Put(d, e[0].0, e[0].1), e[1..])
  }

  /** merge_dicts: a new dictionary updated with each argument in turn. */
  function Merged(ds: seq<Dict>): (r: Dict)
    ensures UniqueKeys(r)
  {
    if |ds| == 0 then [] else Update(Merged(ds[..|ds| - 1]), ds[|ds| - 1])
  }

  /** The value of `k` in the last dictionary that has it. */
  function LastValue(ds: seq<Dict>, k: string): Option<string> {
    if |ds| == 0 then None
    else
      match Lookup(ds[|ds| - 1], k)
      case Some(v) => Some(v)
      case None => LastValue(ds[..|ds| - 1], k)
  }

  lemma {:induction false} LookupNone(d: Dict, k: string)
    ensures Lookup(d, k).None? <==> forall i :: 0 <= i < |d| ==> d[i].0 != k
  {
    if |d| > 0 {
      LookupNone(d[1..], k);
      assert forall i :: 0 < i < |d| ==> d[1..][i - 1] == d[i];
    }
  }

  /** After an update a key has its value in e, when e has it, else its value in d. */
  lemma {:induction false} UpdateLookup(d: Dict, e: Dict, k: string)
    requires UniqueKeys(e)
    ensures Lookup(Update(d, e), k) == if Lookup(e, k).Some? then Lookup(e, k) else Lookup(d, k)
    decreases |e|
  {
    if |e| > 0 {
      assert UniqueKeys(e[1..]) by {
        forall i, j | 0 <= i < j < |e[1..]| ensures e[1..][i].0 != e[1..][j].0 {
          assert e[1..][i] == e[i + 1] && e[1..][j] == e[j + 1];
        }
      }
      UpdateLookup(Put(d, e[0].0, e[0].1), e[1..], k);
      if e[0].0 == k {
        LookupNone(e[1..], k);
        forall i | 0 <= i < |e[1..]| ensures e[1..][i].0 != k {
          assert e[1..][i] == e[i + 1];
        }
      }
    }
  }

  /** merge_dicts: later dictionaries take precedence on shared keys. */
  lemma {:induction false} MergedLookup(ds: seq<Dict>, k: string)
    requires forall i :: 0 <= i < |ds| ==> UniqueKeys(ds[i])
    ensures Lookup(Merged(ds), k) == LastValue(ds, k)
  {
    if |ds| > 0 {
      var p := ds[..|ds| - 1];
      assert forall i :: 0 <= i < |p| ==> p[i] == ds[i];
      MergedLookup(p, k);
      UpdateLookup(Merged(p), ds[|ds| - 1], k);
    }
  }

  /** merge_dicts: the loop over the argument dictionaries. */
  method MergeDicts(ds: seq<Dict>) returns (r: Dict)
    ensures r == Merged(ds)
  {
    r := [];
    var i := 0;
    while i < |ds|
      invariant 0 <= i <= |ds|
      invariant r == Merged(ds[..i])
    {
      assert ds[..i + 1][..i] == ds[..i];
      r := Update(r, ds[i]);
      i := i + 1;
    }
    assert ds[..i] == ds;
  }
}
