/**
 * The line decommenter of preparse.py, repeated verbatim in utils.py: each
 * line is cut at the first occurrence of a delimiter and stripped, and every
 * input line yields exactly one output line so that line numbers in later
 * parse errors still match the original text.
 */
module Preparse {
  import opened Wrappers
  import opened Text

  /** itemline.split(delim, 1)[0].strip(): the stripped text before the first delimiter. */
  function DecommentLine(line: string, delim: string): (r: string)
    requires |delim| > 0
    ensures !Contains(r, delim)
    ensures r == [] || (!IsSpace(r[0]) && !IsSpace(r[|r| - 1]))
    ensures r == [] <==> AllSpace(Before(line, delim))
  {
    StripKeepsAbsence(Before(line, delim), delim);
    Strip(Before(line, delim))
  }

  /** The entries of the lines, in order. */
  function DecommentLines(item: seq<string>, delim: string): (r: seq<string>)
    requires |delim| > 0
    ensures |r| == |item|
  {
    if |item| == 0 then [] else [DecommentLine(item[0], delim)] + DecommentLines(item[1..], delim)
  }

  /**
   * The `decomment` generator, one entry per line. Splitting on an empty
   * delimiter raises ValueError as soon as the first line is reached, so a
   * non-empty input with an empty delimiter has no result.
   */
  function Decomment(item: seq<string>, delim: string): (r: Option<seq<string>>)
    ensures r.None? <==> |item| > 0 && |delim| == 0
    ensures r.Some? ==> |r.value| == |item|
  {
    if |item| == 0 then Some([])
    else if |delim| == 0 then None
    else Some(DecommentLines(item, delim))
  }

  /** Each entry is the stripped text before the first delimiter of its own line, in order. */
  lemma {:induction false} DecommentEntries(item: seq<string>, delim: string, i: nat)
    requires |delim| > 0 && i < |item|
    ensures Decomment(item, delim).Some?
    ensures Decomment(item, delim).value[i] == DecommentLine(item[i], delim)
    ensures Decomment(item, delim).value[i] == Strip(Before(item[i], delim))
  {
    DecommentLinesAt(item, delim, i);
  }

  lemma {:induction false} DecommentLinesAt(item: seq<string>, delim: string, i: nat)
    requires |delim| > 0 && i < |item|
    ensures DecommentLines(item, delim)[i] == DecommentLine(item[i], delim)
  {
    if i > 0 {
      DecommentLinesAt(item[1..], delim, i - 1);
    }
  }

  /** No entry contains the delimiter, and none has leading or trailing whitespace. */
  lemma {:induction false} DecommentClean(item: seq<string>, delim: string, i: nat)
    requires |delim| > 0 && i < |item|
    ensures Decomment(item, delim).Some?
    ensures var e := Decomment(item, delim).value[i];
      !Contains(e, delim) && (e == [] || (!IsSpace(e[0]) && !IsSpace(e[|e| - 1])))
  {
    DecommentEntries(item, delim, i);
  }

  /** A comment-only or blank line yields the empty entry, keeping the line count aligned. */
  lemma {:induction false} DecommentBlank(item: seq<string>, delim: string, i: nat)
    requires |delim| > 0 && i < |item|
    requires AllSpace(Before(item[i], delim))
    ensures Decomment(item, delim).Some? && Decomment(item, delim).value[i] == ""
  {
    DecommentEntries(item, delim, i);
  }

  /** Decommenting is per line: the entries of two runs of lines are those of each run. */
  lemma {:induction false} DecommentAppend(a: seq<string>, b: seq<string>, delim: string)
    requires |delim| > 0
    ensures DecommentLines(a + b, delim) == DecommentLines(a, delim) + DecommentLines(b, delim)
  {
    if |a| > 0 {
      assert (a + b)[1..] == a[1..] + b;
      DecommentAppend(a[1..], b, delim);
    } else {
      assert a + b == b;
    }
  }
}
