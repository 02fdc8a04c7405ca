/**
 * The transition table of the Panelcode sample generator
 * (PanelcodeGenerator in panelcode/format.py): each word of the
 * decommented sample is filed under the pair of words before it, starting
 * from a pair of non-words and ending with one non-word marker.
 */
module Markov {
  import opened Wrappers
  import opened Text
  import opened Format

  /** The non-word marker, "\n": it never occurs in a word of str.split(). */
  const NonWord: string := "\n"

  type Key = (string, string)
  type Table = map<Key, seq<string>>

  /** The pair of words before position i. */
  function KeyAt(words: seq<string>, i: nat): Key
    requires i <= |words|
  {
    (if i >= 2 then words[i - 2] else NonWord, if i >= 1 then words[i - 1] else NonWord)
  }

  /** The transitions in order: every word under its preceding pair, then the end marker. */
  function Transitions(words: seq<string>): (r: seq<(Key, string)>)
    ensures |r| == |words| + 1
  {
    seq(|words| + 1, i requires 0 <= i <= |words| => (KeyAt(words, i), if i < |words| then words[i] else NonWord))
  }

  /** table.setdefault(key, []).append(value) */
  function Add(t: Table, e: (Key, string)): Table {
    t[e.0 := (if e.0 in t then t[e.0] else []) + [e.1]]
  }

  function Group(es: seq<(Key, string)>): Table
    decreases |es|
  {
    if |es| == 0 then map[] else Add(Group(es[..|es| - 1]), es[|es| - 1])
  }

  /** One more transition is added to the table built from those before it. */
  lemma {:induction false} GroupStep(es: seq<(Key, string)>, i: nat)
    requires i < |es|
    ensures Group(es[..i + 1]) == Add(Group(es[..i]), es[i])
  {
    assert es[..i + 1][..i] == es[..i];
  }

  /**
   * The loop of markov_table after i words: filing word i (or, at the end,
   * the marker) under the pair before it extends the table by transition i.
   */
  lemma {:induction false} TableStep(words: seq<string>, i: nat)
    requires i <= |words|
    ensures Group(Transitions(words)[..i + 1]) ==
      Add(Group(Transitions(words)[..i]), (KeyAt(words, i), if i < |words| then words[i] else NonWord))
    ensures i < |words| ==> KeyAt(words, i + 1) == (KeyAt(words, i).1, words[i])
    ensures i == |words| ==> Transitions(words)[..i + 1] == Transitions(words)
  {
    var es := Transitions(words);
    GroupStep(es, i);
    assert es[i] == (KeyAt(words, i), if i < |words| then words[i] else NonWord);
  }

  /** The words of the sample: decommented with the default delimiters, then split on whitespace. */
  function SampleWords(sample: string): seq<string> {
    SplitWs(Decommented(sample, None))
  }

  function TableOf(words: seq<string>): Table {
    Group(Transitions(words))
  }

  class PanelcodeGenerator {
    var sample: string
    var maxwords: int
    var crop: bool
    var table: Option<Table>

    constructor(sample: string, maxwords: int, crop: bool)
      ensures this.sample == sample && this.maxwords == maxwords && this.crop == crop && table == None
    {
      this.sample := sample;
      this.maxwords := maxwords;
      this.crop := crop;
      table := None;
    }

    /** markov_table: builds the table of the decommented sample and stores it. */
    method MarkovTable()
      modifies this
      ensures table == Some(TableOf(SampleWords(sample)))
      ensures sample == old(sample) && maxwords == old(maxwords) && crop == old(crop)
    {
      var text := Decomment(sample, None);
      var words := SplitWs(text);
      var t: Table := map[];
      var word1, word2 := NonWord, NonWord;
      var i := 0;
      while i < |words|
        invariant 0 <= i <= |words|
        invariant t == Group(Transitions(words)[..i])
        invariant (word1, word2) == KeyAt(words, i)
        invariant unchanged(this)
      {
        TableStep(words, i);
        var word := words[i];
        t := Add(t, ((word1, word2), word));
        word1, word2 := word2, word;
        i := i + 1;
      }
      TableStep(words, |words|);
      t := Add(t, ((word1, word2), NonWord));
      table := Some(t);
    }
  }

  /** The values filed under one key, in order. */
  function ValuesOf(es: seq<(Key, string)>, k: Key): seq<string>
    decreases |es|
  {
    if |es| == 0 then []
    else ValuesOf(es[..|es| - 1], k) + (if es[|es| - 1].0 == k then [es[|es| - 1].1] else [])
  }

  /** The table files under each key exactly the values of the transitions with that key, in order. */
  lemma {:induction false} GroupValues(es: seq<(Key, string)>, k: Key)
    ensures k in Group(es) <==> ValuesOf(es, k) != []
    ensures k in Group(es) ==> Group(es)[k] == ValuesOf(es, k)
    decreases |es|
  {
    if |es| > 0 {
      GroupValues(es[..|es| - 1], k);
    }
  }

  /** The total number of entries of a table. */
  ghost function Total(t: Table): nat
    decreases |t.Keys|
  {
    if t == map[] then 0
    else
      var k :| k in t;
      |t[k]| + Total(t - {k})
  }

  lemma {:induction false} TotalAt(t: Table, k: Key)
    requires k in t
    ensures Total(t) == |t[k]| + Total(t - {k})
    decreases |t.Keys|
  {
    var j :| j in t && Total(t) == |t[j]| + Total(t - {j});
    if j != k {
      var u := t - {j};
      var v := t - {k};
      assert |u.Keys| < |t.Keys| by { assert u.Keys < t.Keys; }
      assert |v.Keys| < |t.Keys| by { assert v.Keys < t.Keys; }
      TotalAt(u, k);
      TotalAt(v, j);
      assert u - {k} == v - {j};
    }
  }

  lemma {:induction false} TotalAdd(t: Table, e: (Key, string))
    ensures Total(Add(t, e)) == Total(t) + 1
  {
    var a := Add(t, e);
    TotalAt(a, e.0);
    assert a - {e.0} == t - {e.0};
    if e.0 in t {
      TotalAt(t, e.0);
    } else {
      assert t - {e.0} == t;
    }
  }

  lemma {:induction false} GroupTotal(es: seq<(Key, string)>)
    ensures Total(Group(es)) == |es|
    decreases |es|
  {
    if |es| > 0 {
      GroupTotal(es[..|es| - 1]);
      TotalAdd(Group(es[..|es| - 1]), es[|es| - 1]);
    }
  }

  /** The table holds one entry per word plus the end marker. */
  lemma {:induction false} TableTotal(words: seq<string>)
    ensures Total(TableOf(words)) == |words| + 1
  {
    GroupTotal(Transitions(words));
  }

  lemma {:induction false} ValuesOfFirst(es: seq<(Key, string)>, k: Key)
    requires |es| > 0 && es[0].0 == k
    ensures ValuesOf(es, k) != [] && ValuesOf(es, k)[0] == es[0].1
    decreases |es|
  {
    if |es| > 1 {
      ValuesOfFirst(es[..|es| - 1], k);
    }
  }

  /** The chain starts at the pair of non-words, whose first entry is the first word (the end marker for no words). */
  lemma {:induction false} TableStart(words: seq<string>)
    ensures (NonWord, NonWord) in TableOf(words) && |TableOf(words)[(NonWord, NonWord)]| > 0
    ensures TableOf(words)[(NonWord, NonWord)][0] == if |words| > 0 then words[0] else NonWord
  {
    var es := Transitions(words);
    ValuesOfFirst(es, (NonWord, NonWord));
    GroupValues(es, (NonWord, NonWord));
  }

  /** Every word is filed under the two words before it. */
  lemma {:induction false} TableFiles(words: seq<string>, i: nat)
    requires i < |words|
    ensures KeyAt(words, i) in TableOf(words) && words[i] in TableOf(words)[KeyAt(words, i)]
  {
    var es := Transitions(words);
    ValuesOfHas(es, i);
    GroupValues(es, KeyAt(words, i));
  }

  lemma {:induction false} ValuesOfHas(es: seq<(Key, string)>, i: nat)
    requires i < |es|
    ensures es[i].1 in ValuesOf(es, es[i].0)
    decreases |es|
  {
    if i < |es| - 1 {
      ValuesOfHas(es[..|es| - 1], i);
    }
  }

  /** The end marker, filed under the last two words, is the only non-word entry. */
  lemma {:induction false} TableEnd(sample: string)
    ensures var words := SampleWords(sample);
      var es := Transitions(words);
      es[|words|] == (KeyAt(words, |words|), NonWord) &&
      forall i :: 0 <= i < |words| ==> es[i].1 != NonWord
  {
    var words := SampleWords(sample);
    forall i | 0 <= i < |words| ensures words[i] != NonWord {
      assert IsSpace(NonWord[0]);
    }
  }
}
