/**
 * Python's `str.split()` with no separator, the word counter that the
 * reply orchestrator uses as its approximation of a token count.
 *
 * `split()` without an argument splits on runs of whitespace and drops
 * empty strings, so its result is the list of maximal runs of
 * non-whitespace characters.  Whitespace is the set for which Python's
 * `str.isspace` holds (Unicode 15): the code points listed in IsSpace.
 */
module Words {

  /** Python's whitespace set for `str.split()` and `str.isspace()`. */
  predicate IsSpace(c: char) {
    var n := c as int;
    || 0x09 <= n <= 0x0D
    || 0x1C <= n <= 0x20
    || n == 0x85 || n == 0xA0 || n == 0x1680
    || 0x2000 <= n <= 0x200A
    || n == 0x2028 || n == 0x2029 || n == 0x202F || n == 0x205F || n == 0x3000
  }

  /** Length of the leading run of non-whitespace characters of `s`. */
  function RunLength(s: string): (k: nat)
    ensures k <= |s|
    ensures forall i :: 0 <= i < k ==> !IsSpace(s[i])
    ensures k < |s| ==> IsSpace(s[k])
  {
    if s == [] || IsSpace(s[0]) then 0 else 1 + RunLength(s[1..])
  }

  /** `s.split()`: the maximal runs of non-whitespace characters, in order. */
  function Split(s: string): seq<string>
    decreases |s|
  {
    if s == [] then []
    else if IsSpace(s[0]) then Split(s[1..])
    else
      var k := RunLength(s);
      [s[..k]] + Split(s[k..])
  }

  /** Every word of a split is a non-empty run of non-whitespace characters. */
  lemma {:induction false} SplitWordsAreRuns(s: string)
    ensures forall w :: w in Split(s) ==> w != [] && forall i :: 0 <= i < |w| ==> !IsSpace(w[i])
    decreases |s|
  {
    if s == [] {
    } else if IsSpace(s[0]) {
      SplitWordsAreRuns(s[1..]);
    } else {
      SplitWordsAreRuns(s[RunLength(s)..]);
    }
  }

  /** `len(s.split())`. */
  function WordCount(s: string): nat {
    |Split(s)|
  }

  /** The characters of `s` that are not whitespace, in order. */
  function NonSpace(s: string): string {
    if s == [] then []
    else if IsSpace(s[0]) then NonSpace(s[1..])
    else [s[0]] + NonSpace(s[1..])
  }

  /** The concatenation of a list of strings, `"".join(words)`. */
  function Concat(words: seq<string>): string {
    if words == [] then [] else words[0] + Concat(words[1..])
  }

  /**
   * Reference definition of the word count: the number of positions that
   * start a word, that is, hold a non-whitespace character that is first
   * in `s` or follows whitespace.  `afterSpace` says whether the position
   * before `s` counts as whitespace (true at the start of the string).
   */
  function WordStarts(s: string, afterSpace: bool): nat {
    if s == [] then 0
    else (if afterSpace && !IsSpace(s[0]) then 1 else 0) + WordStarts(s[1..], IsSpace(s[0]))
  }

  /** Whether the position after `s` follows whitespace, given the same for `s`. */
  function EndsAfterSpace(s: string, afterSpace: bool): bool {
    if s == [] then afterSpace else IsSpace(s[|s| - 1])
  }

  lemma {:induction false} WordStartsSkipRun(s: string)
    ensures WordStarts(s, false) == WordStarts(s[RunLength(s)..], false)
    decreases |s|
  {
    if RunLength(s) > 0 {
      assert s[1..][RunLength(s[1..])..] == s[RunLength(s)..];
      WordStartsSkipRun(s[1..]);
    }
  }

  lemma WordStartsAtSpace(s: string, afterSpace: bool)
    requires s == [] || IsSpace(s[0])
    ensures WordStarts(s, afterSpace) == WordStarts(s, true)
  {
  }

  /** Splitting yields exactly one word per word start. */
  lemma {:induction false} SplitCountsWordStarts(s: string)
    ensures WordCount(s) == WordStarts(s, true)
    decreases |s|
  {
    if s == [] {
    } else if IsSpace(s[0]) {
      SplitCountsWordStarts(s[1..]);
    } else {
      var k := RunLength(s);
      assert RunLength(s[1..]) == k - 1;
      assert s[1..][k - 1..] == s[k..];
      WordStartsSkipRun(s[1..]);
      WordStartsAtSpace(s[k..], false);
      SplitCountsWordStarts(s[k..]);
    }
  }

  /** Splitting loses only whitespace: joining the words gives back every other character. */
  lemma {:induction false} SplitKeepsNonSpace(s: string)
    ensures Concat(Split(s)) == NonSpace(s)
    decreases |s|
  {
    if s == [] {
    } else if IsSpace(s[0]) {
      SplitKeepsNonSpace(s[1..]);
    } else {
      var k := RunLength(s);
      RunIsNonSpace(s, k);
      SplitKeepsNonSpace(s[k..]);
      assert s == s[..k] + s[k..];
      NonSpaceConcat(s[..k], s[k..]);
      assert Concat(Split(s)) == s[..k] + Concat(Split(s[k..]));
    }
  }

  lemma {:induction false} RunIsNonSpace(s: string, k: nat)
    requires k <= |s|
    requires forall i :: 0 <= i < k ==> !IsSpace(s[i])
    ensures NonSpace(s[..k]) == s[..k]
    decreases k
  {
    if k > 0 {
      assert s[..k][1..] == s[1..][..k - 1];
      RunIsNonSpace(s[1..], k - 1);
    }
  }

  lemma {:induction false} NonSpaceConcat(a: string, b: string)
    ensures NonSpace(a + b) == NonSpace(a) + NonSpace(b)
    decreases |a|
  {
    if a == [] {
      assert a + b == b;
    } else {
      assert (a + b)[1..] == a[1..] + b;
      NonSpaceConcat(a[1..], b);
    }
  }

  lemma {:induction false} WordStartsConcat(a: string, b: string, afterSpace: bool)
    ensures WordStarts(a + b, afterSpace)
         == WordStarts(a, afterSpace) + WordStarts(b, EndsAfterSpace(a, afterSpace))
    decreases |a|
  {
    if a == [] {
      assert a + b == b;
    } else {
      assert (a + b)[1..] == a[1..] + b;
      assert EndsAfterSpace(a[1..], IsSpace(a[0])) == EndsAfterSpace(a, afterSpace);
      WordStartsConcat(a[1..], b, IsSpace(a[0]));
    }
  }

  /**
   * Word counts add up across a seam that starts with whitespace (or an
   * empty right part): no word is split or merged at the join.
   */
  lemma WordCountConcat(a: string, b: string)
    requires b == [] || IsSpace(b[0])
    ensures WordCount(a + b) == WordCount(a) + WordCount(b)
  {
    SplitCountsWordStarts(a + b);
    SplitCountsWordStarts(a);
    SplitCountsWordStarts(b);
    WordStartsConcat(a, b, true);
    WordStartsAtSpace(b, EndsAfterSpace(a, true));
  }

  /** A word as `split()` yields it: non-empty, no whitespace. */
  predicate IsWord(w: string) {
    w != [] && forall i :: 0 <= i < |w| ==> !IsSpace(w[i])
  }

  /** The words, each preceded by one space: `"".join(" " + w for w in words)`. */
  function Spaced(words: seq<string>): string {
    if words == [] then [] else " " + words[0] + Spaced(words[1..])
  }

  lemma OneWord(w: string)
    requires IsWord(w)
    ensures WordCount(" " + w) == 1
  {
    var t := " " + w;
    assert t[1..] == w;
    assert Split(t) == Split(w);
    var k := RunLength(w);
    assert k == |w|;
    assert w[k..] == [];
    assert w[..k] == w;
  }

  /** Splitting the spaced words gives back one word per word. */
  lemma {:induction false} SpacedWordCount(words: seq<string>)
    requires forall i :: 0 <= i < |words| ==> IsWord(words[i])
    ensures WordCount(Spaced(words)) == |words|
    ensures words != [] ==> IsSpace(Spaced(words)[0])
    decreases |words|
  {
    if words != [] {
      OneWord(words[0]);
      SpacedWordCount(words[1..]);
      var rest := Spaced(words[1..]);
      assert Spaced(words) == (" " + words[0]) + rest;
      WordCountConcat(" " + words[0], rest);
    }
  }
}
