/**
 * The word count shown under the editor (frontend/src/pages/ExtractedTextPage.jsx,
 * line 158): `text.trim() === '' ? 0 : text.trim().split(/\s+/).length`.
 *
 * `String.prototype.trim` and the regular-expression class `\s` use the same
 * set of characters: ECMAScript's WhiteSpace and LineTerminator code points.
 */
module WordCount {

  /** ECMAScript WhiteSpace or LineTerminator (what `trim` strips and `\s` matches). */
  predicate IsSpace(c: char)
  {
    || c == '\t' || c == '\n' || c == '\U{000B}' || c == '\U{000C}' || c == '\r' || c == ' '
    || c == '\U{00A0}' || c == '\U{1680}' || ('\U{2000}' <= c <= '\U{200A}')
    || c == '\U{2028}' || c == '\U{2029}' || c == '\U{202F}' || c == '\U{205F}'
    || c == '\U{3000}' || c == '\U{FEFF}'
  }

  /** The leading whitespace removed: the longest suffix not starting with whitespace. */
  function TrimStart(s: string): (r: string)
    ensures |r| <= |s| && r == s[|s| - |r|..]
    ensures r == [] || !IsSpace(r[0])
    ensures forall i :: 0 <= i < |s| - |r| ==> IsSpace(s[i])
  {
    if s != [] && IsSpace(s[0]) then TrimStart(s[1..]) else s
  }

  /** The trailing whitespace removed: the longest prefix not ending with whitespace. */
  function TrimEnd(s: string): (r: string)
    ensures |r| <= |s| && r == s[..|r|]
    ensures r == [] || !IsSpace(r[|r| - 1])
    ensures forall i :: |r| <= i < |s| ==> IsSpace(s[i])
  {
    if s != [] && IsSpace(s[|s| - 1]) then TrimEnd(s[..|s| - 1]) else s
  }

  /** `t` is `s` with `k` whitespace characters before it and only whitespace after it. */
  ghost predicate TrimmedAt(s: string, t: string, k: int)
  {
    && 0 <= k <= |s| - |t| && t == s[k..k + |t|]
    && (forall i :: 0 <= i < k ==> IsSpace(s[i]))
    && (forall i :: k + |t| <= i < |s| ==> IsSpace(s[i]))
  }

  /** `s.trim()`: the part of `s` between its leading and its trailing whitespace. */
  function Trim(s: string): (t: string)
    ensures t == [] || (!IsSpace(t[0]) && !IsSpace(t[|t| - 1]))
    ensures exists k :: TrimmedAt(s, t, k)
  {
    var ts := TrimStart(s);
    var t := TrimEnd(ts);
    var k := |s| - |ts|;
    assert t != [] ==> t[0] == ts[0];
    assert t == s[k..k + |t|];
    assert TrimmedAt(s, t, k);
    t
  }

  /** No whitespace anywhere in `w`. */
  ghost predicate NoSpace(w: string)
  {
    forall i :: 0 <= i < |w| ==> !IsSpace(w[i])
  }

  /**
   * `s.split(/\s+/)`, continuing a piece `cur` already begun: every maximal
   * run of whitespace ends one piece and starts the next.
   */
  function SplitFrom(s: string, cur: string): (pieces: seq<string>)
    ensures |pieces| >= 1
    ensures NoSpace(cur) ==> forall k :: 0 <= k < |pieces| ==> NoSpace(pieces[k])
    decreases |s|
  {
    if s == [] then [cur]
    else if IsSpace(s[0]) then [cur] + SplitFrom(TrimStart(s), "")
    else SplitFrom(s[1..], cur + [s[0]])
  }

  function Split(s: string): seq<string>
  {
    SplitFrom(s, "")
  }

  /**
   * The editor's word count, as the page computes it. It is the number of
   * words, whatever whitespace surrounds them.
   */
  function Count(text: string): (n: nat)
    ensures n == Words(text)
  {
    var t := Trim(text);
    WordsTrimStart(text);
    WordsTrimEnd(TrimStart(text));
    if t == "" then 0
    else
      assert t[0] == TrimStart(text)[0];
      SplitCountsWords(t, "");
      |Split(t)|
  }

  /** `s` without its leading run of non-whitespace characters. */
  function DropWord(s: string): (r: string)
    ensures |r| <= |s| && r == s[|s| - |r|..]
    ensures r == [] || IsSpace(r[0])
    ensures s != [] && !IsSpace(s[0]) ==> |r| < |s|
    ensures forall i :: 0 <= i < |s| - |r| ==> !IsSpace(s[i])
  {
    if s != [] && !IsSpace(s[0]) then DropWord(s[1..]) else s
  }

  /** Reference definition: the number of maximal runs of non-whitespace characters. */
  function Words(s: string): nat
    decreases |s|
  {
    if s == [] then 0
    else if IsSpace(s[0]) then Words(s[1..])
    else 1 + Words(DropWord(s))
  }

  /** No words at all exactly when the text is all whitespace, which is when it trims to "". */
  lemma CountZeroIffBlank(text: string)
    ensures Count(text) == 0 <==> forall i :: 0 <= i < |text| ==> IsSpace(text[i])
  {
    WordsZeroIffBlank(text);
  }

  /** There are never more words than characters. */
  lemma CountAtMostLength(text: string)
    ensures Count(text) <= |text|
  {
    WordsAtMostLength(text);
  }

  lemma {:induction false} WordsAtMostLength(s: string)
    ensures Words(s) <= |s|
    decreases |s|
  {
    if s != [] {
      if IsSpace(s[0]) {
        WordsAtMostLength(s[1..]);
      } else {
        WordsAtMostLength(DropWord(s));
      }
    }
  }

  lemma {:induction false} WordsZeroIffBlank(s: string)
    ensures Words(s) == 0 <==> forall i :: 0 <= i < |s| ==> IsSpace(s[i])
    decreases |s|
  {
    if s != [] && IsSpace(s[0]) {
      WordsZeroIffBlank(s[1..]);
      assert forall i :: 1 <= i < |s| ==> s[i] == s[1..][i - 1];
    }
  }

  /** Leading whitespace holds no word. */
  lemma {:induction false} WordsTrimStart(s: string)
    ensures Words(TrimStart(s)) == Words(s)
    decreases |s|
  {
    if s != [] && IsSpace(s[0]) {
      WordsTrimStart(s[1..]);
    }
  }

  /** Whitespace appended after a word-free string adds no word. */
  lemma {:induction false} WordsBlank(w: string)
    requires forall i :: 0 <= i < |w| ==> IsSpace(w[i])
    ensures Words(w) == 0
    decreases |w|
  {
    if w != [] {
      WordsBlank(w[1..]);
    }
  }

  /** Dropping a leading word commutes with appending whitespace. */
  lemma {:induction false} DropWordAppendBlank(t: string, w: string)
    requires forall i :: 0 <= i < |w| ==> IsSpace(w[i])
    ensures DropWord(t + w) == DropWord(t) + w
    decreases |t|
  {
    if t == [] {
      assert t + w == w;
    } else if !IsSpace(t[0]) {
      assert (t + w)[1..] == t[1..] + w;
      DropWordAppendBlank(t[1..], w);
    } else {
      assert DropWord(t + w) == t + w;
    }
  }

  /** Trailing whitespace holds no word. */
  lemma {:induction false} WordsAppendBlank(t: string, w: string)
    requires forall i :: 0 <= i < |w| ==> IsSpace(w[i])
    ensures Words(t + w) == Words(t)
    decreases |t|
  {
    if t == [] {
      assert t + w == w;
      WordsBlank(w);
    } else if IsSpace(t[0]) {
      assert (t + w)[1..] == t[1..] + w;
      WordsAppendBlank(t[1..], w);
    } else {
      DropWordAppendBlank(t, w);
      WordsAppendBlank(DropWord(t), w);
    }
  }

  lemma WordsTrimEnd(s: string)
    ensures Words(TrimEnd(s)) == Words(s)
  {
    var t := TrimEnd(s);
    var w := s[|t|..];
    assert s == t + w;
    WordsAppendBlank(t, w);
  }

  /**
   * Splitting a string that ends in a non-whitespace character gives one piece
   * per word, plus an empty first piece when it starts with whitespace.
   */
  lemma {:induction false} SplitCountsWords(s: string, cur: string)
    requires s != [] && !IsSpace(s[|s| - 1])
    ensures |SplitFrom(s, cur)| == Words(s) + (if IsSpace(s[0]) then 1 else 0)
    decreases |s|
  {
    if IsSpace(s[0]) {
      var d := TrimStart(s);
      assert d != [] && d[|d| - 1] == s[|s| - 1];
      SplitCountsWords(d, "");
      WordsTrimStart(s);
    } else if |s| > 1 {
      SplitCountsWords(s[1..], cur + [s[0]]);
      if IsSpace(s[1]) {
        assert DropWord(s) == s[1..];
      } else {
        assert DropWord(s) == DropWord(s[1..]);
      }
    } else {
      assert DropWord(s) == [];
    }
  }
}
