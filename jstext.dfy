/** The two JavaScript string built-ins the submit handler relies on:
    String.prototype.trim and String.prototype.replace with the global
    pattern /\s+/g, both over the ECMAScript white-space set. */
module JsText {

  /** ECMAScript WhiteSpace and LineTerminator code points: the set that
      both `\s` in a regular expression and `trim()` recognise. */
  predicate IsWhitespace(c: char) {
    var n := c as int;
    (0x09 <= n <= 0x0D) || n == 0x20 || n == 0xA0 || n == 0x1680 ||
    (0x2000 <= n <= 0x200A) || n == 0x2028 || n == 0x2029 || n == 0x202F ||
    n == 0x205F || n == 0x3000 || n == 0xFEFF
  }

  /** The regular-expression class [a-zA-Z]. */
  predicate IsAsciiLetter(c: char) {
    ('a' <= c <= 'z') || ('A' <= c <= 'Z')
  }

  /** Every character of s[lo..hi] is white space. */
  predicate WhitespaceIn(s: string, lo: nat, hi: nat)
    requires lo <= hi <= |s|
  {
    forall i :: lo <= i < hi ==> IsWhitespace(s[i])
  }

  /** Every character of s[lo..hi] is an ASCII letter. */
  predicate LettersIn(s: string, lo: nat, hi: nat)
    requires lo <= hi <= |s|
  {
    forall i :: lo <= i < hi ==> IsAsciiLetter(s[i])
  }

  /** No character of s[lo..hi] is white space. */
  predicate NoWhitespaceIn(s: string, lo: nat, hi: nat)
    requires lo <= hi <= |s|
  {
    forall i :: lo <= i < hi ==> !IsWhitespace(s[i])
  }

  predicate AllWhitespace(s: string) {
    WhitespaceIn(s, 0, |s|)
  }

  predicate AllLetters(s: string) {
    LettersIn(s, 0, |s|)
  }

  predicate NoWhitespace(s: string) {
    NoWhitespaceIn(s, 0, |s|)
  }

  /** The end of the white-space run that starts at index i. */
  function SkipWhitespace(s: string, i: nat): (j: nat)
    requires i <= |s|
    ensures i <= j <= |s| && WhitespaceIn(s, i, j)
    ensures j < |s| ==> !IsWhitespace(s[j])
    decreases |s| - i
  {
    if i < |s| && IsWhitespace(s[i]) then SkipWhitespace(s, i + 1) else i
  }

  /** The end of the run of ASCII letters that starts at index i. */
  function SkipLetters(s: string, i: nat): (j: nat)
    requires i <= |s|
    ensures i <= j <= |s| && LettersIn(s, i, j)
    ensures j < |s| ==> !IsAsciiLetter(s[j])
    decreases |s| - i
  {
    if i < |s| && IsAsciiLetter(s[i]) then SkipLetters(s, i + 1) else i
  }

  /** The start of the white-space run that ends at index j. */
  function SkipWhitespaceBack(s: string, j: nat): (i: nat)
    requires j <= |s|
    ensures i <= j && WhitespaceIn(s, i, j)
    ensures 0 < i ==> !IsWhitespace(s[i - 1])
  {
    if 0 < j && IsWhitespace(s[j - 1]) then SkipWhitespaceBack(s, j - 1) else j
  }

  /** A run of white space ended by a character that is not white space
      (or by the end of the string) is the run SkipWhitespace finds. */
  lemma SkipWhitespaceExact(s: string, i: nat, j: nat)
    requires i <= j <= |s| && WhitespaceIn(s, i, j)
    requires j < |s| ==> !IsWhitespace(s[j])
    ensures SkipWhitespace(s, i) == j
  {
  }

  /** The same for runs of letters. */
  lemma SkipLettersExact(s: string, i: nat, j: nat)
    requires i <= j <= |s| && LettersIn(s, i, j)
    requires j < |s| ==> !IsAsciiLetter(s[j])
    ensures SkipLetters(s, i) == j
  {
  }

  /** The same for SkipWhitespaceBack. */
  lemma SkipWhitespaceBackExact(s: string, i: nat, j: nat)
    requires i <= j <= |s| && WhitespaceIn(s, i, j)
    requires 0 < i ==> !IsWhitespace(s[i - 1])
    ensures SkipWhitespaceBack(s, j) == i
  {
  }

  /** String.prototype.trim: the first character that is not white space
      up to and including the last one; the empty string when there is
      none. The result neither starts nor ends with white space. */
  function Trim(s: string): (r: string)
    ensures |r| <= |s|
    ensures r == [] || (!IsWhitespace(r[0]) && !IsWhitespace(r[|r| - 1]))
  {
    var lo := SkipWhitespace(s, 0);
    if lo == |s| then []
    else
      var hi := SkipWhitespaceBack(s, |s|);
      s[lo..hi]
  }

  /** What trim() removes: `s` is white space, then the result, then white
      space. */
  lemma TrimMeaning(s: string)
    ensures exists i: nat :: i + |Trim(s)| <= |s| && Trim(s) == s[i..i + |Trim(s)|] &&
                        WhitespaceIn(s, 0, i) && WhitespaceIn(s, i + |Trim(s)|, |s|)
  {
    var lo := SkipWhitespace(s, 0);
    if lo == |s| {
      assert Trim(s) == s[lo..lo];
    } else {
      var hi := SkipWhitespaceBack(s, |s|);
      assert Trim(s) == s[lo..hi];
    }
  }

  /** Trimming a string that is white space on [0, lo), not white space at
      lo and hi - 1, and white space on [hi, |s|) gives s[lo..hi]. */
  lemma TrimBetween(s: string, lo: nat, hi: nat)
    requires lo < hi <= |s|
    requires WhitespaceIn(s, 0, lo) && WhitespaceIn(s, hi, |s|)
    requires !IsWhitespace(s[lo]) && !IsWhitespace(s[hi - 1])
    ensures Trim(s) == s[lo..hi]
  {
    SkipWhitespaceExact(s, 0, lo);
    SkipWhitespaceBackExact(s, hi, |s|);
  }

  /** Trimming white space, a core that neither starts nor ends with white
      space, and white space gives back exactly the core. */
  lemma TrimPadded(lead: string, core: string, trail: string)
    requires AllWhitespace(lead) && AllWhitespace(trail)
    requires core == [] || (!IsWhitespace(core[0]) && !IsWhitespace(core[|core| - 1]))
    ensures Trim(lead + core + trail) == core
  {
    var s := lead + core + trail;
    var lo, hi := |lead|, |lead| + |core|;
    assert WhitespaceIn(s, 0, lo) by {
      forall k | 0 <= k < lo ensures IsWhitespace(s[k]) { assert s[k] == lead[k]; }
    }
    assert WhitespaceIn(s, hi, |s|) by {
      forall k | hi <= k < |s| ensures IsWhitespace(s[k]) { assert s[k] == trail[k - hi]; }
    }
    if core == [] {
      assert WhitespaceIn(s, 0, |s|);
      SkipWhitespaceExact(s, 0, |s|);
    } else {
      assert s[lo] == core[0] && s[hi - 1] == core[|core| - 1];
      TrimBetween(s, lo, hi);
      assert s[lo..hi] == core;
    }
  }

  /** trim() is idempotent. */
  lemma TrimIdempotent(s: string)
    ensures Trim(Trim(s)) == Trim(s)
  {
    var r := Trim(s);
    if r != [] {
      TrimBetween(r, 0, |r|);
      assert r[0..|r|] == r;
    }
  }

  /** `s.replace(/\s+/g, ",")` from index i on: each maximal run of white
      space becomes one comma and every other character is copied. */
  function ReplaceRunsFrom(s: string, i: nat): (r: string)
    requires i <= |s|
    ensures NoWhitespace(r)
    ensures |r| <= |s| - i
    decreases |s| - i
  {
    if i == |s| then []
    else if IsWhitespace(s[i]) then [','] + ReplaceRunsFrom(s, SkipWhitespace(s, i))
    else [s[i]] + ReplaceRunsFrom(s, i + 1)
  }

  /** `s.replace(/\s+/g, ",")`: the result holds no white space and is
      never longer than the input. */
  function ReplaceWhitespaceRuns(s: string): (r: string)
    ensures NoWhitespace(r)
    ensures |r| <= |s|
  {
    ReplaceRunsFrom(s, 0)
  }

  /** Characters that are not white space are copied as they are. */
  lemma {:induction false} ReplaceRunsCopies(s: string, i: nat, n: nat)
    requires i <= n <= |s| && NoWhitespaceIn(s, i, n)
    ensures ReplaceRunsFrom(s, i) == s[i..n] + ReplaceRunsFrom(s, n)
    decreases n - i
  {
    if i < n {
      var rest := ReplaceRunsFrom(s, n);
      assert ReplaceRunsFrom(s, i) == [s[i]] + ReplaceRunsFrom(s, i + 1);
      ReplaceRunsCopies(s, i + 1, n);
      assert [s[i]] + (s[i + 1..n] + rest) == s[i..n] + rest by {
        assert [s[i]] + s[i + 1..n] == s[i..n];
      }
    }
  }

  /** A string without white space is left as it is. */
  lemma ReplaceWithoutWhitespace(s: string)
    requires NoWhitespace(s)
    ensures ReplaceWhitespaceRuns(s) == s
  {
    ReplaceRunsCopies(s, 0, |s|);
    assert s[0..|s|] == s;
  }

  /** Two tokens without white space separated by one white-space run
      become the two tokens joined by a single comma. */
  lemma ReplaceBetweenTokens(t1: string, w: string, t2: string)
    requires NoWhitespace(t1) && NoWhitespace(t2)
    requires w != [] && AllWhitespace(w)
    ensures ReplaceWhitespaceRuns(t1 + w + t2) == t1 + [','] + t2
  {
    var s := t1 + w + t2;
    var a, b := |t1|, |t1| + |w|;
    assert NoWhitespaceIn(s, 0, a) by {
      forall k | 0 <= k < a ensures !IsWhitespace(s[k]) { assert s[k] == t1[k]; }
    }
    assert WhitespaceIn(s, a, b) by {
      forall k | a <= k < b ensures IsWhitespace(s[k]) { assert s[k] == w[k - a]; }
    }
    assert NoWhitespaceIn(s, b, |s|) by {
      forall k | b <= k < |s| ensures !IsWhitespace(s[k]) { assert s[k] == t2[k - b]; }
    }
    ReplaceRunsCopies(s, 0, a);
    SkipWhitespaceExact(s, a, b);
    assert ReplaceRunsFrom(s, a) == [','] + ReplaceRunsFrom(s, b) by {
      assert IsWhitespace(s[a]);
    }
    ReplaceRunsCopies(s, b, |s|);
    assert ReplaceRunsFrom(s, b) == t2 by {
      assert s[b..|s|] == t2;
      assert ReplaceRunsFrom(s, |s|) == [];
    }
    assert s[0..a] == t1;
  }
}
