/** The location validator of the submit handler: a trimmed query is a single
    region (/^[a-zA-Z]{3,}$/), a city and a country
    (/^[a-zA-Z]{3,}\s+[a-zA-Z]{3,}$/), or invalid, the first pattern that
    matches deciding. */
module LocationValidator {
  import opened JsText

  datatype Classification = SingleRegion | CityCountry | Invalid

  /** /^[a-zA-Z]{3,}$/: a match holds no white space and starts and ends
      with a letter. */
  predicate MatchesSingleRegion(s: string)
    ensures MatchesSingleRegion(s) ==>
      |s| >= 3 && NoWhitespace(s) && IsAsciiLetter(s[0]) && IsAsciiLetter(s[|s| - 1])
  {
    |s| >= 3 && AllLetters(s)
  }

  /** /^[a-zA-Z]{3,}\s+[a-zA-Z]{3,}$/, matched left to right: letters and
      white space are disjoint classes, so the first token is the longest
      letter prefix and the separator the white-space run that follows it.
      A match is at least seven characters long, starts and ends with a
      letter, and its first character that is not a letter is white space. */
  predicate MatchesCityCountry(s: string)
    ensures MatchesCityCountry(s) ==>
      |s| >= 7 && IsAsciiLetter(s[0]) && IsAsciiLetter(s[|s| - 1]) &&
      SkipLetters(s, 0) < |s| && IsWhitespace(s[SkipLetters(s, 0)])
  {
    var a := SkipLetters(s, 0);
    var b := SkipWhitespace(s, a);
    a >= 3 && b > a && |s| - b >= 3 && LettersIn(s, b, |s|)
  }

  /** What the second pattern means: a token of at least three letters on
      [0, i), a non-empty run of white space on [i, j), and another such
      token on [j, |s|). */
  ghost predicate CityCountryShape(s: string) {
    exists i: nat, j: nat :: 3 <= i < j <= |s| - 3 && LettersIn(s, 0, i) &&
                             WhitespaceIn(s, i, j) && LettersIn(s, j, |s|)
  }

  /** A string the left-to-right matcher accepts has the pattern's shape. */
  lemma CityCountryMatchSound(s: string)
    requires MatchesCityCountry(s)
    ensures CityCountryShape(s)
  {
    var a := SkipLetters(s, 0);
    var b := SkipWhitespace(s, a);
    assert LettersIn(s, 0, a) && WhitespaceIn(s, a, b) && LettersIn(s, b, |s|);
  }

  /** A string of the pattern's shape is accepted by the left-to-right
      matcher: the first token ends where the white space starts, and the
      white space ends where the second token starts. */
  lemma CityCountryMatchComplete(s: string)
    requires CityCountryShape(s)
    ensures MatchesCityCountry(s)
  {
    var i: nat, j: nat :| 3 <= i < j <= |s| - 3 && LettersIn(s, 0, i) &&
                          WhitespaceIn(s, i, j) && LettersIn(s, j, |s|);
    assert IsWhitespace(s[i]) && IsAsciiLetter(s[j]);
    SkipLettersExact(s, 0, i);
    SkipWhitespaceExact(s, i, j);
  }

  /** The left-to-right matcher accepts exactly the strings of the
      pattern's shape. */
  lemma CityCountryMatchIff(s: string)
    ensures MatchesCityCountry(s) <==> CityCountryShape(s)
  {
    if MatchesCityCountry(s) {
      CityCountryMatchSound(s);
    }
    if CityCountryShape(s) {
      CityCountryMatchComplete(s);
    }
  }

  /** The two patterns never both match: a single region holds no white
      space. */
  lemma PatternsExclusive(s: string)
    ensures !(MatchesSingleRegion(s) && CityCountryShape(s))
  {
    if CityCountryShape(s) {
      var i: nat, j: nat :| 3 <= i < j <= |s| - 3 && LettersIn(s, 0, i) &&
                            WhitespaceIn(s, i, j) && LettersIn(s, j, |s|);
      assert IsWhitespace(s[i]);
    }
  }

  /** Classification of a trimmed query, the single-region pattern tested
      first: a valid query starts and ends with a letter, a single region
      holds no white space, and a city and a country is at least seven
      characters long. */
  function Classify(s: string): (c: Classification)
    ensures c == SingleRegion <==> MatchesSingleRegion(s)
    ensures c == CityCountry <==> !MatchesSingleRegion(s) && MatchesCityCountry(s)
    ensures c != Invalid ==> |s| >= 3 && IsAsciiLetter(s[0]) && IsAsciiLetter(s[|s| - 1])
    ensures c == SingleRegion ==> NoWhitespace(s)
    ensures c == CityCountry ==> |s| >= 7
  {
    if MatchesSingleRegion(s) then SingleRegion
    else if MatchesCityCountry(s) then CityCountry
    else Invalid
  }

  /** What a classification means: a single region is three or more ASCII
      letters only, a city and a country is the two-token shape, and
      invalid is everything else. */
  lemma ClassifyMeaning(s: string)
    ensures Classify(s) == SingleRegion <==> MatchesSingleRegion(s)
    ensures Classify(s) == CityCountry <==> CityCountryShape(s)
    ensures Classify(s) == Invalid <==> !MatchesSingleRegion(s) && !CityCountryShape(s)
  {
    CityCountryMatchIff(s);
    PatternsExclusive(s);
  }

  /** Three or more letters with any white space around them form a single
      region once trimmed. */
  lemma SingleRegionInput(lead: string, word: string, trail: string)
    requires AllWhitespace(lead) && AllWhitespace(trail)
    requires |word| >= 3 && AllLetters(word)
    ensures Trim(lead + word + trail) == word
    ensures Classify(Trim(lead + word + trail)) == SingleRegion
  {
    TrimPadded(lead, word, trail);
  }

  /** Letters are never white space. */
  lemma LettersHaveNoWhitespace(t: string)
    requires AllLetters(t)
    ensures NoWhitespace(t)
  {
  }

  /** Two letter tokens around a white-space run have the city-and-country
      shape. */
  lemma CityCountryShapeOf(t1: string, w: string, t2: string)
    requires |t1| >= 3 && AllLetters(t1) && |t2| >= 3 && AllLetters(t2)
    requires w != [] && AllWhitespace(w)
    ensures CityCountryShape(t1 + w + t2)
  {
    var s := t1 + w + t2;
    var i, j := |t1|, |t1| + |w|;
    assert LettersIn(s, 0, i) by {
      forall k | 0 <= k < i ensures IsAsciiLetter(s[k]) { assert s[k] == t1[k]; }
    }
    assert WhitespaceIn(s, i, j) by {
      forall k | i <= k < j ensures IsWhitespace(s[k]) { assert s[k] == w[k - i]; }
    }
    assert LettersIn(s, j, |s|) by {
      forall k | j <= k < |s| ensures IsAsciiLetter(s[k]) { assert s[k] == t2[k - j]; }
    }
  }

  /** Two tokens of three or more letters separated by white space, with any
      white space around them, are a city and a country once trimmed, and
      the rewritten query is the two tokens joined by one comma. */
  lemma CityCountryInput(lead: string, t1: string, w: string, t2: string, trail: string)
    requires AllWhitespace(lead) && AllWhitespace(trail)
    requires |t1| >= 3 && AllLetters(t1) && |t2| >= 3 && AllLetters(t2)
    requires w != [] && AllWhitespace(w)
    ensures Trim(lead + (t1 + w + t2) + trail) == t1 + w + t2
    ensures Classify(t1 + w + t2) == CityCountry
    ensures ReplaceWhitespaceRuns(t1 + w + t2) == t1 + [','] + t2
  {
    var s := t1 + w + t2;
    assert !IsWhitespace(s[0]) by { assert s[0] == t1[0]; }
    assert !IsWhitespace(s[|s| - 1]) by { assert s[|s| - 1] == t2[|t2| - 1]; }
    TrimPadded(lead, s, trail);
    CityCountryShapeOf(t1, w, t2);
    ClassifyMeaning(s);
    LettersHaveNoWhitespace(t1);
    LettersHaveNoWhitespace(t2);
    ReplaceBetweenTokens(t1, w, t2);
  }

  /** Fewer than three characters (the empty query among them) never
      validate. */
  lemma ShortQueryInvalid(s: string)
    requires |s| < 3
    ensures Classify(s) == Invalid
  {
  }

  /** A character that is neither an ASCII letter nor white space (a digit,
      punctuation, a non-ASCII letter) makes the query invalid. */
  lemma ForeignCharacterInvalid(s: string, k: nat)
    requires k < |s| && !IsAsciiLetter(s[k]) && !IsWhitespace(s[k])
    ensures Classify(s) == Invalid
  {
    ClassifyMeaning(s);
    forall i: nat, j: nat | 3 <= i < j <= |s| - 3
      ensures !(LettersIn(s, 0, i) && WhitespaceIn(s, i, j) && LettersIn(s, j, |s|))
    {
    }
  }

  /** Three letter tokens separated by white space are invalid: the first
      white-space run is followed by a token that does not run to the end. */
  lemma ThreeTokensInvalid(a: string, w1: string, b: string, w2: string, c: string)
    requires a != [] && b != [] && c != [] && AllLetters(a) && AllLetters(b) && AllLetters(c)
    requires w1 != [] && w2 != [] && AllWhitespace(w1) && AllWhitespace(w2)
    ensures Classify(a + w1 + b + w2 + c) == Invalid
  {
    var s := a + w1 + b + w2 + c;
    var i, j, k := |a|, |a| + |w1|, |a| + |w1| + |b|;
    assert LettersIn(s, 0, i) by {
      forall n | 0 <= n < i ensures IsAsciiLetter(s[n]) { assert s[n] == a[n]; }
    }
    assert WhitespaceIn(s, i, j) by {
      forall n | i <= n < j ensures IsWhitespace(s[n]) { assert s[n] == w1[n - i]; }
    }
    assert s[i] == w1[0] && s[j] == b[0] && s[k] == w2[0];
    SkipLettersExact(s, 0, i);
    SkipWhitespaceExact(s, i, j);
  }
}
