/** The two string operations the scorecard relies on: upper-casing
    (`str.upper()`) and the substring test (`kw in s`). The case-insensitive
    `str.contains(..., case=False)` is modelled as a substring test on the
    upper-cased text. Both are modelled on ASCII letters only. */
module Text {

  /** Upper-case one character: ASCII `a`..`z` become `A`..`Z`, everything else is kept. */
  function UpperChar(c: char): char
  {
    if 'a' <= c <= 'z' then (c as int - 32) as char else c
  }

  /** Upper-case a whole string, character by character. */
  function Upper(s: string): (u: string)
    ensures |u| == |s|
  {
    seq(|s|, i requires 0 <= i < |s| => UpperChar(s[i]))
  }

  /** `pat in text`: `pat` occurs somewhere in `text` as a contiguous piece. */
  predicate Contains(text: string, pat: string)
    decreases |text|
  {
    pat <= text || (|text| > 0 && Contains(text[1..], pat))
  }

  /** Upper-casing commutes with concatenation. */
  lemma UpperAppend(a: string, b: string)
    ensures Upper(a + b) == Upper(a) + Upper(b)
  {
    assert forall i :: 0 <= i < |a + b| ==> Upper(a + b)[i] == (Upper(a) + Upper(b))[i];
  }

  /** Appending text after an occurrence keeps it. */
  lemma {:induction false} ContainsAppend(b: string, c: string, pat: string)
    requires Contains(b, pat)
    ensures Contains(b + c, pat)
    decreases |b|
  {
    if pat <= b {
      assert (b + c)[..|pat|] == b[..|pat|];
    } else {
      ContainsAppend(b[1..], c, pat);
      assert (b + c)[1..] == b[1..] + c;
    }
  }

  /** Prepending text before an occurrence keeps it. */
  lemma {:induction false} ContainsPrepend(a: string, b: string, pat: string)
    requires Contains(b, pat)
    ensures Contains(a + b, pat)
    decreases |a|
  {
    if a == [] {
      assert a + b == b;
    } else {
      ContainsPrepend(a[1..], b, pat);
      assert (a + b)[1..] == a[1..] + b;
    }
  }

  /** A text that contains `pat` still contains it once anything is put before and after it. */
  lemma ContainsInfix(a: string, b: string, c: string, pat: string)
    requires Contains(b, pat)
    ensures Contains(a + b + c, pat)
  {
    ContainsAppend(b, c, pat);
    ContainsPrepend(a, b + c, pat);
    assert a + (b + c) == a + b + c;
  }

  /** Every character of a contained pattern is a character of the text; so a
      pattern with a character the text lacks is not contained. */
  lemma {:induction false} ContainsChars(text: string, pat: string, c: char)
    requires Contains(text, pat)
    requires c in pat
    ensures c in text
    decreases |text|
  {
    if pat <= text {
      var i :| 0 <= i < |pat| && pat[i] == c;
      assert text[i] == c;
    } else {
      ContainsChars(text[1..], pat, c);
    }
  }

  /** A pattern holding a character that the text lacks does not occur in it. */
  lemma NotContains(text: string, pat: string, c: char)
    requires c in pat && c !in text
    ensures !Contains(text, pat)
  {
    if Contains(text, pat) {
      ContainsChars(text, pat, c);
    }
  }

  /** Upper-casing leaves a text without ASCII lower-case letters unchanged. */
  lemma UpperNoLower(s: string)
    requires forall i :: 0 <= i < |s| ==> !('a' <= s[i] <= 'z')
    ensures Upper(s) == s
  {
  }

  /** `str.contains(pat, case=False)` for a pattern that is already upper
      case: an ASCII-only stand-in for the case-ignoring regular-expression
      search, which also folds non-ASCII letters. */
  predicate ContainsNoCase(text: string, pat: string)
  {
    Contains(Upper(text), pat)
  }
}
