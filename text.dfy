/** The three Python string built-ins the agent relies on: `str.strip()`,
    the substring test `pat in s`, and `str.lower()` (only as far as the
    comparison with "exit" needs it). */
module Text {

  /** `c.isspace()` in Python: exactly the 29 code points Python treats as
      whitespace, which are the ones `str.strip()` with no argument removes. */
  predicate IsSpace(c: char) {
    ('\t' <= c <= '\r') || ('\U{1C}' <= c <= ' ') || c == '\U{85}' || c == '\U{A0}' ||
    c == '\U{1680}' || ('\U{2000}' <= c <= '\U{200A}') || c == '\U{2028}' || c == '\U{2029}' ||
    c == '\U{202F}' || c == '\U{205F}' || c == '\U{3000}'
  }

  /** Every character of `s` is whitespace (this includes the empty string). */
  predicate IsBlank(s: string) {
    forall k :: 0 <= k < |s| ==> IsSpace(s[k])
  }

  /** The number of whitespace characters at the front of `s`. */
  function LeadingSpace(s: string): (n: nat)
    ensures n <= |s|
    ensures forall k :: 0 <= k < n ==> IsSpace(s[k])
    ensures n < |s| ==> !IsSpace(s[n])
  {
    if s != [] && IsSpace(s[0]) then 1 + LeadingSpace(s[1..]) else 0
  }

  /** The number of whitespace characters at the end of `s`. */
  function TrailingSpace(s: string): (n: nat)
    ensures n <= |s|
    ensures forall k :: |s| - n <= k < |s| ==> IsSpace(s[k])
    ensures n < |s| ==> !IsSpace(s[|s| - 1 - n])
  {
    if s != [] && IsSpace(s[|s| - 1]) then 1 + TrailingSpace(s[..|s| - 1]) else 0
  }

  /** `s.strip()`: `s` without its leading and trailing whitespace.  It is
      empty exactly when `s` is all whitespace. */
  function Strip(s: string): (r: string)
    ensures |r| <= |s|
    ensures r == [] <==> IsBlank(s)
  {
    var i := LeadingSpace(s);
    var rest := s[i..];
    var r := rest[..|rest| - TrailingSpace(rest)];
    assert r == [] ==> IsBlank(s) by {
      if r == [] {
        assert rest == rest[|rest| - TrailingSpace(rest)..];
        assert s == s[..i] + rest;
      }
    }
    r
  }

  /** The stripped text is what lies between two blank fringes of `s`. */
  lemma {:induction false} StripFringes(s: string)
    ensures exists i :: 0 <= i <= |s| - |Strip(s)| && s[i..i + |Strip(s)|] == Strip(s) &&
                        IsBlank(s[..i]) && IsBlank(s[i + |Strip(s)|..])
  {
    var i := LeadingSpace(s);
    var rest := s[i..];
    var j := |rest| - TrailingSpace(rest);
    assert Strip(s) == rest[..j];
    assert s[i..i + j] == rest[..j];
    assert s[i + j..] == rest[j..];
    assert IsBlank(s[..i]) by {
      forall k | 0 <= k < i ensures IsSpace(s[..i][k]) { assert s[..i][k] == s[k]; }
    }
    assert IsBlank(rest[j..]) by {
      forall k | 0 <= k < |rest| - j ensures IsSpace(rest[j..][k]) { assert rest[j..][k] == rest[j + k]; }
    }
  }

  /** A non-empty stripped text starts and ends with a non-space character. */
  lemma {:induction false} StripEnds(s: string)
    requires Strip(s) != []
    ensures !IsSpace(Strip(s)[0]) && !IsSpace(Strip(s)[|Strip(s)| - 1])
  {
    var i := LeadingSpace(s);
    var rest := s[i..];
    var j := |rest| - TrailingSpace(rest);
    assert Strip(s) == rest[..j];
    assert Strip(s)[0] == s[i];
    assert Strip(s)[j - 1] == rest[j - 1];
  }

  /** A string that already starts and ends with a non-space character is
      its own stripped form. */
  lemma {:induction false} StripTrimmed(s: string)
    requires s != [] && !IsSpace(s[0]) && !IsSpace(s[|s| - 1])
    ensures Strip(s) == s
  {
    assert LeadingSpace(s) == 0;
    assert s[0..] == s;
    assert TrailingSpace(s) == 0;
  }

  /** Stripping twice is the same as stripping once. */
  lemma {:induction false} StripIdempotent(s: string)
    ensures Strip(Strip(s)) == Strip(s)
  {
    var r := Strip(s);
    if r == [] {
      assert LeadingSpace(r) == 0;
    } else {
      StripEnds(s);
      StripTrimmed(r);
    }
  }

  /** `pat` occurs in `s` starting at index `i`. */
  predicate OccursAt(s: string, pat: string, i: int) {
    0 <= i && i + |pat| <= |s| && s[i..i + |pat|] == pat
  }

  /** Python's `pat in s`, scanning `s` from the left. */
  predicate Contains(s: string, pat: string)
    decreases |s|
  {
    if |pat| > |s| then false
    else pat <= s || (s != [] && Contains(s[1..], pat))
  }

  /** The scan agrees with the definition of a substring: `pat in s` holds
      exactly when `pat` occurs at some index of `s`. */
  lemma {:induction false} ContainsIff(s: string, pat: string)
    ensures Contains(s, pat) <==> exists i :: OccursAt(s, pat, i)
    decreases |s|
  {
    if |pat| > |s| {
    } else if pat <= s {
      assert OccursAt(s, pat, 0);
    } else if s == [] {
    } else {
      ContainsIff(s[1..], pat);
      assert !OccursAt(s, pat, 0);
      forall i | OccursAt(s, pat, i) ensures OccursAt(s[1..], pat, i - 1) {
        assert s[1..][i - 1..i - 1 + |pat|] == s[i..i + |pat|];
      }
      forall i | OccursAt(s[1..], pat, i) ensures OccursAt(s, pat, i + 1) {
        assert s[1..][i..i + |pat|] == s[i + 1..i + 1 + |pat|];
      }
    }
  }

  /** A non-empty pattern that starts with a character absent from `s`
      never occurs in `s`. */
  lemma {:induction false} NotContainsWithoutFirst(s: string, pat: string)
    requires pat != [] && forall k :: 0 <= k < |s| ==> s[k] != pat[0]
    ensures !Contains(s, pat)
  {
    ContainsIff(s, pat);
    forall i | 0 <= i && i + |pat| <= |s| ensures !OccursAt(s, pat, i) {
      assert s[i..i + |pat|][0] == s[i];
    }
  }

  /** The part of `str.lower()` that decides the exit test: ASCII upper-case
      letters map to lower-case.  Every other character is left as it is,
      which is exact for that test: no other code point lowercases to
      'e', 'x', 'i' or 't', and the one that lowercases to two characters
      (U+0130) yields a combining dot that "exit" does not contain. */
  function LowerChar(c: char): char {
    if 'A' <= c <= 'Z' then (c as int + 32) as char else c
  }

  /** `s.lower()`, character by character. */
  function Lower(s: string): (r: string)
    ensures |r| == |s|
  {
    seq(|s|, k requires 0 <= k < |s| => LowerChar(s[k]))
  }
}
