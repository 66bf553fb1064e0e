/** Python string helpers used by the validators: whitespace as `str.isspace`
    sees it, `str.strip()`, and ASCII character classes. */
module Text {

  /** The characters Python's `str.isspace()` accepts (and `str.strip()` removes). */
  predicate IsSpace(c: char)
  {
    || ('\t' <= c <= '\r')
    || ('\U{1c}' <= c <= '\U{1f}')
    || c == ' ' || c == '\U{85}' || c == '\U{a0}' || c == '\U{1680}'
    || ('\U{2000}' <= c <= '\U{200a}')
    || c == '\U{2028}' || c == '\U{2029}' || c == '\U{202f}' || c == '\U{205f}' || c == '\U{3000}'
  }

  predicate IsUpper(c: char) { 'A' <= c <= 'Z' }
  predicate IsLower(c: char) { 'a' <= c <= 'z' }
  predicate IsDigit(c: char) { '0' <= c <= '9' }

  /** Neither end of `s` is whitespace. */
  predicate Trimmed(s: string)
  {
    s == [] || (!IsSpace(s[0]) && !IsSpace(s[|s| - 1]))
  }

  predicate AllSpace(s: string)
  {
    forall i :: 0 <= i < |s| ==> IsSpace(s[i])
  }

  /** The number of whitespace characters `s` starts with. */
  function LeadingSpace(s: string): (n: nat)
    ensures n <= |s| && AllSpace(s[..n])
    ensures n == |s| || !IsSpace(s[n])
  {
    if s != [] && IsSpace(s[0]) then
      var n := LeadingSpace(s[1..]);
      assert s[..n + 1] == [s[0]] + s[1..][..n];
      n + 1
    else 0
  }

  /** The number of whitespace characters `s` ends with. */
  function TrailingSpace(s: string): (n: nat)
    ensures n <= |s| && AllSpace(s[|s| - n..])
    ensures n == |s| || !IsSpace(s[|s| - n - 1])
  {
    if s != [] && IsSpace(s[|s| - 1]) then
      var n := TrailingSpace(s[..|s| - 1]);
      assert s[|s| - (n + 1)..] == s[..|s| - 1][|s| - 1 - n..] + [s[|s| - 1]];
      n + 1
    else 0
  }

  /** Python's `s.strip()`: `s` without the whitespace at either end. */
  function Strip(s: string): (r: string)
    ensures Trimmed(r)
    ensures |r| <= |s|
  {
    var t := s[LeadingSpace(s)..];
    t[..|t| - TrailingSpace(t)]
  }

  /** Every character of `Strip(s)` is a character of `s`. */
  lemma StripKeepsCharacters(s: string)
    ensures forall c :: c in Strip(s) ==> c in s
  {
    var t := s[LeadingSpace(s)..];
    forall c | c in Strip(s) ensures c in s {
      var k :| 0 <= k < |Strip(s)| && Strip(s)[k] == c;
      assert s[LeadingSpace(s) + k] == c;
    }
  }

  /** A string without whitespace at either end is its own strip. */
  lemma StripTrimmed(s: string)
    requires Trimmed(s)
    ensures Strip(s) == s
  {
    if s != [] {
      assert LeadingSpace(s) == 0;
      assert s[0..] == s;
      assert TrailingSpace(s) == 0;
    }
  }

  /** Stripping twice is stripping once. */
  lemma StripIdempotent(s: string)
    ensures Strip(Strip(s)) == Strip(s)
  {
    StripTrimmed(Strip(s));
  }

  /** `Strip(s)` is empty exactly when `s` holds nothing but whitespace. */
  lemma StripEmptyIffAllSpace(s: string)
    ensures Strip(s) == [] <==> AllSpace(s)
  {
    var a := LeadingSpace(s);
    var t := s[a..];
    if a < |s| {
      assert !IsSpace(s[a]) && t[0] == s[a];
      assert TrailingSpace(t) < |t|;
    } else {
      assert s[..a] == s;
    }
  }

  /** A non-whitespace character lies after the leading whitespace. */
  lemma SolidNotLeading(s: string, k: int)
    requires 0 <= k < |s| && !IsSpace(s[k])
    ensures LeadingSpace(s) <= k
  {
    var a := LeadingSpace(s);
    forall i | 0 <= i < a ensures IsSpace(s[i]) {
      assert s[..a][i] == s[i];
    }
  }

  /** A non-whitespace character lies before the trailing whitespace. */
  lemma SolidNotTrailing(s: string, k: int)
    requires 0 <= k < |s| && !IsSpace(s[k])
    ensures k < |s| - TrailingSpace(s)
  {
    var b := TrailingSpace(s);
    forall i | |s| - b <= i < |s| ensures IsSpace(s[i]) {
      assert s[|s| - b..][i - (|s| - b)] == s[i];
    }
  }

  /** `strip()` removes only whitespace: every other character of `s` stays. */
  lemma StripKeepsSolid(s: string)
    ensures forall c :: c in s && !IsSpace(c) ==> c in Strip(s)
  {
    var a := LeadingSpace(s);
    var t := s[a..];
    forall c | c in s && !IsSpace(c) ensures c in Strip(s) {
      var k :| 0 <= k < |s| && s[k] == c;
      SolidNotLeading(s, k);
      assert t[k - a] == c;
      SolidNotTrailing(t, k - a);
      assert Strip(s)[k - a] == c;
    }
  }
}
