/** The two string operations the chat loop applies to its input: Rust's
    `str::trim` (blank-line test of the stdin branch) and `str::contains`
    (the reset test of the connection-closed branch). */
module Text {

  /** Rust's `char::is_whitespace`: the Unicode `White_Space` property. */
  predicate IsWhitespace(c: char) {
    var n := c as int;
    (0x09 <= n <= 0x0D) || n == 0x20 || n == 0x85 || n == 0xA0 || n == 0x1680
    || (0x2000 <= n <= 0x200A) || n == 0x2028 || n == 0x2029 || n == 0x202F
    || n == 0x205F || n == 0x3000
  }

  /** Every character of `s` at an index in `[lo, hi)` is whitespace. */
  predicate WhitespaceBetween(s: string, lo: int, hi: int) {
    forall i :: lo <= i < hi ==> 0 <= i < |s| && IsWhitespace(s[i])
  }

  predicate AllWhitespace(s: string) {
    WhitespaceBetween(s, 0, |s|)
  }

  /** The index of the first character at or after `i` that is not
      whitespace, or `|s|` if there is none. */
  function SkipWhitespace(s: string, i: nat): (n: nat)
    requires i <= |s|
    ensures i <= n <= |s| && WhitespaceBetween(s, i, n)
    ensures n == |s| || !IsWhitespace(s[n])
    decreases |s| - i
  {
    if i < |s| && IsWhitespace(s[i]) then SkipWhitespace(s, i + 1) else i
  }

  /** The index just past the last character before `j` that is not
      whitespace, but no lower than `lo`. */
  function SkipWhitespaceBack(s: string, lo: nat, j: nat): (n: nat)
    requires lo <= j <= |s|
    ensures lo <= n <= j && WhitespaceBetween(s, n, j)
    ensures n == lo || !IsWhitespace(s[n - 1])
    decreases j
  {
    if lo < j && IsWhitespace(s[j - 1]) then SkipWhitespaceBack(s, lo, j - 1) else j
  }

  /** `str::trim`: the slice of the input between its leading and its
      trailing whitespace. Everything cut off is whitespace, and the result
      neither starts nor ends with whitespace. */
  function Trim(s: string): (r: string)
    ensures var a := SkipWhitespace(s, 0);
      && a + |r| <= |s|
      && r == s[a..a + |r|]
      && WhitespaceBetween(s, 0, a)
      && WhitespaceBetween(s, a + |r|, |s|)
    ensures r == [] || (!IsWhitespace(r[0]) && !IsWhitespace(r[|r| - 1]))
  {
    var a := SkipWhitespace(s, 0);
    s[a..SkipWhitespaceBack(s, a, |s|)]
  }

  /** `line.trim().is_empty()`. */
  predicate IsBlank(s: string) {
    Trim(s) == []
  }

  /** A line is blank exactly when every one of its characters is whitespace. */
  lemma BlankIffAllWhitespace(s: string)
    ensures IsBlank(s) <==> AllWhitespace(s)
  {
    var a := SkipWhitespace(s, 0);
    if a < |s| {
      assert SkipWhitespaceBack(s, a, |s|) > a;
      assert !IsWhitespace(s[a]);
    }
  }

  predicate StartsWith(s: string, prefix: string) {
    |prefix| <= |s| && s[..|prefix|] == prefix
  }

  /** `str::contains` with a string pattern, scanning left to right. */
  predicate Contains(text: string, pattern: string)
    decreases |text|
  {
    StartsWith(text, pattern) || (|text| > 0 && Contains(text[1..], pattern))
  }

  /** `pattern` occurs in `text` starting at index `i`. */
  predicate OccursAt(text: string, pattern: string, i: int) {
    0 <= i && i + |pattern| <= |text| && text[i..i + |pattern|] == pattern
  }

  /** The scan finds the pattern exactly when it occurs somewhere. */
  lemma {:induction false} ContainsIff(text: string, pattern: string)
    ensures Contains(text, pattern) <==> exists i :: OccursAt(text, pattern, i)
    decreases |text|
  {
    if Contains(text, pattern) {
      if StartsWith(text, pattern) {
        assert OccursAt(text, pattern, 0);
      } else {
        ContainsIff(text[1..], pattern);
        var j :| OccursAt(text[1..], pattern, j);
        assert text[1..][j..j + |pattern|] == text[j + 1..j + 1 + |pattern|];
        assert OccursAt(text, pattern, j + 1);
      }
    }
    forall i | OccursAt(text, pattern, i) ensures Contains(text, pattern) {
      if i == 0 {
        assert text[..|pattern|] == text[i..i + |pattern|];
      } else {
        assert text[1..][i - 1..i - 1 + |pattern|] == text[i..i + |pattern|];
        assert OccursAt(text[1..], pattern, i - 1);
        ContainsIff(text[1..], pattern);
      }
    }
  }
}
