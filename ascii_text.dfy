/**
 * The two string operations the risk classifier relies on: ASCII-only
 * lower-casing (Rust's `str::to_ascii_lowercase`) and substring search
 * (Rust's `str::contains` with a `&str` pattern). Strings are sequences of
 * characters; only the 26 letters 'A'..'Z' are ever changed.
 */
module AsciiText {

  predicate IsAsciiUpper(c: char) {
    'A' <= c <= 'Z'
  }

  /** Maps 'A'..'Z' to 'a'..'z' and leaves every other character alone. */
  function AsciiLower(c: char): (r: char)
    ensures IsAsciiUpper(c) ==> 'a' <= r <= 'z' && r as int - 'a' as int == c as int - 'A' as int
    ensures !IsAsciiUpper(c) ==> r == c
    ensures !IsAsciiUpper(r)
  {
    if IsAsciiUpper(c) then (c as int + ('a' as int - 'A' as int)) as char else c
  }

  /** Lower-cases every ASCII letter of `s`, keeping its length and every other character. */
  function ToAsciiLower(s: string): (r: string)
    ensures |r| == |s|
    ensures forall i :: 0 <= i < |s| ==> r[i] == AsciiLower(s[i])
  {
    if s == [] then [] else [AsciiLower(s[0])] + ToAsciiLower(s[1..])
  }

  /** `pat` occurs in `s` starting at position `i`. */
  predicate OccursAt(s: string, pat: string, i: int) {
    0 <= i && i + |pat| <= |s| && s[i..i + |pat|] == pat
  }

  /**
   * Substring search as a scan: `pat` is a prefix of `s` or occurs in the
   * tail. As in Rust, the empty pattern occurs in every string.
   */
  predicate Contains(s: string, pat: string)
    decreases |s|
  {
    pat <= s || (|s| > 0 && Contains(s[1..], pat))
  }

  /** The scan agrees with the positional definition of an occurrence. */
  lemma {:induction false} ContainsIff(s: string, pat: string)
    ensures Contains(s, pat) <==> exists i :: OccursAt(s, pat, i)
    decreases |s|
  {
    if pat <= s {
      assert OccursAt(s, pat, 0);
    } else if |s| == 0 {
      assert |pat| > 0;
    } else {
      ContainsIff(s[1..], pat);
      if Contains(s[1..], pat) {
        var j :| OccursAt(s[1..], pat, j);
        assert s[1..][j..j + |pat|] == s[j + 1..j + 1 + |pat|];
        assert OccursAt(s, pat, j + 1);
      }
      forall i | OccursAt(s, pat, i) ensures Contains(s[1..], pat) {
        if i > 0 {
          assert s[1..][i - 1..i - 1 + |pat|] == s[i..i + |pat|];
          assert OccursAt(s[1..], pat, i - 1);
        }
      }
    }
  }

  /** A pattern placed anywhere inside a string is found by the scan. */
  lemma ContainsInfix(a: string, pat: string, b: string)
    ensures Contains(a + pat + b, pat)
  {
    var s := a + pat + b;
    assert s[|a|..|a| + |pat|] == pat;
    assert OccursAt(s, pat, |a|);
    ContainsIff(s, pat);
  }

  /** Lower-casing a string twice is the same as lower-casing it once. */
  lemma ToAsciiLowerIdempotent(s: string)
    ensures ToAsciiLower(ToAsciiLower(s)) == ToAsciiLower(s)
  {
  }

  /** Lower-casing works character by character, so it distributes over concatenation. */
  lemma ToAsciiLowerConcat(a: string, b: string)
    ensures ToAsciiLower(a + b) == ToAsciiLower(a) + ToAsciiLower(b)
  {
  }
}
