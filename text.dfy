/**
 * String operations of JavaScript that the storefront relies on, on strings
 * modelled as sequences of characters.
 */
module Text {

  /** `s.startsWith(prefix)` */
  predicate StartsWith(s: string, prefix: string) {
    |prefix| <= |s| && s[..|prefix|] == prefix
  }

  /** `s.includes(part)`: `part` occurs at some position of `s`. */
  predicate Includes(s: string, part: string)
    decreases |s|
  {
    StartsWith(s, part) || (|s| > 0 && Includes(s[1..], part))
  }

  /** The characters matched by `\d` in a JavaScript regular expression. */
  predicate IsDigit(c: char) {
    '0' <= c <= '9'
  }

  predicate AllDigits(s: string) {
    forall i :: 0 <= i < |s| ==> IsDigit(s[i])
  }

  /**
   * The characters matched by `\s` in a JavaScript regular expression:
   * the WhiteSpace and LineTerminator code points of ECMAScript.
   */
  predicate IsSpace(c: char) {
    c == '\t' || c == '\n' || c == '\U{B}' || c == '\U{C}' || c == '\r' || c == ' '
    || c == '\U{A0}' || c == '\U{1680}' || ('\U{2000}' <= c <= '\U{200A}')
    || c == '\U{2028}' || c == '\U{2029}' || c == '\U{202F}' || c == '\U{205F}'
    || c == '\U{3000}' || c == '\U{FEFF}'
  }

  /** `toLowerCase()` on the ASCII letters; other characters are kept. */
  function LowerChar(c: char): (r: char)
    ensures 'A' <= c <= 'Z' ==> 'a' <= r <= 'z'
    ensures !('A' <= c <= 'Z') ==> r == c
  {
    if 'A' <= c <= 'Z' then (c as int + 32) as char else c
  }

  function ToLower(s: string): (r: string)
    ensures |r| == |s|
    ensures forall i :: 0 <= i < |s| ==> r[i] == LowerChar(s[i])
  {
    if s == [] then [] else [LowerChar(s[0])] + ToLower(s[1..])
  }

  /** Decimal rendering of a natural number, as `String(n)` gives it. */
  function NatToString(n: nat): (r: string)
    ensures |r| > 0 && AllDigits(r)
    decreases n
  {
    var d := ['0' + (n % 10) as char];
    if n < 10 then d else NatToString(n / 10) + d
  }

  /** Decimal rendering of an integer, with a leading '-' when negative. */
  function IntToString(n: int): (r: string)
    ensures |r| > 0
  {
    if n < 0 then "-" + NatToString(-n) else NatToString(n)
  }

  /** `part` occurs in `s` starting at index `i`. */
  predicate OccursAt(s: string, part: string, i: nat) {
    i + |part| <= |s| && s[i..i + |part|] == part
  }

  /** `Includes` holds exactly when `part` occurs at some index of `s`. */
  lemma {:induction false} IncludesIffOccurs(s: string, part: string)
    ensures Includes(s, part) <==> exists i: nat :: OccursAt(s, part, i)
    decreases |s|
  {
    if StartsWith(s, part) {
      assert OccursAt(s, part, 0);
    } else if |s| > 0 {
      IncludesIffOccurs(s[1..], part);
      if Includes(s[1..], part) {
        var i: nat :| OccursAt(s[1..], part, i);
        assert s[i + 1..i + 1 + |part|] == s[1..][i..i + |part|];
        assert OccursAt(s, part, i + 1);
      }
      forall i: nat | OccursAt(s, part, i)
        ensures Includes(s[1..], part)
      {
        if i > 0 {
          assert s[1..][i - 1..i - 1 + |part|] == s[i..i + |part|];
          assert OccursAt(s[1..], part, i - 1);
        }
      }
    }
  }

  /** Lower-casing twice is lower-casing once. */
  lemma ToLowerIdempotent(s: string)
    ensures ToLower(ToLower(s)) == ToLower(s)
  {
  }
}
