/**
 * The JavaScript string built-ins the core relies on: `String.prototype.trim`,
 * `toLowerCase` (ASCII letters only), `startsWith` and `Array.prototype.join`.
 */
module Text {

  /** ECMAScript WhiteSpace and LineTerminator code points: the characters
      `trim` removes (the Zs category as of Unicode 15). */
  predicate IsJsWhitespace(c: char) {
    var n := c as int;
    (0x9 <= n <= 0xD) || n == 0x20 || n == 0xA0 || n == 0x1680 || (0x2000 <= n <= 0x200A)
    || n == 0x2028 || n == 0x2029 || n == 0x202F || n == 0x205F || n == 0x3000 || n == 0xFEFF
  }

  predicate AllWhitespace(s: string) {
    forall i :: 0 <= i < |s| ==> IsJsWhitespace(s[i])
  }

  /** How many whitespace characters `s` starts with. */
  function LeadingWhitespace(s: string): (n: nat)
    ensures n <= |s|
    ensures forall i :: 0 <= i < n ==> IsJsWhitespace(s[i])
    ensures n < |s| ==> !IsJsWhitespace(s[n])
  {
    if s == [] || !IsJsWhitespace(s[0]) then 0
    else 1 + LeadingWhitespace(s[1..])
  }

  /** Where the whitespace that `s` ends with begins. */
  function TrailingWhitespaceStart(s: string): (n: nat)
    ensures n <= |s|
    ensures forall i :: n <= i < |s| ==> IsJsWhitespace(s[i])
    ensures n > 0 ==> !IsJsWhitespace(s[n - 1])
  {
    if s == [] || !IsJsWhitespace(s[|s| - 1]) then |s|
    else TrailingWhitespaceStart(s[..|s| - 1])
  }

  /** `String.prototype.trim`: the infix of `s` left once its leading and
      trailing whitespace are cut; empty exactly when `s` is all whitespace,
      otherwise starting and ending with a non-whitespace character. */
  function Trim(s: string): (r: string)
    ensures |r| <= |s|
    ensures r == [] <==> AllWhitespace(s)
    ensures r != [] ==> !IsJsWhitespace(r[0]) && !IsJsWhitespace(r[|r| - 1])
    ensures exists i, j :: 0 <= i <= j <= |s| && r == s[i..j]
                           && (forall k :: 0 <= k < i ==> IsJsWhitespace(s[k]))
                           && (forall k :: j <= k < |s| ==> IsJsWhitespace(s[k]))
  {
    var start := LeadingWhitespace(s);
    var end := TrailingWhitespaceStart(s);
    assert start < |s| ==> start < end;
    if start < end then s[start..end] else s[start..start]
  }

  /** Trimming twice is trimming once. */
  lemma TrimIdempotent(s: string)
    ensures Trim(Trim(s)) == Trim(s)
  {
  }

  /** `trim` removes exactly the whitespace around a string that neither
      starts nor ends with whitespace. */
  lemma TrimStripsSurrounding(before: string, s: string, after: string)
    requires AllWhitespace(before) && AllWhitespace(after)
    requires s != [] && !IsJsWhitespace(s[0]) && !IsJsWhitespace(s[|s| - 1])
    ensures Trim(before + s + after) == s
  {
    var whole := before + s + after;
    assert whole[|before|] == s[0] && whole[|before| + |s| - 1] == s[|s| - 1];
    assert whole[|before|..|before| + |s|] == s;
  }

  predicate IsAsciiUpper(c: char) {
    'A' <= c <= 'Z'
  }

  function LowerChar(c: char): (d: char)
    ensures IsAsciiUpper(c) ==> d as int == c as int + 32
    ensures !IsAsciiUpper(c) ==> d == c
  {
    if IsAsciiUpper(c) then (c as int + 32) as char else c
  }

  /** `toLowerCase` restricted to ASCII: each ASCII capital becomes its small
      letter, every other character is kept. */
  function LowerAscii(s: string): (r: string)
    ensures |r| == |s|
    ensures forall i :: 0 <= i < |s| ==> r[i] == LowerChar(s[i])
    ensures forall i :: 0 <= i < |r| ==> !IsAsciiUpper(r[i])
  {
    seq(|s|, i requires 0 <= i < |s| => LowerChar(s[i]))
  }

  /** Lower-casing twice is lower-casing once, and a string with no ASCII
      capitals is its own lower case. */
  lemma LowerAsciiIdempotent(s: string)
    ensures LowerAscii(LowerAscii(s)) == LowerAscii(s)
    ensures (forall i :: 0 <= i < |s| ==> !IsAsciiUpper(s[i])) ==> LowerAscii(s) == s
  {
  }

  /** `startsWith`. */
  predicate StartsWith(s: string, prefix: string) {
    prefix <= s
  }

  /** The summed length of a list of strings. */
  function TotalLength(xs: seq<string>): nat {
    if |xs| == 0 then 0 else |xs[0]| + TotalLength(xs[1..])
  }

  /** `Array.prototype.join`: every element once, in order, with one separator
      between neighbours and none at either end. */
  function Join(xs: seq<string>, sep: string): (r: string)
    ensures |xs| == 0 ==> r == ""
    ensures |xs| > 0 ==> |r| == TotalLength(xs) + (|xs| - 1) * |sep|
    ensures |xs| > 0 ==> StartsWith(r, xs[0])
  {
    if |xs| == 0 then ""
    else if |xs| == 1 then xs[0]
    else xs[0] + sep + Join(xs[1..], sep)
  }
}
