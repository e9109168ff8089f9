/**
 * The java.lang.String and java.lang.Character operations that the clock
 * label code relies on, over Dafny strings (sequences of chars).
 */
module Strings {

  /**
   * Character.isWhitespace: the Unicode space, line and paragraph separators
   * except the three non-breaking spaces (U+00A0, U+2007, U+202F), plus the
   * controls U+0009..U+000D and U+001C..U+001F. U+180E is a space separator
   * in the Unicode 6 tables the platform shipped with.
   */
  predicate IsWhitespace(c: char) {
    || c == ' '
    || ('\t' <= c <= '\r')
    || ('\U{1C}' <= c <= '\U{1F}')
    || c == '\U{1680}'
    || c == '\U{180E}'
    || ('\U{2000}' <= c <= '\U{2006}')
    || ('\U{2008}' <= c <= '\U{200A}')
    || c == '\U{2028}'
    || c == '\U{2029}'
    || c == '\U{205F}'
    || c == '\U{3000}'
  }

  /** The first position at or after `i` that holds `c`, or -1. */
  function IndexOfCharFrom(s: string, c: char, i: nat): (r: int)
    ensures r == -1 || (i <= r < |s| && s[r] == c)
    ensures forall j :: i <= j < |s| && (r == -1 || j < r) ==> s[j] != c
    decreases |s| - i
  {
    if i >= |s| then -1
    else if s[i] == c then i
    else IndexOfCharFrom(s, c, i + 1)
  }

  /** String.indexOf(char): the first position of `c` in `s`, or -1 when `c` does not occur. */
  function IndexOfChar(s: string, c: char): (r: int)
    ensures -1 <= r < |s|
    ensures r >= 0 ==> s[r] == c
    ensures forall j :: 0 <= j < |s| && (r == -1 || j < r) ==> s[j] != c
  {
    IndexOfCharFrom(s, c, 0)
  }

  /** `t` occurs in `s` starting at position `i`. */
  predicate OccursAt(s: string, t: string, i: int) {
    0 <= i && i + |t| <= |s| && s[i..i + |t|] == t
  }

  /** The first occurrence of `t` at or after `i`, or -1. */
  function IndexOfFrom(s: string, t: string, i: nat): (r: int)
    ensures r == -1 || (i <= r && OccursAt(s, t, r))
    ensures forall j :: i <= j && (r == -1 || j < r) ==> !OccursAt(s, t, j)
    decreases |s| - i
  {
    if i + |t| > |s| then -1
    else if s[i..i + |t|] == t then i
    else IndexOfFrom(s, t, i + 1)
  }

  /** String.indexOf(String): the first occurrence of `t` in `s`, or -1. */
  function IndexOf(s: string, t: string): (r: int)
    ensures r == -1 || OccursAt(s, t, r)
    ensures forall j :: 0 <= j && (r == -1 || j < r) ==> !OccursAt(s, t, j)
  {
    IndexOfFrom(s, t, 0)
  }

  /** The last occurrence of `t` at or before `i`, or -1. */
  function LastIndexOfFrom(s: string, t: string, i: int): (r: int)
    ensures r == -1 || (0 <= r <= i && OccursAt(s, t, r))
    ensures forall j :: j <= i && r < j ==> !OccursAt(s, t, j)
    decreases i + 1
  {
    if i < 0 then -1
    else if OccursAt(s, t, i) then i
    else LastIndexOfFrom(s, t, i - 1)
  }

  /** String.lastIndexOf(String): the last occurrence of `t` in `s`, or -1. */
  function LastIndexOf(s: string, t: string): (r: int)
    ensures r == -1 || OccursAt(s, t, r)
    ensures forall j :: r < j ==> !OccursAt(s, t, j)
  {
    LastIndexOfFrom(s, t, |s| - |t|)
  }

  /** A decimal digit character. */
  predicate IsDigit(c: char) {
    '0' <= c <= '9'
  }

  /** The number a string of decimal digits denotes, most significant digit first. */
  function DigitsValue(s: string): nat
    requires forall k :: 0 <= k < |s| ==> IsDigit(s[k])
  {
    if s == [] then 0
    else
      assert IsDigit(s[|s| - 1]);
      DigitsValue(s[..|s| - 1]) * 10 + (s[|s| - 1] as int - '0' as int)
  }

  /**
   * String.valueOf(int) for a non-negative value: its decimal digits, most
   * significant first, which denote `n`, with no leading zero.
   */
  function Decimal(n: nat): (r: string)
    ensures r != []
    ensures forall k :: 0 <= k < |r| ==> IsDigit(r[k])
    ensures DigitsValue(r) == n
    ensures |r| > 1 ==> r[0] != '0'
    ensures n < 10 ==> |r| == 1
  {
    var digit := ['0' + (n % 10) as char];
    if n < 10 then digit
    else
      var prefix := Decimal(n / 10);
      assert (prefix + digit)[..|prefix + digit| - 1] == prefix;
      prefix + digit
  }
}
