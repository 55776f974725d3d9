/**
 * The JavaScript string and array primitives the services rely on:
 * `trim`, `indexOf`/`lastIndexOf`, `findIndex`, `includes`, `substring`,
 * `split(sep)[0]` and `Number.prototype.toString` on integers.
 */
module JsStrings {

  /** The characters `String.prototype.trim` removes: WhiteSpace and LineTerminator
      of ECMA-262 (tab, vertical tab, form feed, space, no-break space, the byte order
      mark, the Unicode space separators, line feed, carriage return, LS and PS). */
  predicate IsJsWhitespace(c: char) {
    var n := c as int;
    n == 0x09 || n == 0x0A || n == 0x0B || n == 0x0C || n == 0x0D || n == 0x20 ||
    n == 0xA0 || n == 0x1680 || (0x2000 <= n <= 0x200A) || n == 0x2028 || n == 0x2029 ||
    n == 0x202F || n == 0x205F || n == 0x3000 || n == 0xFEFF
  }

  /** Number of leading whitespace characters. */
  function LeadingSpace(s: string): (n: nat)
    ensures n <= |s|
    ensures forall i :: 0 <= i < n ==> IsJsWhitespace(s[i])
    ensures n == |s| || !IsJsWhitespace(s[n])
  {
    if |s| > 0 && IsJsWhitespace(s[0]) then 1 + LeadingSpace(s[1..]) else 0
  }

  /** Number of trailing whitespace characters. */
  function TrailingSpace(s: string): (n: nat)
    ensures n <= |s|
    ensures forall i :: |s| - n <= i < |s| ==> IsJsWhitespace(s[i])
    ensures n == |s| || !IsJsWhitespace(s[|s| - n - 1])
  {
    if |s| > 0 && IsJsWhitespace(s[|s| - 1]) then 1 + TrailingSpace(s[..|s| - 1]) else 0
  }

  /** `s.trim()`: the middle of `s` once leading and trailing whitespace is dropped. */
  function Trim(s: string): (r: string)
    ensures LeadingSpace(s) + |r| <= |s|
    ensures r == s[LeadingSpace(s)..LeadingSpace(s) + |r|]
    ensures forall i :: 0 <= i < LeadingSpace(s) ==> IsJsWhitespace(s[i])
    ensures forall i :: LeadingSpace(s) + |r| <= i < |s| ==> IsJsWhitespace(s[i])
    ensures r == [] || (!IsJsWhitespace(r[0]) && !IsJsWhitespace(r[|r| - 1]))
  {
    var a := LeadingSpace(s);
    var rest := s[a..];
    var b := TrailingSpace(rest);
    assert rest == [] || !IsJsWhitespace(rest[0]);
    rest[..|rest| - b]
  }

  /** `s.indexOf(x)` / `s.findIndex(e => e === x)`: the first position holding `x`, or -1. */
  function IndexOf<T(==)>(s: seq<T>, x: T): (r: int)
    ensures -1 <= r < |s|
    ensures r == -1 <==> x !in s
    ensures r >= 0 ==> s[r] == x && forall i :: 0 <= i < r ==> s[i] != x
  {
    if |s| == 0 then -1
    else if s[0] == x then 0
    else
      var k := IndexOf(s[1..], x);
      assert x in s[1..] <==> x in s;
      if k < 0 then -1 else k + 1
  }

  /** `s.lastIndexOf(x)`: the last position holding `x`, or -1. */
  function LastIndexOf<T(==)>(s: seq<T>, x: T): (r: int)
    ensures -1 <= r < |s|
    ensures r == -1 <==> x !in s
    ensures r >= 0 ==> s[r] == x && forall i :: r < i < |s| ==> s[i] != x
  {
    if |s| == 0 then -1
    else if s[|s| - 1] == x then |s| - 1
    else
      assert x in s[..|s| - 1] <==> x in s;
      LastIndexOf(s[..|s| - 1], x)
  }

  /** `d` occurs in `s` starting at position `i`. */
  predicate OccursAt(s: string, d: string, i: int) {
    0 <= i && i + |d| <= |s| && s[i..i + |d|] == d
  }

  /** The position of the first occurrence of the non-empty `d` in `s`, or -1. */
  function FindSub(s: string, d: string): (r: int)
    requires |d| > 0
    ensures -1 <= r <= |s|
    ensures r >= 0 ==> OccursAt(s, d, r)
    ensures forall i :: (r == -1 || i < r) ==> !OccursAt(s, d, i)
  {
    if |s| < |d| then -1
    else if s[..|d|] == d then 0
    else
      var k := FindSub(s[1..], d);
      assert forall i :: OccursAt(s, d, i) && i >= 1 ==> OccursAt(s[1..], d, i - 1) by {
        forall i | OccursAt(s, d, i) && i >= 1 ensures OccursAt(s[1..], d, i - 1) {
          assert s[1..][i - 1..i - 1 + |d|] == s[i..i + |d|];
        }
      }
      if k < 0 then -1
      else
        assert s[1..][k..k + |d|] == s[k + 1..k + 1 + |d|];
        k + 1
  }

  /** `s.split(d)[0]`: the text before the first occurrence of `d`, or all of `s`. */
  function SplitHead(s: string, d: string): (r: string)
    requires |d| > 0
    ensures r <= s
    ensures forall i :: !OccursAt(r, d, i)
    ensures forall i :: 0 <= i < |r| ==> !OccursAt(s, d, i)
    ensures |r| < |s| ==> OccursAt(s, d, |r|)
  {
    var k := FindSub(s, d);
    if k < 0 then s
    else
      var r := s[..k];
      assert forall i :: OccursAt(r, d, i) ==> OccursAt(s, d, i) by {
        forall i | OccursAt(r, d, i) ensures OccursAt(s, d, i) {
          assert r[i..i + |d|] == s[i..i + |d|];
        }
      }
      r
  }

  /** A `substring` argument clamped into `[0, len]`. */
  function Clamp(x: int, len: nat): (r: nat)
    ensures r <= len
    ensures 0 <= x <= len ==> r == x
  {
    if x < 0 then 0 else if x > len then len else x
  }

  /** `s.substring(start, end)`: both ends are clamped to the string and swapped
      when the start lies after the end. */
  function Substring(s: string, start: int, end: int): (r: string)
    ensures 0 <= start <= end <= |s| ==> r == s[start..end]
    ensures end < start && 0 <= end && start <= |s| ==> r == s[end..start]
  {
    var a := Clamp(start, |s|);
    var b := Clamp(end, |s|);
    if a <= b then s[a..b] else s[b..a]
  }

  predicate IsDigit(c: char) {
    '0' <= c <= '9'
  }

  function DigitValue(c: char): (v: nat)
    requires IsDigit(c)
    ensures v < 10
  {
    c as int - '0' as int
  }

  /** The value of a string of decimal digits. */
  function DigitsValue(s: string): nat
    requires forall i :: 0 <= i < |s| ==> IsDigit(s[i])
  {
    if |s| == 0 then 0
    else DigitsValue(s[..|s| - 1]) * 10 + DigitValue(s[|s| - 1])
  }

  /** The decimal numeral of a natural number, without leading zeros. */
  function NatToString(n: nat): (r: string)
    ensures |r| > 0
    ensures forall i :: 0 <= i < |r| ==> IsDigit(r[i])
    ensures r[0] == '0' ==> r == "0"
    ensures DigitsValue(r) == n
  {
    var digit := ['0' + (n % 10) as char];
    if n < 10 then digit
    else
      var prefix := NatToString(n / 10);
      var r := prefix + digit;
      assert r[..|r| - 1] == prefix;
      r
  }

  /** `n.toString()` for an integer: a minus sign before the numeral of `|n|`. */
  function IntToString(n: int): (r: string)
    ensures n >= 0 ==> r == NatToString(n)
    ensures n < 0 ==> r == "-" + NatToString(-n)
  {
    if n < 0 then "-" + NatToString(-n) else NatToString(n)
  }
}
