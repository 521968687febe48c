/**
  String helpers the document assembler relies on: the decimal rendering of a
  number inside a template literal, `String.prototype.replace` with a
  one-character string pattern (which replaces the first occurrence only), and
  the `assetsPath` trailing-slash normalisation of lib/index.js.
*/
module Strings {

  /** The character of the decimal digit `d`. */
  function DigitChar(d: nat): (c: char)
    requires d < 10
    ensures '0' <= c <= '9'
  {
    ('0' as int + d) as char
  }

  /** The value of a decimal digit character. */
  function DigitValue(c: char): (d: nat)
    requires '0' <= c <= '9'
    ensures d < 10 && DigitChar(d) == c
  {
    c as int - '0' as int
  }

  predicate IsDecimal(s: string) {
    forall i :: 0 <= i < |s| ==> '0' <= s[i] <= '9'
  }

  /** How a template literal renders a non-negative integer: its decimal digits, most significant first. */
  function NatToDecimal(n: nat): (s: string)
    ensures |s| >= 1 && IsDecimal(s)
    ensures |s| > 1 ==> s[0] != '0'
  {
    if n < 10 then [DigitChar(n)] else NatToDecimal(n / 10) + [DigitChar(n % 10)]
  }

  /** The number a string of decimal digits denotes (the inverse of NatToDecimal). */
  function DecimalValue(s: string): nat
    requires IsDecimal(s)
  {
    if s == [] then 0 else 10 * DecimalValue(s[..|s| - 1]) + DigitValue(s[|s| - 1])
  }

  /** Reading back the digits of `n` gives `n`. */
  lemma {:induction false} DecimalRoundTrip(n: nat)
    ensures DecimalValue(NatToDecimal(n)) == n
  {
    if n >= 10 {
      var s := NatToDecimal(n);
      assert s[..|s| - 1] == NatToDecimal(n / 10);
      DecimalRoundTrip(n / 10);
    }
  }

  /** Distinct numbers render as distinct strings. */
  lemma NatToDecimalInjective(a: nat, b: nat)
    requires NatToDecimal(a) == NatToDecimal(b)
    ensures a == b
  {
    DecimalRoundTrip(a);
    DecimalRoundTrip(b);
  }

  /**
    `s.replace(target, replacement)` for one-character strings: the first
    occurrence of `target`, if any, becomes `replacement`; every other
    character is kept.
  */
  function ReplaceFirst(s: string, target: char, replacement: char): (r: string)
    ensures |r| == |s|
    ensures forall i :: 0 <= i < |s| ==>
      r[i] == (if s[i] == target && target !in s[..i] then replacement else s[i])
    ensures target !in s ==> r == s
  {
    if s == [] then []
    else if s[0] == target then
      assert forall i :: 1 <= i < |s| ==> s[..i][0] == target;
      [replacement] + s[1..]
    else
      var rest := ReplaceFirst(s[1..], target, replacement);
      SkipFirst(s, target);
      [s[0]] + rest
  }

  /** Past a first character other than `target`, whether `target` occurs before index i is decided by the tail. */
  lemma SkipFirst(s: string, target: char)
    requires s != [] && s[0] != target
    ensures forall i :: 1 <= i < |s| ==> s[1..][i - 1] == s[i] && (target in s[..i] <==> target in s[1..][..i - 1])
  {
    forall i | 1 <= i < |s|
      ensures target in s[..i] <==> target in s[1..][..i - 1]
    {
      assert s[..i] == [s[0]] + s[1..][..i - 1];
    }
  }

  /** `s.endsWith('/')`. */
  predicate EndsWithSlash(s: string) {
    |s| > 0 && s[|s| - 1] == '/'
  }

  /**
    The `assetsPath` setting with a trailing slash: a path that already ends in
    '/' is kept, any other one gets exactly one '/' appended.
  */
  function NormalizeAssetsPath(path: string): (r: string)
    ensures EndsWithSlash(r)
    ensures path <= r && |r| <= |path| + 1
    ensures EndsWithSlash(path) ==> r == path
  {
    if EndsWithSlash(path) then path else path + "/"
  }

  /** Normalising twice is normalising once. */
  lemma NormalizeAssetsPathIdempotent(path: string)
    ensures NormalizeAssetsPath(NormalizeAssetsPath(path)) == NormalizeAssetsPath(path)
  {
  }
}
