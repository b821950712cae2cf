/**
 * Character and decimal-number helpers shared by the models of the server,
 * the wrapper script and the web client.
 */
module Text {

  datatype Option<T> = None | Some(value: T)

  predicate IsDigit(c: char) {
    '0' <= c <= '9'
  }

  predicate AllDigits(s: string) {
    forall i :: 0 <= i < |s| ==> IsDigit(s[i])
  }

  function DigitChar(d: nat): (c: char)
    requires d < 10
    ensures IsDigit(c) && c as int - '0' as int == d
  {
    ('0' as int + d) as char
  }

  function DigitValue(c: char): nat
    requires IsDigit(c)
  {
    c as int - '0' as int
  }

  function Pow10(k: nat): (p: nat)
    ensures p >= 1
  {
    if k == 0 then 1 else 10 * Pow10(k - 1)
  }

  /** The quotient and remainder of naturals, as a fact the decimal renderer calls up on demand. */
  lemma DivModBounds(a: nat, b: nat)
    requires b > 0
    ensures a / b >= 0 && 0 <= a % b < b
  {
  }

  /** The decimal rendering of a natural number, without leading zeros. */
  function NatToString(n: nat): (s: string)
    ensures |s| >= 1 && AllDigits(s)
    ensures n > 0 ==> s[0] != '0'
  {
    if n < 10 then [DigitChar(n)] else NatToString(n / 10) + [DigitChar(n % 10)]
  }

  /** Exactly `width` digits of `n`, with leading zeros (the fractional part of a decimal). */
  function PaddedDigits(n: nat, width: nat): (s: string)
    requires n < Pow10(width)
    ensures |s| == width && AllDigits(s)
  {
    if width == 0 then [] else PaddedDigits(n / 10, width - 1) + [DigitChar(n % 10)]
  }

  /** The value of a string of decimal digits (leading zeros allowed). */
  function DigitsValue(s: string): nat
    requires AllDigits(s)
  {
    if s == [] then 0 else DigitsValue(s[..|s| - 1]) * 10 + DigitValue(s[|s| - 1])
  }

  lemma {:induction false} DigitsValueOfNatToString(n: nat)
    ensures DigitsValue(NatToString(n)) == n
  {
    var s := NatToString(n);
    if n >= 10 {
      DigitsValueOfNatToString(n / 10);
      assert s[..|s| - 1] == NatToString(n / 10);
    }
  }

  lemma NatToStringInjective(m: nat, n: nat)
    requires NatToString(m) == NatToString(n)
    ensures m == n
  {
    DigitsValueOfNatToString(m);
    DigitsValueOfNatToString(n);
  }

  /** The decimal rendering of an integer, as Python's `str` and JavaScript's `String` give it. */
  function IntToString(i: int): (s: string)
    ensures i < 0 <==> (|s| > 0 && s[0] == '-')
  {
    if i < 0 then "-" + NatToString(-i) else NatToString(i)
  }

  /** The sequence of strings joined with a separator, as `Array.prototype.join` and `str.join` do. */
  function JoinWith(parts: seq<string>, sep: string): string
  {
    if parts == [] then ""
    else if |parts| == 1 then parts[0]
    else parts[0] + sep + JoinWith(parts[1..], sep)
  }

  /** `sub` occurs in `s` at position `k`. */
  predicate OccursAt(sub: string, s: string, k: nat) {
    k + |sub| <= |s| && s[k..k + |sub|] == sub
  }

  /** `sub` occurs somewhere in `s`. */
  ghost predicate IsInfix(sub: string, s: string) {
    exists k: nat :: OccursAt(sub, s, k)
  }

  /** A string occurs in any string that ends with it. */
  lemma InfixAtEnd(a: string, sub: string)
    ensures IsInfix(sub, a + sub)
  {
    assert (a + sub)[|a|..|a| + |sub|] == sub;
    assert OccursAt(sub, a + sub, |a|);
  }

  /** An occurrence survives appending more text. */
  lemma InfixOfExtension(sub: string, s: string, t: string)
    requires IsInfix(sub, s)
    ensures IsInfix(sub, s + t)
  {
    var k: nat :| OccursAt(sub, s, k);
    assert (s + t)[k..k + |sub|] == s[k..k + |sub|];
    assert OccursAt(sub, s + t, k);
  }
}
