/**
 * Decimal text of deployment and run identifiers: `Number.prototype.toString()`
 * on a non-negative integer, and `parseInt(text, 10)` reading it back.
 */
module Decimal {
  import opened Wrappers

  predicate IsDigit(c: char) {
    '0' <= c <= '9'
  }

  predicate AllDigits(s: string) {
    forall i :: 0 <= i < |s| ==> IsDigit(s[i])
  }

  function DigitValue(c: char): (d: nat)
    requires IsDigit(c)
    ensures d < 10
  {
    (c as int) - ('0' as int)
  }

  function DigitChar(d: nat): (c: char)
    requires d < 10
    ensures IsDigit(c) && DigitValue(c) == d
  {
    (('0' as int) + d) as char
  }

  /**
   * `n.toString()`: the canonical decimal numeral of `n`, never empty,
   * digits only, and without a leading zero unless `n` is zero.
   */
  function FromNat(n: nat): (s: string)
    ensures |s| >= 1
    ensures AllDigits(s)
    ensures s[0] == '0' ==> n == 0 && |s| == 1
    decreases n
  {
    if n < 10 then [DigitChar(n)] else FromNat(n / 10) + [DigitChar(n % 10)]
  }

  /** The value of a string of decimal digits, most significant first. */
  function ValueOf(digits: string): nat
    requires AllDigits(digits)
  {
    if |digits| == 0 then 0
    else ValueOf(digits[..|digits| - 1]) * 10 + DigitValue(digits[|digits| - 1])
  }

  /** Length of the longest prefix of `s` made of decimal digits. */
  function DigitPrefixLength(s: string): (k: nat)
    ensures k <= |s|
    ensures AllDigits(s[..k])
    ensures k < |s| ==> !IsDigit(s[k])
  {
    if |s| == 0 || !IsDigit(s[0]) then 0
    else
      var k := 1 + DigitPrefixLength(s[1..]);
      assert s[..k] == [s[0]] + s[1..][..k - 1];
      k
  }

  /**
   * `parseInt(s, 10)` on strings without leading blanks or sign: the value of
   * the longest leading run of digits, or `None` (NaN) when `s` does not start
   * with a digit.
   */
  function ParseInt(s: string): (r: Option<nat>)
    ensures r.None? <==> (|s| == 0 || !IsDigit(s[0]))
    ensures AllDigits(s) && |s| > 0 ==> r == Some(ValueOf(s))
  {
    var k := DigitPrefixLength(s);
    if k == 0 then None
    else
      assert AllDigits(s) ==> k == |s| && s[..k] == s;
      Some(ValueOf(s[..k]))
  }

  /** Reading a numeral back gives the number it was written from. */
  lemma {:induction false} ValueOfFromNat(n: nat)
    ensures ValueOf(FromNat(n)) == n
    decreases n
  {
    if n >= 10 {
      var s := FromNat(n);
      var front := FromNat(n / 10);
      assert s[..|s| - 1] == front;
      ValueOfFromNat(n / 10);
    }
  }

  /** The id round trip: `parseInt(n.toString(), 10) == n`. */
  lemma ParseIntFromNat(n: nat)
    ensures ParseInt(FromNat(n)) == Some(n)
  {
    ValueOfFromNat(n);
  }
}
