/**
 * Decimal text of natural numbers: the rendering JavaScript's
 * `Number.prototype.toString()` gives an integer, and the lenient
 * `parseInt(s) || 0` the dashboard applies to counts.
 */
module Decimal {

  predicate IsDigit(c: char) {
    '0' <= c <= '9'
  }

  predicate AllDigits(s: string) {
    forall i :: 0 <= i < |s| ==> IsDigit(s[i])
  }

  function DigitChar(d: nat): (c: char)
    requires d < 10
    ensures IsDigit(c) && c as int - '0' as int == d
  {
    ('0' as int + d) as char
  }

  function DigitValue(c: char): nat
    requires IsDigit(c)
  {
    c as int - '0' as int
  }

  /** The canonical decimal text of `n`: digits only, no leading zero. */
  function NatToString(n: nat): (s: string)
    ensures |s| >= 1 && AllDigits(s)
    ensures s[0] == '0' <==> n == 0
    ensures n < 10 <==> |s| == 1
    ensures 10 <= n < 100 <==> |s| == 2
  {
    if n < 10 then [DigitChar(n)]
    else NatToString(n / 10) + [DigitChar(n % 10)]
  }

  /** The number a string of decimal digits denotes (most significant digit first). */
  function DigitsValue(s: string): nat
    requires AllDigits(s)
  {
    if s == [] then 0
    else 10 * DigitsValue(s[..|s| - 1]) + DigitValue(s[|s| - 1])
  }

  /** Reading back the text of `n` gives `n`. */
  lemma {:induction false} DigitsValueOfNatToString(n: nat)
    ensures DigitsValue(NatToString(n)) == n
  {
    if n >= 10 {
      var s := NatToString(n);
      assert s[..|s| - 1] == NatToString(n / 10);
      DigitsValueOfNatToString(n / 10);
    }
  }

  /** A leading zero does not change the value of a digit string. */
  lemma {:induction false} LeadingZero(s: string)
    requires AllDigits(s)
    ensures AllDigits("0" + s) && DigitsValue("0" + s) == DigitsValue(s)
  {
    if s != [] {
      assert ("0" + s)[..|s|] == "0" + s[..|s| - 1];
      LeadingZero(s[..|s| - 1]);
    }
  }

  /** Length of the longest prefix of `s` made of digits. */
  function DigitPrefixLength(s: string): (k: nat)
    ensures k <= |s| && AllDigits(s[..k])
    ensures k < |s| ==> !IsDigit(s[k])
  {
    if s == [] || !IsDigit(s[0]) then 0
    else
      var k := 1 + DigitPrefixLength(s[1..]);
      assert s[..k] == [s[0]] + s[1..][..k - 1];
      k
  }

  /**
   * `parseInt(s) || 0`: the value of the leading digits of `s`; when there
   * are none `parseInt` gives NaN, which is falsy, so the result is 0.
   */
  function ParseIntOrZero(s: string): (v: nat)
    ensures AllDigits(s) ==> v == DigitsValue(s)
    ensures v == DigitsValue(s[..DigitPrefixLength(s)])
    ensures s == [] || !IsDigit(s[0]) ==> v == 0
  {
    var k := DigitPrefixLength(s);
    assert AllDigits(s) ==> k == |s|;
    assert s[..|s|] == s;
    if k == 0 then 0 else DigitsValue(s[..k])
  }

  /** `parseInt(n.toString()) || 0` is `n` for every natural number `n`. */
  lemma ParseIntOfNatToString(n: nat)
    ensures ParseIntOrZero(NatToString(n)) == n
  {
    DigitsValueOfNatToString(n);
  }
}
