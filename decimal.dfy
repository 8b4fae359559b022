/**
 Decimal rendering of integers, as the `{}` placeholder of `format!` writes
 an `i64`: an optional minus sign followed by the digits of the magnitude,
 most significant first, without leading zeros ("0" for zero).

 DigitsValue and DecimalValue read a rendering back; they exist so that the
 rendering can be proved injective, which is what makes a name computed
 from a number change whenever the number does.
 */
module Decimal {

  predicate IsDigit(c: char) {
    '0' <= c <= '9'
  }

  predicate IsDigits(s: string) {
    forall i :: 0 <= i < |s| ==> IsDigit(s[i])
  }

  function DigitValue(c: char): (d: nat)
    requires IsDigit(c)
    ensures d < 10
  {
    c as int - '0' as int
  }

  function DigitChar(d: nat): (c: char)
    requires d < 10
    ensures IsDigit(c) && DigitValue(c) == d
  {
    (d + '0' as int) as char
  }

  /** The canonical digits of a natural number. */
  function NatToDecimal(n: nat): (s: string)
    ensures |s| >= 1 && IsDigits(s)
    ensures s[0] == '0' <==> n == 0
    ensures |s| == 1 <==> n < 10
    decreases n
  {
    if n < 10 then [DigitChar(n)] else NatToDecimal(n / 10) + [DigitChar(n % 10)]
  }

  /** The value of a string of digits, most significant digit first. */
  function DigitsValue(s: string): nat
    requires IsDigits(s)
    decreases |s|
  {
    if s == [] then 0 else 10 * DigitsValue(s[..|s| - 1]) + DigitValue(s[|s| - 1])
  }

  lemma {:induction false} NatToDecimalRoundTrip(n: nat)
    ensures DigitsValue(NatToDecimal(n)) == n
    decreases n
  {
    if n >= 10 {
      var s := NatToDecimal(n / 10);
      var t := s + [DigitChar(n % 10)];
      assert t[..|t| - 1] == s;
      NatToDecimalRoundTrip(n / 10);
    }
  }

  /** How `{}` renders an integer. */
  function IntToDecimal(i: int): (s: string)
    ensures |s| >= 1
    ensures s[0] == '-' <==> i < 0
    ensures i < 0 ==> |s| >= 2 && IsDigits(s[1..]) && s[1] != '0'
    ensures i >= 0 ==> IsDigits(s) && (s[0] == '0' <==> i == 0)
    ensures i >= 0 ==> (|s| == 1 <==> i < 10)
    ensures i < 0 ==> (|s| == 2 <==> -10 < i)
  {
    if i < 0 then "-" + NatToDecimal(-i) else NatToDecimal(i)
  }

  /** A string of the shape IntToDecimal produces: an optional sign, then digits. */
  predicate IsDecimal(s: string) {
    |s| >= 1 && (if s[0] == '-' then IsDigits(s[1..]) else IsDigits(s))
  }

  function DecimalValue(s: string): int
    requires IsDecimal(s)
  {
    if s[0] == '-' then -(DigitsValue(s[1..]) as int) else DigitsValue(s)
  }

  lemma IntToDecimalRoundTrip(i: int)
    ensures IsDecimal(IntToDecimal(i)) && DecimalValue(IntToDecimal(i)) == i
  {
    if i < 0 {
      var t := NatToDecimal(-i);
      var s := "-" + t;
      assert s == IntToDecimal(i);
      assert s[0] == '-' && s[1..] == t;
      NatToDecimalRoundTrip(-i);
    } else {
      var s := NatToDecimal(i);
      assert s == IntToDecimal(i);
      assert IsDigit(s[0]);
      NatToDecimalRoundTrip(i);
    }
  }

  /** Two integers render alike exactly when they are equal. */
  lemma IntToDecimalInjective(i: int, j: int)
    ensures IntToDecimal(i) == IntToDecimal(j) <==> i == j
  {
    IntToDecimalRoundTrip(i);
    IntToDecimalRoundTrip(j);
  }
}
