/** The decimal text that JavaScript's Number.prototype.toString gives for an integer. */
module Decimal {

  /** The character of one decimal digit. */
  function DigitChar(d: nat): (c: char)
    requires d < 10
    ensures '0' <= c <= '9'
    ensures c as int - '0' as int == d
  {
    (d + '0' as int) as char
  }

  predicate IsDigit(c: char) {
    '0' <= c <= '9'
  }

  predicate AllDigits(s: string) {
    forall i :: 0 <= i < |s| ==> IsDigit(s[i])
  }

  /** Decimal digits of a natural number, most significant first, without leading zeros. */
  function NatToDecimal(n: nat): (s: string)
    ensures |s| >= 1 && AllDigits(s)
    ensures s[0] == '0' <==> n == 0
    ensures n == 0 ==> s == "0"
    decreases n
  {
    if n < 10 then [DigitChar(n)] else NatToDecimal(n / 10) + [DigitChar(n % 10)]
  }

  /** Number.prototype.toString on an integer: a leading '-' for negatives, then the digits. */
  function IntToDecimal(n: int): (s: string)
    ensures |s| >= 1
    ensures s[0] == '-' <==> n < 0
    ensures n >= 0 ==> AllDigits(s) && (s[0] == '0' <==> n == 0)
    ensures n == 0 ==> s == "0"
    ensures n < 0 ==> AllDigits(s[1..]) && |s| >= 2 && s[1] != '0'
  {
    if n < 0 then "-" + NatToDecimal(-n) else NatToDecimal(n)
  }

  /** The value of a string of decimal digits, read left to right. */
  function DigitsValue(s: string): (v: nat)
    requires AllDigits(s)
  {
    if s == [] then 0
    else DigitsValue(s[..|s| - 1]) * 10 + (s[|s| - 1] as int - '0' as int)
  }

  /** The value of an optionally negative decimal numeral: the reading partner of IntToDecimal. */
  function DecimalValue(s: string): (v: int)
    requires |s| >= 1
    requires if s[0] == '-' then AllDigits(s[1..]) else AllDigits(s)
  {
    if s[0] == '-' then 0 - DigitsValue(s[1..]) as int else DigitsValue(s) as int
  }

  /** Reading back the digits of a natural number gives that number. */
  lemma {:induction false} NatDecimalRoundTrip(n: nat)
    ensures DigitsValue(NatToDecimal(n)) == n
    decreases n
  {
    var s := NatToDecimal(n);
    if n < 10 {
      assert s[..|s| - 1] == [];
    } else {
      var prefix := NatToDecimal(n / 10);
      assert s == prefix + [DigitChar(n % 10)];
      assert s[..|s| - 1] == prefix;
      NatDecimalRoundTrip(n / 10);
    }
  }

  /** Reading back the decimal text of any integer gives that integer. */
  lemma IntDecimalRoundTrip(n: int)
    ensures DecimalValue(IntToDecimal(n)) == n
  {
    if n < 0 {
      var s := IntToDecimal(n);
      assert s[1..] == NatToDecimal(-n);
      NatDecimalRoundTrip(-n);
    } else {
      NatDecimalRoundTrip(n);
    }
  }

  /** Distinct integers have distinct decimal texts. */
  lemma IntToDecimalInjective(m: int, n: int)
    requires IntToDecimal(m) == IntToDecimal(n)
    ensures m == n
  {
    IntDecimalRoundTrip(m);
    IntDecimalRoundTrip(n);
  }
}
