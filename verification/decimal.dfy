/**
 * The decimal rendering of an integer, as a template literal `${n}` produces it
 * for the integral ids used in the batch error message.
 */
module Decimal {

  predicate IsDigit(c: char)
  {
    '0' <= c <= '9'
  }

  predicate AllDigits(s: string)
  {
    forall i :: 0 <= i < |s| ==> IsDigit(s[i])
  }

  function DigitChar(d: nat): (c: char)
    requires d < 10
    ensures IsDigit(c) && c as int - '0' as int == d
  {
    ('0' as int + d) as char
  }

  /** Digits of `n`, most significant first, with no leading zero. */
  function NatToString(n: nat): (s: string)
    ensures |s| >= 1 && AllDigits(s)
    ensures s[0] == '0' <==> n == 0
    decreases n
  {
    if n < 10 then [DigitChar(n)] else NatToString(n / 10) + [DigitChar(n % 10)]
  }

  /** A leading '-' for negative numbers, then the digits of the magnitude. */
  function IntToString(n: int): (s: string)
    ensures |s| >= 1 && (s[0] == '-' <==> n < 0)
    ensures n < 0 ==> |s| >= 2 && AllDigits(s[1..]) && DigitsValue(s[1..]) == -n
    ensures n >= 0 ==> AllDigits(s) && DigitsValue(s) == n
  {
    if n < 0 then
      NatToStringValue(-n);
      var s := "-" + NatToString(-n);
      assert s[1..] == NatToString(-n);
      s
    else
      NatToStringValue(n);
      NatToString(n)
  }

  /** The number a string of digits denotes (the reading direction of NatToString). */
  function DigitsValue(s: string): nat
    requires AllDigits(s)
  {
    if |s| == 0 then 0
    else DigitsValue(s[..|s| - 1]) * 10 + (s[|s| - 1] as int - '0' as int)
  }

  /** Reading back the digits of `n` gives `n`. */
  lemma {:induction false} NatToStringValue(n: nat)
    ensures DigitsValue(NatToString(n)) == n
    decreases n
  {
    if n >= 10 {
      var s := NatToString(n);
      assert s[..|s| - 1] == NatToString(n / 10);
      NatToStringValue(n / 10);
    }
  }

  /** Distinct integers are rendered as distinct strings. */
  lemma IntToStringInjective(a: int, b: int)
    requires IntToString(a) == IntToString(b)
    ensures a == b
  {
  }
}
