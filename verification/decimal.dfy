/**
 * Decimal text of integers, as JavaScript's `Number.prototype.toString()`
 * and template literals produce it for integers below 10^21 in magnitude
 * (larger ones switch to exponent notation), together with the reading
 * that inverts it.
 */
module Decimal {
  import opened JsValues

  predicate IsDigit(c: char) {
    '0' <= c <= '9'
  }

  predicate AllDigits(s: string) {
    forall i :: 0 <= i < |s| ==> IsDigit(s[i])
  }

  function DigitValue(c: char): (d: nat)
    requires IsDigit(c)
    ensures d < 10
  {
    c as int - '0' as int
  }

  function DigitChar(d: nat): (c: char)
    requires d < 10
    ensures IsDigit(c) && DigitValue(c) == d
  {
    ('0' as int + d) as char
  }

  /** The shortest decimal text of `n`: digits only, no leading zero. */
  function NatToString(n: nat): (s: string)
    ensures |s| >= 1 && AllDigits(s)
    ensures s[0] == '0' <==> n == 0
    ensures n < 10 <==> |s| == 1
    decreases n
  {
    if n < 10 then [DigitChar(n)] else NatToString(n / 10) + [DigitChar(n % 10)]
  }

  /** The text of an integer: a minus sign before the digits of a negative one. */
  function IntToString(n: int): (s: string)
    ensures |s| >= 1
    ensures n >= 0 ==> AllDigits(s) && (s[0] == '0' <==> n == 0) && (|s| == 1 <==> n < 10)
    ensures n < 0 ==> s[0] == '-' && |s| >= 2 && AllDigits(s[1..]) && s[1] != '0'
  {
    if n < 0 then "-" + NatToString(-n) else NatToString(n)
  }

  /** The number a string of digits denotes, most significant digit first. */
  function DigitsValue(s: string): nat
    requires AllDigits(s)
    decreases |s|
  {
    if s == [] then 0 else DigitsValue(s[..|s| - 1]) * 10 + DigitValue(s[|s| - 1])
  }

  /** Reads an optionally negative decimal integer; `None` for anything else. */
  function ReadInt(s: string): (r: Option<int>)
    ensures r.Some? ==> |s| >= 1
    ensures r.Some? && r.value < 0 ==> s[0] == '-'
    ensures |s| >= 1 && AllDigits(s) ==> r.Some? && r.value >= 0
  {
    if |s| >= 2 && s[0] == '-' && AllDigits(s[1..]) then Some(0 - DigitsValue(s[1..]) as int)
    else if |s| >= 1 && AllDigits(s) then Some(DigitsValue(s))
    else None
  }

  lemma {:induction false} NatToStringRoundTrip(n: nat)
    ensures DigitsValue(NatToString(n)) == n
    decreases n
  {
    if n >= 10 {
      var prefix := NatToString(n / 10);
      var s := prefix + [DigitChar(n % 10)];
      assert s[..|s| - 1] == prefix;
      NatToStringRoundTrip(n / 10);
    }
  }

  /** Reading the text of any integer gives that integer back. */
  lemma IntToStringRoundTrip(n: int)
    ensures ReadInt(IntToString(n)) == Some(n)
  {
    var s := IntToString(n);
    if n < 0 {
      var digits := NatToString(-n);
      assert s[1..] == digits;
      NatToStringRoundTrip(-n);
      assert ReadInt(s) == Some(0 - DigitsValue(digits) as int);
    } else {
      assert IsDigit(s[0]);
      NatToStringRoundTrip(n);
      assert ReadInt(s) == Some(DigitsValue(s));
    }
  }
}
