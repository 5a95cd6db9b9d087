/** How JavaScript renders an integer in a template literal or hands it to a
    regular expression (`String(n)`), and the digit class `[0-9]`. */
module Text {

  predicate IsDigit(c: char) { '0' <= c <= '9' }

  predicate AllDigits(s: string) {
    forall i :: 0 <= i < |s| ==> IsDigit(s[i])
  }

  function DigitChar(d: int): (c: char)
    requires 0 <= d <= 9
    ensures IsDigit(c)
  {
    ('0' as int + d) as char
  }

  /** The decimal digits of a natural number, without leading zeros. */
  function NatString(n: nat): (s: string)
    ensures |s| > 0 && AllDigits(s)
  {
    if n < 10 then [DigitChar(n)] else NatString(n / 10) + [DigitChar(n % 10)]
  }

  /** `String(n)` for an integer n. */
  function IntString(n: int): (s: string)
    ensures |s| > 0
  {
    if n < 0 then "-" + NatString(-n) else NatString(n)
  }

  /** The number a digit string denotes, read most significant digit first. */
  function DecimalValue(s: string): nat
    requires AllDigits(s)
  {
    if s == [] then 0 else DecimalValue(s[..|s| - 1]) * 10 + (s[|s| - 1] as int - '0' as int)
  }

  /** The text of a natural number denotes that number. */
  lemma {:induction false} NatStringValue(n: nat)
    ensures DecimalValue(NatString(n)) == n
  {
    if n >= 10 {
      var s := NatString(n);
      assert s[..|s| - 1] == NatString(n / 10);
      NatStringValue(n / 10);
    }
  }

  /** The text of a natural number starts with '0' only when it is "0". */
  lemma {:induction false} NatStringNoLeadingZero(n: nat)
    ensures NatString(n)[0] == '0' <==> n == 0
  {
    if n >= 10 {
      NatStringNoLeadingZero(n / 10);
      assert NatString(n)[0] == NatString(n / 10)[0];
    }
  }

  /** The text of an integer is its sign, if negative, then the digits that
      denote its magnitude. */
  lemma IntStringValue(n: int)
    ensures n >= 0 ==> AllDigits(IntString(n)) && DecimalValue(IntString(n)) == n
    ensures n < 0 ==> IntString(n)[0] == '-' && AllDigits(IntString(n)[1..]) && DecimalValue(IntString(n)[1..]) == -n
  {
    if n < 0 {
      assert IntString(n)[1..] == NatString(-n);
      NatStringValue(-n);
    } else {
      NatStringValue(n);
    }
  }

  /** `/^[0-9]*$/.test(String(n))` holds exactly for the non-negative integers. */
  lemma DigitsOnlyIffNonNegative(n: int)
    ensures AllDigits(IntString(n)) <==> n >= 0
  {
    if n < 0 {
      assert !IsDigit(IntString(n)[0]);
    }
  }
}
