/** Decimal rendering of integers, as Python's `str(n)`, `%d` and f-string
    formatting produce it: an optional minus sign followed by the digits of
    the magnitude, without leading zeros. Charges are negative in general, so
    the sign matters. `ParseInt` is the inverse used to prove the rendering
    loses nothing.
 */
module Decimal {

  predicate IsDigit(c: char) {
    '0' <= c <= '9'
  }

  function DigitChar(d: nat): (c: char)
    requires d < 10
    ensures IsDigit(c)
    ensures DigitValue(c) == d
  {
    ('0' as int + d) as char
  }

  function DigitValue(c: char): (d: nat)
    requires IsDigit(c)
    ensures d < 10
  {
    c as int - '0' as int
  }

  predicate AllDigits(s: string) {
    forall k :: 0 <= k < |s| ==> IsDigit(s[k])
  }

  /** The digits of `n`, most significant first. */
  function NatToString(n: nat): (s: string)
    ensures |s| >= 1
    ensures AllDigits(s)
    ensures s[0] == '0' ==> n == 0 && |s| == 1
  {
    if n < 10 then [DigitChar(n)] else NatToString(n / 10) + [DigitChar(n % 10)]
  }

  /** The value of a string of decimal digits (the empty string is 0). */
  function ParseDigits(s: string): nat
    requires AllDigits(s)
  {
    if |s| == 0 then 0 else ParseDigits(s[..|s| - 1]) * 10 + DigitValue(s[|s| - 1])
  }

  lemma {:induction false} ParseNatToString(n: nat)
    ensures ParseDigits(NatToString(n)) == n
  {
    var s := NatToString(n);
    if n >= 10 {
      ParseNatToString(n / 10);
      assert s[..|s| - 1] == NatToString(n / 10);
    }
  }

  /** Python's `str(i)` for an integer `i`. */
  function IntToString(i: int): (s: string)
    ensures |s| >= 1
    ensures s[0] == '-' <==> i < 0
    ensures forall k :: 0 <= k < |s| ==> IsDigit(s[k]) || (k == 0 && s[k] == '-')
    ensures s[0] == '0' ==> s == "0"
    ensures s[0] == '-' ==> |s| >= 2 && s[1] != '0'
  {
    if i < 0 then "-" + NatToString(-i) else NatToString(i)
  }

  predicate IsNumeral(s: string) {
    && |s| >= 1
    && forall k :: 0 <= k < |s| ==> IsDigit(s[k]) || (k == 0 && s[k] == '-')
  }

  function ParseInt(s: string): int
    requires IsNumeral(s)
  {
    if s[0] == '-' then -(ParseDigits(s[1..]) as int) else ParseDigits(s)
  }

  /** Rendering an integer loses nothing: parsing gives it back. */
  lemma IntToStringRoundTrip(i: int)
    ensures IsNumeral(IntToString(i))
    ensures ParseInt(IntToString(i)) == i
  {
    var s := IntToString(i);
    if i < 0 {
      assert s[1..] == NatToString(-i);
      ParseNatToString(-i);
    } else {
      ParseNatToString(i);
    }
  }

  /** Distinct integers render to distinct strings. */
  lemma IntToStringInjective(a: int, b: int)
    ensures IntToString(a) == IntToString(b) ==> a == b
  {
    IntToStringRoundTrip(a);
    IntToStringRoundTrip(b);
  }

  /** The rendering never contains the placeholder delimiter. */
  lemma IntToStringHasNoDollar(i: int)
    ensures '$' !in IntToString(i)
  {
  }
}
