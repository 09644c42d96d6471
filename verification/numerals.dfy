/** Decimal rendering of integers, as Python's `str(int)` and f-strings
    produce it, together with its inverse on digit strings. */
module Numerals {

  predicate IsDigit(c: char)
  {
    '0' <= c <= '9'
  }

  predicate AllDigits(s: string)
  {
    forall i :: 0 <= i < |s| ==> IsDigit(s[i])
  }

  function DigitChar(d: nat): (c: char)
    requires d < 10
    ensures IsDigit(c)
  {
    "0123456789"[d]
  }

  function DigitValue(c: char): nat
    requires IsDigit(c)
  {
    (c as int - '0' as int) as nat
  }

  /** The shortest decimal numeral of `n` (no sign, no leading zeros). */
  function NatToString(n: nat): (s: string)
    ensures |s| >= 1
    ensures AllDigits(s)
    ensures n >= 10 ==> s[0] != '0'
    decreases n
  {
    if n < 10 then [DigitChar(n)]
    else NatToString(n / 10) + [DigitChar(n % 10)]
  }

  /** `str(i)` for a Python int: a leading minus sign for negative values. */
  function IntToString(i: int): (s: string)
    ensures i >= 0 ==> AllDigits(s)
    ensures i < 0 ==> |s| >= 2 && s[0] == '-' && AllDigits(s[1..])
  {
    if i < 0 then "-" + NatToString(-i) else NatToString(i)
  }

  /** Reads a string of digits back as a number. */
  function ParseNat(s: string): nat
    requires AllDigits(s)
  {
    if |s| == 0 then 0
    else ParseNat(s[..|s| - 1]) * 10 + DigitValue(s[|s| - 1])
  }

  lemma DigitRoundTrip(d: nat)
    requires d < 10
    ensures DigitValue(DigitChar(d)) == d
  {
    assert "0123456789"[0] == '0';
    assert "0123456789"[d] as int == '0' as int + d by {
      if d == 0 {} else if d == 1 {} else if d == 2 {} else if d == 3 {}
      else if d == 4 {} else if d == 5 {} else if d == 6 {} else if d == 7 {}
      else if d == 8 {} else {}
    }
  }

  /** Reading the numeral of `n` gives `n` back. */
  lemma {:induction false} ParseNatToString(n: nat)
    ensures ParseNat(NatToString(n)) == n
    decreases n
  {
    if n < 10 {
      DigitRoundTrip(n);
    } else {
      var s := NatToString(n);
      var head := NatToString(n / 10);
      assert s == head + [DigitChar(n % 10)];
      assert s[..|s| - 1] == head;
      ParseNatToString(n / 10);
      DigitRoundTrip(n % 10);
    }
  }

  /** The numeral of a natural number is injective. */
  lemma NatToStringInjective(a: nat, b: nat)
    requires NatToString(a) == NatToString(b)
    ensures a == b
  {
    ParseNatToString(a);
    ParseNatToString(b);
  }
}
