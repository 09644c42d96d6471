/** Rupee/paisa conversion of the gateway client (khalti_service.py).
    Rupee amounts are Python `Decimal`s, modelled exactly as `units / 10^scale`;
    the gateway works in paisa, the hundredth of a rupee. */
module Money {

  /** The exact decimal number `units / 10^scale`. */
  datatype Decimal = Decimal(units: int, scale: nat)

  function Pow10(n: nat): (r: nat)
    ensures r >= 1
  {
    if n == 0 then 1 else 10 * Pow10(n - 1)
  }

  /** Two decimals denote the same number (`Decimal('1.50') == Decimal('1.5')`). */
  predicate SameValue(a: Decimal, b: Decimal)
  {
    a.units * Pow10(b.scale) == b.units * Pow10(a.scale)
  }

  /** Python's `int(x / d)` for an exact quotient: division truncating toward zero
      (Dafny's own `/` is Euclidean and differs for a negative dividend). */
  function TruncDiv(x: int, d: int): (q: int)
    requires d > 0
    ensures x >= 0 ==> 0 <= q * d <= x < (q + 1) * d
    ensures x < 0 ==> (q - 1) * d < x <= q * d <= 0
  {
    if x >= 0 then
      DivBounds(x, d);
      x / d
    else
      DivBounds(-x, d);
      -((-x) / d)
  }

  lemma DivBounds(x: nat, d: int)
    requires d > 0
    ensures 0 <= (x / d) * d <= x < (x / d + 1) * d
  {
    var q := x / d;
    assert x == q * d + x % d;
  }

  /** `_convert_to_paisa`: `int(amount * 100)`, truncating any fraction of a paisa. */
  function ToPaisa(amount: Decimal): (p: int)
    ensures amount.units >= 0 ==> 0 <= p * Pow10(amount.scale) <= amount.units * 100 < (p + 1) * Pow10(amount.scale)
    ensures amount.units < 0 ==> (p - 1) * Pow10(amount.scale) < amount.units * 100 <= p * Pow10(amount.scale) <= 0
  {
    TruncDiv(amount.units * 100, Pow10(amount.scale))
  }

  /** `_convert_to_rupees`: `Decimal(paisa) / 100`, which is exact. */
  function ToRupees(paisa: int): (a: Decimal)
    ensures a.units * 100 == paisa * Pow10(a.scale)
  {
    Decimal(paisa, 2)
  }

  /** A price stored with two decimal places (a count of hundredths) as a Decimal. */
  function FromHundredths(h: int): Decimal
  {
    Decimal(h, 2)
  }

  lemma Pow10Split(s: nat)
    requires s <= 2
    ensures Pow10(s) * Pow10(2 - s) == 100
  {
    if s == 0 {
      assert Pow10(2) == 100;
    } else if s == 1 {
      assert Pow10(1) == 10;
    } else {
      assert Pow10(2) == 100;
    }
  }

  /** For an amount with at most two decimal places the conversion to paisa
      loses nothing: converting back yields the same number. This holds for
      negative amounts too, since no truncation happens. */
  lemma {:induction false} RupeesPaisaRoundTrip(a: Decimal)
    requires a.scale <= 2
    ensures ToPaisa(a) == a.units * Pow10(2 - a.scale)
    ensures SameValue(ToRupees(ToPaisa(a)), a)
  {
    var k := Pow10(2 - a.scale);
    Pow10Split(a.scale);
    var x := a.units * 100;
    assert x == (a.units * k) * Pow10(a.scale);
    var p := ToPaisa(a);
    if x >= 0 {
      assert 0 <= p * Pow10(a.scale) <= x < (p + 1) * Pow10(a.scale);
      TruncExact(a.units * k, p, Pow10(a.scale));
    } else {
      assert (p - 1) * Pow10(a.scale) < x <= p * Pow10(a.scale);
      TruncExactNeg(a.units * k, p, Pow10(a.scale));
    }
    assert Pow10(2) == 100;
  }

  lemma TruncExact(m: int, p: int, d: int)
    requires d > 0
    requires p * d <= m * d < (p + 1) * d
    ensures p == m
  {
  }

  lemma TruncExactNeg(m: int, p: int, d: int)
    requires d > 0
    requires (p - 1) * d < m * d <= p * d
    ensures p == m
  {
  }

  /** Every paisa amount the gateway returns survives the trip to rupees and back. */
  lemma PaisaRupeesRoundTrip(p: int)
    ensures ToPaisa(ToRupees(p)) == p
  {
    RupeesPaisaRoundTrip(Decimal(p, 2));
    assert Pow10(0) == 1;
  }

  /** A third decimal place is cut off, toward zero: 10.999 rupees are 1099 paisa. */
  lemma ThirdDecimalTruncated()
    ensures ToPaisa(Decimal(10999, 3)) == 1099
    ensures ToPaisa(Decimal(-10999, 3)) == -1099
  {
    assert Pow10(3) == 1000;
  }
}
