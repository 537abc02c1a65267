/**
 * The VAT rate a document prints, recovered from the money the invoice stores: `invoice-document.tsx`, to a tenth of
 * a percent, and `packages/core/src/billing/vat-rate.ts`, to a hundredth. Amounts are whole pence; a rate is a whole
 * number of the document's own units, of which a full 100% is `scale`.
 */
module VatRate {

  import opened Wrappers

  /** 20% is 200 of the web document's units, and 2000 of the core's. */
  const TENTHS: nat := 1000
  const HUNDREDTHS: nat := 10_000

  /** The nearest whole number, halves up, to `n / d`. */
  function RoundHalfUp(n: nat, d: nat): (r: nat)
    requires d > 0
    ensures 2 * n < d * (2 * r + 1) && d * (2 * r - 1) <= 2 * n
  {
    Halves(n, d);
    (2 * n + d) / (2 * d)
  }

  lemma Halves(n: nat, d: nat)
    requires d > 0
    ensures var r := (2 * n + d) / (2 * d); 2 * n < d * (2 * r + 1) && d * (2 * r - 1) <= 2 * n && r >= 0
  {
    var r, m := (2 * n + d) / (2 * d), (2 * n + d) % (2 * d);
    assert 2 * n + d == 2 * d * r + m;
    assert d * (2 * r + 1) == 2 * d * r + d && d * (2 * r - 1) == 2 * d * r - d;
  }

  lemma Ordered(d: nat, a: int, b: int)
    requires a <= b
    ensures d * a <= d * b
  {
  }

  lemma Cancels(d: nat, a: int, b: int)
    requires d * a < d * b
    ensures a < b
  {
    if b <= a { Ordered(d, b, a); }
  }

  /** Nothing else is within half of it. */
  lemma RoundedIs(n: nat, d: nat, r: nat)
    requires d > 0 && 2 * n < d * (2 * r + 1) && d * (2 * r - 1) <= 2 * n
    ensures RoundHalfUp(n, d) == r
  {
    var q := RoundHalfUp(n, d);
    if q < r { Ordered(d, 2 * q + 1, 2 * r - 1); }
    if r < q { Ordered(d, 2 * r + 1, 2 * q - 1); }
  }

  /** The rate an invoice was raised at, and none when there is nothing to derive one from. */
  function RateIn(scale: nat, subtotal: int, vat: int): Option<nat> {
    if subtotal <= 0 || vat <= 0 then None else Some(RoundHalfUp(scale * vat, subtotal))
  }

  /** What is charged on a subtotal at a rate: the nearest penny. */
  function Charged(scale: nat, subtotal: nat, rate: nat): nat
    requires scale > 0
  {
    RoundHalfUp(subtotal * rate, scale)
  }

  // ---------------------------------------------------------------- recovery

  predicate Recovers(scale: nat, subtotal: nat, rate: nat)
    requires scale > 0
  {
    RateIn(scale, subtotal, Charged(scale, subtotal, rate)) == Some(rate)
  }

  /** A charge is within half a unit of the exact product. */
  lemma ChargeIsClose(scale: nat, subtotal: nat, rate: nat)
    requires scale > 0
    ensures var q, p := scale * Charged(scale, subtotal, rate), subtotal * rate; 2 * p < 2 * q + scale && 2 * q <= 2 * p + scale
  {
    var v: int := Charged(scale, subtotal, rate);
    assert scale * (2 * v + 1) == 2 * (scale * v) + scale && scale * (2 * v - 1) == 2 * (scale * v) - scale;
  }

  lemma CloseEnough(scale: nat, subtotal: nat, rate: nat, vat: nat)
    requires subtotal > 0 && vat > 0
    requires var p, q := subtotal * rate, scale * vat; 2 * p - subtotal <= 2 * q < 2 * p + subtotal
    ensures RateIn(scale, subtotal, vat) == Some(rate)
  {
    assert subtotal * (2 * rate + 1) == 2 * (subtotal * rate) + subtotal;
    assert subtotal * (2 * rate - 1) == 2 * (subtotal * rate) - subtotal;
    RoundedIs(scale * vat, subtotal, rate);
  }

  /** A full 100% of a subtotal is the subtotal, and so is any rate of a subtotal of one full scale. */
  lemma ChargedExactly(scale: nat, n: nat)
    requires scale > 0
    ensures Charged(scale, n, scale) == n && Charged(scale, scale, n) == n
  {
    assert scale * (2 * n + 1) == 2 * (n * scale) + scale && scale * (2 * n - 1) == 2 * (n * scale) - scale;
    RoundedIs(n * scale, scale, n);
    RoundedIs(scale * n, scale, n);
  }

  lemma RateIsRecovered(scale: nat, subtotal: nat, rate: nat)
    requires subtotal >= scale > 0 && rate >= 1
    ensures Recovers(scale, subtotal, rate)
  {
    var v := Charged(scale, subtotal, rate);
    ChargeIsClose(scale, subtotal, rate);
    Ordered(subtotal, 1, rate);
    Cancels(scale, 0, v);
    ChargedExactly(scale, rate);
    CloseEnough(scale, subtotal, rate, v);
  }

  lemma ChargeNeverFalls(scale: nat, subtotal: nat, rate: nat)
    requires scale > 0
    ensures Charged(scale, subtotal, rate) <= Charged(scale, subtotal, rate + 1)
  {
    var a, b := Charged(scale, subtotal, rate), Charged(scale, subtotal, rate + 1);
    ChargeIsClose(scale, subtotal, rate);
    ChargeIsClose(scale, subtotal, rate + 1);
    assert subtotal * (rate + 1) == subtotal * rate + subtotal;
    assert scale * (b + 1) == scale * b + scale;
    Cancels(scale, a, b + 1);
  }

  /** Rates that are all recovered are charged differently, so the charge climbs by a penny for each of them. */
  lemma {:induction false} ChargeClimbs(scale: nat, subtotal: nat, rate: nat)
    requires scale > 0 && forall r :: 1 <= r <= rate ==> Recovers(scale, subtotal, r)
    ensures Charged(scale, subtotal, rate) >= rate
  {
    if rate > 1 {
      ChargeClimbs(scale, subtotal, rate - 1);
      ChargeNeverFalls(scale, subtotal, rate - 1);
      assert Recovers(scale, subtotal, rate - 1) && Recovers(scale, subtotal, rate);
    } else if rate == 1 {
      assert Recovers(scale, subtotal, 1);
    }
  }

  /**
   * Where recovery starts to work, exactly: on a subtotal of `scale` pence or more every rate that can be charged
   * comes back as it was, and on any smaller one some rate of at most 100% does not. Ten pounds for the web
   * document, a hundred for the core's.
   */
  lemma RecoversEveryRate(scale: nat, subtotal: nat)
    requires scale > 0
    ensures (forall rate :: rate >= 1 ==> Recovers(scale, subtotal, rate)) <==> subtotal >= scale
    ensures (forall rate :: 1 <= rate <= scale ==> Recovers(scale, subtotal, rate)) <==> subtotal >= scale
  {
    if subtotal >= scale {
      forall rate: nat | rate >= 1 ensures Recovers(scale, subtotal, rate) { RateIsRecovered(scale, subtotal, rate); }
    } else {
      ChargedExactly(scale, subtotal);
      if forall rate :: 1 <= rate <= scale ==> Recovers(scale, subtotal, rate) { ChargeClimbs(scale, subtotal, scale); }
    }
  }

  /** One penny short of ten pounds, at half: charged 500 pence, printed as 50.1%. */
  lemma OnePennyShort()
    ensures Charged(TENTHS, 999, 500) == 500 && RateIn(TENTHS, 999, 500) == Some(501)
  {
    RoundedIs(999 * 500, TENTHS, 500);
    RoundedIs(TENTHS * 500, 999, 501);
  }

  // ---------------------------------------------------------------- what is printed

  /** The number in the rate column. */
  function Printed(scale: nat, subtotal: int, vat: int): nat {
    var rate := RateIn(scale, subtotal, vat);
    if rate.None? then 0 else rate.value
  }

  /** VAT is shown beside a rate of 0% exactly when there is no subtotal to divide by or the charge is under half a unit of it. */
  lemma ChargedYetZero(scale: nat, subtotal: int, vat: int)
    requires vat > 0
    ensures Printed(scale, subtotal, vat) == 0 <==> subtotal <= 0 || 2 * (scale * vat) < subtotal
  {
    if subtotal > 0 {
      var r := RoundHalfUp(scale * vat, subtotal);
      assert 2 * (scale * vat) < subtotal * (2 * r + 1);
      if 2 * (scale * vat) < subtotal { RoundedIs(scale * vat, subtotal, 0); }
    }
  }

  /** The rates the two documents state for one invoice are at most half a tenth of a percent apart. */
  lemma DocumentsAgreeToATenth(subtotal: nat, vat: nat)
    requires subtotal > 0 && vat > 0
    ensures var coarse, fine := Printed(TENTHS, subtotal, vat), Printed(HUNDREDTHS, subtotal, vat);
      -5 <= fine - 10 * coarse <= 5
  {
    var coarse: int, fine: int := Printed(TENTHS, subtotal, vat), Printed(HUNDREDTHS, subtotal, vat);
    assert subtotal * (20 * coarse + 10) == 10 * (subtotal * (2 * coarse + 1));
    assert subtotal * (20 * coarse - 10) == 10 * (subtotal * (2 * coarse - 1));
    Cancels(subtotal, 2 * fine - 1, 20 * coarse + 10);
    Cancels(subtotal, 20 * coarse - 10, 2 * fine + 1);
  }
}
