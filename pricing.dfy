/**
 * The arithmetic of MortgageCalculator.paymentAmount once its inputs are validated: the tiered
 * minimum down payment, mortgage insurance, the principal and the amortizing-annuity payment.
 * Money and rates are exact reals.
 */
module Pricing {

  const MinDpBound: real := 500000.0
  const LtMinDpBoundRate: real := 0.05
  const GtMinDpBoundRate: real := 0.1
  /** Insurance is not available at or above this asking price. */
  const InsuranceCeiling: real := 1000000.0

  function Min(a: real, b: real): real { if a <= b then a else b }
  function Max(a: real, b: real): real { if a <= b then b else a }

  /**
   * The minimum down payment: 5% of the asking price below 500,000, otherwise 5% of
   * 500,000 plus 10% of the excess.
   */
  function MinimumDownPayment(askingPrice: real): (m: real)
    ensures m == LtMinDpBoundRate * Min(askingPrice, MinDpBound)
               + GtMinDpBoundRate * Max(askingPrice - MinDpBound, 0.0)
    ensures askingPrice >= 0.0 ==> 0.05 * askingPrice <= m <= 0.1 * askingPrice
  {
    if askingPrice < MinDpBound then LtMinDpBoundRate * askingPrice
    else LtMinDpBoundRate * MinDpBound + GtMinDpBoundRate * (askingPrice - MinDpBound)
  }

  /** Both branches of the minimum agree at the break point, and 750,000 needs exactly 50,000. */
  lemma MinimumDownPaymentExamples()
    ensures LtMinDpBoundRate * MinDpBound
         == LtMinDpBoundRate * MinDpBound + GtMinDpBoundRate * (MinDpBound - MinDpBound)
    ensures MinimumDownPayment(MinDpBound) == 25000.0
    ensures MinimumDownPayment(750000.0) == 50000.0
  {
  }

  /** A larger asking price never needs a smaller down payment. */
  lemma MinimumDownPaymentMonotone(p: real, q: real)
    requires p <= q
    ensures MinimumDownPayment(p) <= MinimumDownPayment(q)
  {
  }

  /**
   * Mortgage insurance as written. The ratio is compared against 0.2 and then against the tier
   * bounds 10, 15 and 20, so inside the guard the first tier always applies. An asking price of
   * 0 makes the floating-point ratio NaN or an infinity; every branch then yields 0.
   */
  function Insurance(askingPrice: real, downPayment: real): (ins: real)
    ensures ins == 0.0 || ins == 0.0315 * askingPrice
  {
    if askingPrice == 0.0 then 0.0
    else
      var ratio := downPayment / askingPrice;
      if ratio < 0.2 && askingPrice < InsuranceCeiling then
        if ratio < 10.0 then 0.0315 * askingPrice
        else if ratio < 15.0 then 0.024 * askingPrice
        else if ratio < 20.0 then 0.018 * askingPrice
        else 0.0
      else 0.0
  }

  /**
   * For a positive asking price, insurance is 3.15% of it exactly when less than 20% is put
   * down and the price is below 1,000,000; otherwise it is 0.
   */
  lemma {:induction false} InsuranceAsWritten(askingPrice: real, downPayment: real)
    requires askingPrice > 0.0
    ensures Insurance(askingPrice, downPayment)
         == if downPayment < 0.2 * askingPrice && askingPrice < InsuranceCeiling
            then 0.0315 * askingPrice else 0.0
  {
    var ratio := downPayment / askingPrice;
    assert downPayment == ratio * askingPrice;
    RatioBelow(ratio, askingPrice, 0.2);
  }

  /**
   * A down payment of 14.5% on 750,000 is charged the first tier's 3.15% (23,625), not the
   * 2.4% that the 10-14.99% band of the documented table would give.
   */
  lemma InsuranceAtFourteenPointFivePercent()
    ensures Insurance(750000.0, 108750.0) == 23625.0
    ensures Insurance(750000.0, 108750.0) != 0.024 * 750000.0
  {
    InsuranceAsWritten(750000.0, 108750.0);
  }

  /** For a positive denominator, comparing a ratio with a bound is comparing the numerator. */
  lemma RatioBelow(ratio: real, d: real, bound: real)
    requires d > 0.0
    ensures ratio < bound <==> ratio * d < bound * d
  {
  }

  /** The principal: asking price plus insurance minus down payment. */
  function Principal(askingPrice: real, downPayment: real): (l: real)
    ensures askingPrice >= 0.0 ==> askingPrice - downPayment <= l <= 1.0315 * askingPrice - downPayment
  {
    Insurance(askingPrice, downPayment) + askingPrice - downPayment
  }

  /** As written, the annual rate in percent is divided by the total number of payments. */
  function PerPaymentRate(annualRate: real, numPayments: nat): (c: real)
    requires numPayments > 0
    ensures 0.0 < annualRate ==> 0.0 < c
    ensures annualRate <= 100.0 ==> c * (numPayments as real) <= 1.0
  {
    annualRate / 100.0 / (numPayments as real)
  }

  /** `x` raised to a natural power, as Math.pow does for an integral exponent. */
  function Pow(x: real, n: nat): real
  {
    if n == 0 then 1.0 else x * Pow(x, n - 1)
  }

  /** Bernoulli's inequality: (1 + c)^n >= 1 + n*c for c >= 0. */
  lemma {:induction false} Bernoulli(c: real, n: nat)
    requires c >= 0.0
    ensures Pow(1.0 + c, n) >= 1.0 + (n as real) * c
  {
    if n > 0 {
      Bernoulli(c, n - 1);
      var g := Pow(1.0 + c, n - 1);
      var m := (n - 1) as real;
      assert Pow(1.0 + c, n) == (1.0 + c) * g;
      assert (1.0 + c) * g >= (1.0 + c) * (1.0 + m * c) by {
        MulMonotone(1.0 + c, 1.0 + m * c, g);
      }
      assert (1.0 + c) * (1.0 + m * c) == 1.0 + (m + 1.0) * c + m * c * c;
      assert m * c * c >= 0.0;
    }
  }

  lemma MulMonotone(k: real, a: real, b: real)
    requires k >= 0.0 && a <= b
    ensures k * a <= k * b
  {
  }

  /** With a positive rate the growth factor (1 + c)^n exceeds 1, so the formula's denominator is positive. */
  lemma GrowthExceedsOne(c: real, n: nat)
    requires c > 0.0 && n >= 1
    ensures Pow(1.0 + c, n) > 1.0
  {
    Bernoulli(c, n);
  }

  /** P = L c (1 + c)^n / ((1 + c)^n - 1): the level payment of a loan L over n periods at rate c. */
  function AnnuityPayment(principal: real, c: real, n: nat): (p: real)
    requires c > 0.0 && n >= 1
    ensures p > 0.0 <==> principal > 0.0
    ensures p == 0.0 <==> principal == 0.0
    ensures principal > 0.0 ==> p > principal * c
  {
    GrowthExceedsOne(c, n);
    var g := Pow(1.0 + c, n);
    AnnuityFactor(principal, c, g);
    principal * c * g / (g - 1.0)
  }

  /** The payment is the principal times a factor c g / (g - 1) that exceeds the rate c. */
  lemma AnnuityFactor(principal: real, c: real, g: real)
    requires c > 0.0 && g > 1.0
    ensures principal * c * g / (g - 1.0) == principal * (c * g / (g - 1.0))
    ensures c * g / (g - 1.0) > c
  {
    var d := g - 1.0;
    var k := c * g / d;
    assert k * d == c * g;
    assert c * d < c * g;
    assert k > c;
    var q := principal * c * g / d;
    assert q * d == principal * c * g;
    assert (principal * k) * d == principal * (k * d);
    DivideOut(q, principal * k, d);
  }

  /** Equal products with the same non-zero factor have equal other factors. */
  lemma DivideOut(x: real, y: real, d: real)
    requires d != 0.0 && x * d == y * d
    ensures x == y
  {
    assert (x - y) * d == 0.0;
  }

  /** The annuity payment times the denominator (1 + c)^n - 1 is c L (1 + c)^n. */
  lemma AnnuityPaymentScaled(principal: real, c: real, n: nat)
    requires c > 0.0 && n >= 1
    ensures AnnuityPayment(principal, c, n) * (Pow(1.0 + c, n) - 1.0) == c * principal * Pow(1.0 + c, n)
  {
    GrowthExceedsOne(c, n);
    var g := Pow(1.0 + c, n);
    var a := principal * c * g / (g - 1.0);
    assert a * (g - 1.0) == principal * c * g;
  }

  /** The balance left after k payments of p on a loan L at rate c per period. */
  function Balance(principal: real, c: real, p: real, k: nat): real
  {
    if k == 0 then principal else Balance(principal, c, p, k - 1) * (1.0 + c) - p
  }

  /** c B_k = c L (1 + c)^k - p ((1 + c)^k - 1). */
  lemma {:induction false} BalanceClosedForm(principal: real, c: real, p: real, k: nat)
    ensures c * Balance(principal, c, p, k)
         == c * principal * Pow(1.0 + c, k) - p * (Pow(1.0 + c, k) - 1.0)
  {
    if k > 0 {
      BalanceClosedForm(principal, c, p, k - 1);
      ClosedFormStep(principal, c, p, Balance(principal, c, p, k - 1), Pow(1.0 + c, k - 1));
    }
  }

  /** One payment period: if c b = c L g - p (g - 1), then after growth and a payment the same holds for (1 + c) g. */
  lemma ClosedFormStep(principal: real, c: real, p: real, b: real, g: real)
    requires c * b == c * principal * g - p * (g - 1.0)
    ensures c * (b * (1.0 + c) - p) == c * principal * ((1.0 + c) * g) - p * ((1.0 + c) * g - 1.0)
  {
    assert c * (b * (1.0 + c) - p) == (1.0 + c) * (c * b) - c * p;
    assert (1.0 + c) * (c * b) == (1.0 + c) * (c * principal * g) - (1.0 + c) * (p * (g - 1.0));
    assert (1.0 + c) * (c * principal * g) == c * principal * ((1.0 + c) * g);
    assert (1.0 + c) * (p * (g - 1.0)) + c * p == p * ((1.0 + c) * g - 1.0);
  }

  /**
   * The annuity payment is the one level payment that pays the loan off in exactly n periods:
   * the balance after n payments of p is zero if and only if p is the annuity payment.
   */
  lemma AnnuityAmortizes(principal: real, c: real, n: nat, p: real)
    requires c > 0.0 && n >= 1
    ensures Balance(principal, c, p, n) == 0.0 <==> p == AnnuityPayment(principal, c, n)
  {
    BalanceClosedForm(principal, c, p, n);
    AnnuityPaymentScaled(principal, c, n);
    GrowthExceedsOne(c, n);
    var g := Pow(1.0 + c, n);
    ZeroBalanceIff(Balance(principal, c, p, n), c, AnnuityPayment(principal, c, n), p,
                   g - 1.0, c * principal * g);
  }

  /** With c B = x - p d and a d = x (c, d non-zero), B vanishes exactly when p equals a. */
  lemma ZeroBalanceIff(b: real, c: real, a: real, p: real, d: real, x: real)
    requires c > 0.0 && d > 0.0
    requires c * b == x - p * d && a * d == x
    ensures b == 0.0 <==> p == a
  {
    assert c * b == (a - p) * d;
    if b == 0.0 {
      DivideOut(p, a, d);
    }
    if p == a {
      DivideOut(b, 0.0, c);
    }
  }


}
