/**
 * MortgageCalculator: the stored annual interest rate with its guarded setter, and
 * paymentAmount, which validates its inputs, then computes insurance, principal and the
 * amortizing-annuity payment at the stored rate.
 */
module Mortgage {
  import opened Wrappers
  import Schedule
  import Pricing
  import opened Validation

  /** The annual interest rate, in percent, that the calculator starts with. */
  const DefaultAnnualInterestRate: real := 2.5

  /** The rates the setter accepts: above 0 and at most 100 percent. */
  predicate ValidRate(rate: real)
  {
    0.0 < rate <= 100.0
  }

  /** Total number of payments: years of amortization times payments per year. */
  function NumPayments(schedule: string, amortizationPeriod: int): (n: nat)
    requires Schedule.IsKnown(schedule)
    requires MinAmortizationPeriod <= amortizationPeriod <= MaxAmortizationPeriod
    ensures 60 <= n <= 1200
  {
    amortizationPeriod * Schedule.PaymentsPerYear(schedule)
  }

  /**
   * What paymentAmount yields at the given stored rate: the joined messages of every failed check,
   * or else the annuity payment on the principal at the per-payment rate over all payments.
   */
  function PaymentOutcome(askingPrice: real, downPayment: real, schedule: string,
                          amortizationPeriod: int, annualRate: real): (res: Result<real, string>)
    requires ValidRate(annualRate)
    ensures res.Failure? <==> !Acceptable(askingPrice, downPayment, schedule, amortizationPeriod)
    ensures res.Success? ==> 0.0 <= res.value && (0.0 < res.value <==> downPayment < askingPrice)
  {
    var errs := Violations(askingPrice, downPayment, schedule, amortizationPeriod);
    if errs != [] then Failure(Message(errs))
    else
      var n := NumPayments(schedule, amortizationPeriod);
      PrincipalOfAccepted(askingPrice, downPayment);
      Success(Pricing.AnnuityPayment(Pricing.Principal(askingPrice, downPayment),
                                     Pricing.PerPaymentRate(annualRate, n), n))
  }

  /** For accepted money values the principal is non-negative, and positive iff something is borrowed. */
  lemma PrincipalOfAccepted(askingPrice: real, downPayment: real)
    requires 0.0 <= downPayment <= askingPrice
    ensures 0.0 <= Pricing.Principal(askingPrice, downPayment)
    ensures 0.0 < Pricing.Principal(askingPrice, downPayment) <==> downPayment < askingPrice
  {
    if askingPrice > 0.0 {
      Pricing.InsuranceAsWritten(askingPrice, downPayment);
    }
  }

  /**
   * A rejection carries every failed check's message in check order and no payment; an accepted
   * call's payment pays the principal off exactly after the scheduled number of payments.
   */
  lemma PaymentOutcomeMeaning(askingPrice: real, downPayment: real, schedule: string,
                              amortizationPeriod: int, annualRate: real)
    requires ValidRate(annualRate)
    ensures var res := PaymentOutcome(askingPrice, downPayment, schedule, amortizationPeriod, annualRate);
      var errs := Violations(askingPrice, downPayment, schedule, amortizationPeriod);
      && (res.Failure? ==> res.error == Message(errs) && errs != [])
      && (res.Success? ==>
            var n := NumPayments(schedule, amortizationPeriod);
            var c := Pricing.PerPaymentRate(annualRate, n);
            && 60 <= n
            && Pricing.Balance(Pricing.Principal(askingPrice, downPayment), c, res.value, n) == 0.0
            && Pricing.Principal(askingPrice, downPayment) >= askingPrice - downPayment)
  {
    var res := PaymentOutcome(askingPrice, downPayment, schedule, amortizationPeriod, annualRate);
    if res.Success? {
      var n := NumPayments(schedule, amortizationPeriod);
      var c := Pricing.PerPaymentRate(annualRate, n);
      Pricing.AnnuityAmortizes(Pricing.Principal(askingPrice, downPayment), c, n, res.value);
    }
  }

  /** 750,000 with 49,000 down is rejected for the minimum alone; with 50,000 down it is accepted. */
  lemma MinimumDownPaymentDecides(annualRate: real)
    requires ValidRate(annualRate)
    ensures PaymentOutcome(750000.0, 49000.0, "monthly", 25, annualRate)
         == Failure(Text(BelowMinimumDownPayment(50000.0)))
    ensures PaymentOutcome(750000.0, 50000.0, "monthly", 25, annualRate).Success?
  {
    Schedule.KnownNames();
    Pricing.MinimumDownPaymentExamples();
    var errs := Violations(750000.0, 49000.0, "monthly", 25);
    assert errs == [BelowMinimumDownPayment(50000.0)];
  }

  /** An unknown schedule name such as "dne" is rejected. */
  lemma UnknownScheduleRejected(annualRate: real)
    requires ValidRate(annualRate)
    ensures PaymentOutcome(750000.0, 50000.0, "dne", 25, annualRate).Failure?
  {
    Schedule.ScheduleExamples();
  }

  /** Amortization periods of 2 and 30 years are rejected. */
  lemma AmortizationOutOfRangeRejected(annualRate: real)
    requires ValidRate(annualRate)
    ensures PaymentOutcome(750000.0, 50000.0, "monthly", 30, annualRate).Failure?
    ensures PaymentOutcome(750000.0, 50000.0, "weekly", 2, annualRate).Failure?
  {
  }

  /** Negative asking price and down payment: three failed checks, reported in check order. */
  lemma NegativeMoneyRejected(annualRate: real)
    requires ValidRate(annualRate)
    ensures PaymentOutcome(-100.0, -120.0, "weekly", 20, annualRate)
         == Failure(Join([Text(NegativeDownPayment), Text(NegativeAskingPrice),
                          Text(BelowMinimumDownPayment(-5.0))], Separator))
  {
    NegativeMoneyViolations();
    NegativeMoneyTexts();
  }

  lemma NegativeMoneyViolations()
    ensures Violations(-100.0, -120.0, "weekly", 20)
         == [NegativeDownPayment, NegativeAskingPrice, BelowMinimumDownPayment(-5.0)]
  {
    Schedule.KnownNames();
    assert Pricing.MinimumDownPayment(-100.0) == -5.0;
  }

  lemma NegativeMoneyTexts()
    ensures Texts([NegativeDownPayment, NegativeAskingPrice, BelowMinimumDownPayment(-5.0)])
         == [Text(NegativeDownPayment), Text(NegativeAskingPrice), Text(BelowMinimumDownPayment(-5.0))]
  {
    var expected := [NegativeDownPayment, NegativeAskingPrice, BelowMinimumDownPayment(-5.0)];
    assert expected[..2][..1] == [NegativeDownPayment];
    assert Texts([NegativeDownPayment]) == [Text(NegativeDownPayment)];
    assert Texts(expected[..2]) == [Text(NegativeDownPayment), Text(NegativeAskingPrice)];
  }

  /** The calculator; its one field is the annual interest rate every payment calculation uses. */
  class MortgageCalculator {
    var annualInterestRate: real

    /** The stored rate stays within the bounds the setter enforces. */
    ghost predicate Valid()
      reads this
    {
      ValidRate(annualInterestRate)
    }

    constructor ()
      ensures Valid() && annualInterestRate == DefaultAnnualInterestRate
    {
      annualInterestRate := DefaultAnnualInterestRate;
    }

    method GetAnnualInterestRate() returns (rate: real)
      ensures rate == annualInterestRate
    {
      rate := annualInterestRate;
    }

    /** Stores the new rate and answers true iff it lies in (0, 100]; otherwise changes nothing. */
    method SetAnnualInterestRate(newAnnualInterestRate: real) returns (ok: bool)
      modifies this
      ensures ok <==> ValidRate(newAnnualInterestRate)
      ensures annualInterestRate == if ok then newAnnualInterestRate else old(annualInterestRate)
      ensures old(Valid()) ==> Valid()
    {
      if 0.0 < newAnnualInterestRate && newAnnualInterestRate <= 100.0 {
        annualInterestRate := newAnnualInterestRate;
        ok := true;
      } else {
        ok := false;
      }
    }

    /**
     * Runs all six checks, collecting a message for each failure; rejects with the joined
     * messages if there is any, otherwise returns the payment at the stored rate.
     */
    method PaymentAmount(askingPrice: real, downPayment: real, paymentSchedule: string,
                         amortizationPeriod: int) returns (res: Result<real, string>)
      requires Valid()
      ensures res == PaymentOutcome(askingPrice, downPayment, paymentSchedule, amortizationPeriod,
                                    annualInterestRate)
    {
      var errors := CollectErrors(askingPrice, downPayment, paymentSchedule, amortizationPeriod);
      var schedule := Schedule.ToLower(paymentSchedule);
      if |errors| > 0 {
        var message := JoinMessages(errors, Separator);
        return Failure(message);
      }

      assert Acceptable(askingPrice, downPayment, paymentSchedule, amortizationPeriod);
      var paymentsPerYear := Schedule.PaymentsPerYearTable[schedule];
      var numPayments := amortizationPeriod * paymentsPerYear;
      assert numPayments == NumPayments(paymentSchedule, amortizationPeriod);
      var principal := Pricing.Principal(askingPrice, downPayment);
      var rate := Pricing.PerPaymentRate(annualInterestRate, numPayments);
      var payment := Pricing.AnnuityPayment(principal, rate, numPayments);
      return Success(payment);
    }

    /** The maximum-mortgage calculation is a stub that always answers 0. */
    method MortgageAmount(payment: real, downPayment: real, paymentSchedule: string,
                          amortizationPeriod: int) returns (amount: real)
      ensures amount == 0.0
    {
      amount := 0.0;
    }
  }

  /** The rate's lifecycle: 2.5 at the start, 5.0 accepted, -5.0 and 105.0 refused. */
  method RateLifecycle()
  {
    var calculator := new MortgageCalculator();
    var rate := calculator.GetAnnualInterestRate();
    assert rate == 2.5;
    var ok := calculator.SetAnnualInterestRate(5.0);
    assert ok;
    ok := calculator.SetAnnualInterestRate(-5.0);
    assert !ok;
    ok := calculator.SetAnnualInterestRate(105.0);
    assert !ok;
    rate := calculator.GetAnnualInterestRate();
    assert rate == 5.0;
  }
}
