# Mortgage calculator core, modelled in Dafny

This project models `MortgageCalculator`, the engine behind a small mortgage-payment service. The
engine keeps one configurable annual interest rate. It starts at 2.5% and a guarded setter accepts
only values in (0, 100]. Its `paymentAmount` operation first runs six input checks and collects a
message for every check that fails. If any check fails, the call is rejected with the messages
joined by ", ". Otherwise it computes:

- the mortgage insurance;
- the principal;
- a per-payment rate;
- the level payment of an amortizing annuity, `P = L c (1 + c)^n / ((1 + c)^n - 1)`.

`mortgageAmount` is a stub that answers 0.

Money and rates are exact `real`s. `Math.pow` is always applied with an integral exponent, so it is
a recursive power over `nat`. Rejection by exception is a `Result` value.

Files:

- `wrappers.dfy` (`Wrappers`): the `Result` type.
- `schedule.dfy` (`Schedule`): the schedule-to-payments-per-year table, lower-casing and the
  case-insensitive lookup.
- `pricing.dfy` (`Pricing`): the minimum down payment, insurance, principal, per-payment rate, the
  annuity formula and the loan balance. The balance is the formula's independent partner: the
  annuity payment is the one level payment that pays the loan off in exactly n payments.
- `validation.dfy` (`Validation`): the six checks, their messages, the collect-all accumulator and
  the ", " joiner.
- `calculator.dfy` (`Mortgage`): the class `MortgageCalculator` with the stored rate, its getter and
  setter, `PaymentAmount` and `MortgageAmount`. It also holds the specification function
  `PaymentOutcome` and the lemmas about it.

## Where the code and its documentation differ

The model follows the code as written in `MortgageCalculator.java`. The repository's design
documents, comments and tests describe a different iteration in these places:

- `"weekly"` maps to `4*12 = 48` payments per year, not 52.
- The per-payment rate is the annual percentage divided by 100 and then by the total number of
  payments. It is not divided by the payments per year.
- The insurance tiers compare the down-payment ratio, which lies in [0, 1], against `10.`, `15.`
  and `20.`. Inside the `< 0.2` guard the 3.15% tier therefore always applies. The 2.4% and 1.8%
  tiers in the code comment's table are never reached.
  `Pricing.InsuranceAtFourteenPointFivePercent` shows this for a 14.5% down payment on 750,000.
- `paymentAmount` returns a bare number, takes no rate argument and uses the stored rate.
- `mortgageAmount` is a stub returning 0. No inverse round trip exists in this code.

## Model

| member | source | states |
|---|---|---|
| `Schedule.LowerChar` | src/main/java/mortgageCalculator/MortgageCalculator.java:59 | a character lower-cases to a lower-case letter exactly when it is an upper- or lower-case letter |
| `Schedule.ToLowerIsCaseVariant` | src/main/java/mortgageCalculator/MortgageCalculator.java:59 | lower-casing a name yields a lower-case word exactly when the name spells that word in any mix of cases |
| `Schedule.PaymentsPerYear` | src/main/java/mortgageCalculator/MortgageCalculator.java:89 | a known schedule yields 48, 26 or 12 payments per year |
| `Schedule.ScheduleLookup` | src/main/java/mortgageCalculator/MortgageCalculator.java:20-24 | a name is accepted iff it is a case variant of weekly, biweekly or monthly, and these give 48, 26 and 12 |
| `Schedule.KnownNames` | src/main/java/mortgageCalculator/MortgageCalculator.java:20-24 | the table keys weekly, biweekly and monthly, in lower case, are accepted names |
| `Schedule.ScheduleExamples` | src/test/java/mortgageCalculator/MortgageCalculatorTest.java:208-221 | "Weekly" gives 48, "MONTHLY" gives 12, and "dne" is not accepted |
| `Pricing.MinimumDownPayment` | src/main/java/mortgageCalculator/MortgageCalculator.java:57-58 | the minimum is 5% of the part up to 500,000 plus 10% of the excess, and lies between 5% and 10% of a non-negative price |
| `Pricing.MinimumDownPaymentExamples` | src/main/java/mortgageCalculator/MortgageCalculator.java:27-33 | both branches agree at 500,000 (25,000), and 750,000 needs exactly 50,000 |
| `Pricing.MinimumDownPaymentMonotone` | src/main/java/mortgageCalculator/MortgageCalculator.java:57-58 | a higher asking price never lowers the minimum |
| `Pricing.Insurance` | src/main/java/mortgageCalculator/MortgageCalculator.java:106-115 | insurance is either 0 or 3.15% of the asking price, so the lower tiers are dead code |
| `Pricing.InsuranceAsWritten` | src/main/java/mortgageCalculator/MortgageCalculator.java:108-115 | for a positive price, insurance is 3.15% of it iff the down payment is under 20% and the price is under 1,000,000, else 0 |
| `Pricing.InsuranceAtFourteenPointFivePercent` | src/main/java/mortgageCalculator/MortgageCalculator.java:108-113 | a 14.5% down payment on 750,000 is charged 23,625 (3.15%), not 2.4% |
| `Pricing.Principal` | src/main/java/mortgageCalculator/MortgageCalculator.java:117 | for a non-negative price the principal is at least price minus down payment and at most that plus 3.15% of the price |
| `Pricing.PerPaymentRate` | src/main/java/mortgageCalculator/MortgageCalculator.java:121 | a positive annual rate gives a positive per-payment rate, and a rate of at most 100% gives at most 1 over the number of payments |
| `Pricing.Bernoulli` | src/main/java/mortgageCalculator/MortgageCalculator.java:125 | the growth factor (1 + c)^n is at least 1 + n c |
| `Pricing.GrowthExceedsOne` | src/main/java/mortgageCalculator/MortgageCalculator.java:125-127 | with a positive rate and at least one payment the growth factor exceeds 1, so the formula's denominator is positive |
| `Pricing.AnnuityPayment` | src/main/java/mortgageCalculator/MortgageCalculator.java:127 | the payment is positive iff the principal is, zero iff it is zero, and for a positive principal exceeds one period's interest |
| `Pricing.BalanceClosedForm` | src/main/java/mortgageCalculator/MortgageCalculator.java:38-42 | after k payments of p, c times the balance equals c L (1 + c)^k minus p ((1 + c)^k - 1) |
| `Pricing.AnnuityAmortizes` | src/main/java/mortgageCalculator/MortgageCalculator.java:124-127 | the balance after n payments is zero iff the payment is the formula's payment |
| `Validation.Violations` | src/main/java/mortgageCalculator/MortgageCalculator.java:61-81 | no check fails iff all six conditions hold; at most six failures, reported in check order with none repeated |
| `Validation.ViolationsAreIndependent` | src/main/java/mortgageCalculator/MortgageCalculator.java:62-81 | each check's error is present iff its own condition fails, whatever the others do; the minimum carried is the computed minimum |
| `Validation.JoinKeepsOrder` | src/main/java/mortgageCalculator/MortgageCalculator.java:82-85 | in the joined text, the first k + 1 messages form a prefix that ends with message k |
| `Validation.JoinMessages` | src/main/java/mortgageCalculator/MortgageCalculator.java:83-84 | adding the messages one by one with the separator yields their join |
| `Validation.CollectErrors` | src/main/java/mortgageCalculator/MortgageCalculator.java:56-81 | the accumulated list is the messages of exactly the failed checks, in check order |
| `Mortgage.NumPayments` | src/main/java/mortgageCalculator/MortgageCalculator.java:89-90 | after validation the number of payments is between 60 and 1200 |
| `Mortgage.PaymentOutcome` | src/main/java/mortgageCalculator/MortgageCalculator.java:53-139 | the call is rejected iff some check fails; an accepted payment is non-negative, and positive iff the down payment is below the asking price |
| `Mortgage.PrincipalOfAccepted` | src/main/java/mortgageCalculator/MortgageCalculator.java:106-117 | for accepted money values the principal is non-negative and positive iff the down payment is below the price |
| `Mortgage.PaymentOutcomeMeaning` | src/main/java/mortgageCalculator/MortgageCalculator.java:82-127 | a rejection carries the joined messages of the failed checks and no payment; an accepted payment pays the principal off exactly after at least 60 payments |
| `Mortgage.MinimumDownPaymentDecides` | src/test/java/mortgageCalculator/MortgageCalculatorTest.java:177-205 | 750,000 with 49,000 down is rejected with the minimum message alone, and with 50,000 down it is accepted |
| `Mortgage.UnknownScheduleRejected` | src/test/java/mortgageCalculator/MortgageCalculatorTest.java:208-221 | the schedule "dne" is rejected even when every other input is acceptable |
| `Mortgage.AmortizationOutOfRangeRejected` | src/test/java/mortgageCalculator/MortgageCalculatorTest.java:224-253 | amortization periods of 30 and 2 years are rejected even when every other input is acceptable |
| `Mortgage.NegativeMoneyRejected` | src/test/java/mortgageCalculator/MortgageCalculatorTest.java:256-269 | price -100 with -120 down fails the negative down payment, negative price and minimum checks, joined in that order |
| `Mortgage.MortgageCalculator.constructor` | src/main/java/mortgageCalculator/MortgageCalculator.java:19 | the stored rate starts at 2.5 and lies in (0, 100] |
| `Mortgage.MortgageCalculator.GetAnnualInterestRate` | src/main/java/mortgageCalculator/MortgageCalculator.java:149-151 | returns the stored rate |
| `Mortgage.MortgageCalculator.SetAnnualInterestRate` | src/main/java/mortgageCalculator/MortgageCalculator.java:153-162 | answers true iff the new rate lies in (0, 100] and then stores it; otherwise leaves the rate unchanged; the bounds invariant is preserved |
| `Mortgage.MortgageCalculator.PaymentAmount` | src/main/java/mortgageCalculator/MortgageCalculator.java:53-140 | the result is exactly `PaymentOutcome` at the stored rate |
| `Mortgage.MortgageCalculator.MortgageAmount` | src/main/java/mortgageCalculator/MortgageCalculator.java:142-146 | always answers 0 |

## Left out

- The payment is exact real arithmetic. IEEE-754 rounding, `Math.pow` error, NaN and infinite
  inputs are not modelled. In Java a NaN input fails every comparison and so passes validation.
- `Pricing.Insurance` at an asking price of 0 returns 0 directly. In Java the ratio is NaN or an
  infinity there, and every branch then also gives 0.
- `Validation.Text`: the minimum in the below-minimum message is formatted with `%6.2f` in Java.
  The model keeps the minimum as a `real` in the `BelowMinimumDownPayment` error and its text as
  the fixed prefix only.
- `Schedule.KeySetText` fixes the `keySet()` rendering as "[biweekly, monthly, weekly]". That is
  the iteration order of a 16-bucket `HashMap` holding these keys. The order is not guaranteed by
  the Java specification.
- `Schedule.ToLower` lower-cases ASCII letters only. Java's locale-sensitive Unicode mapping is
  not modelled. For example, KELVIN SIGN lower-cases to 'k' in Java.
- A null schedule string (a NullPointerException in Java) is not modelled.
- The debug `printf` trace after the payment computation is not modelled.
- The interest rate is a static field shared by all calculator instances. It is modelled as a
  field of one `MortgageCalculator` object that stands for the whole process. Concurrent access
  is not modelled.
- The REST controller, the Spring Boot bootstrap and the Swagger configuration are transport and
  documentation wiring. They are not part of this model.
- The tests' Map-returning, rate-parameterised overloads and their ±tolerance reference values
  belong to another iteration of the code. They are not part of this model, and neither is the
  inverse round trip of `mortgageAmount`, which is a stub here.
