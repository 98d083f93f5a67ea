/**
 * The input checks that MortgageCalculator.paymentAmount runs before any arithmetic. Every check
 * runs; each failing one contributes its own message, in a fixed order, and the messages are
 * joined with ", " into the text of the rejection.
 */
module Validation {
  import Schedule
  import Pricing

  const MinAmortizationPeriod: int := 5
  const MaxAmortizationPeriod: int := 25
  const Separator: string := ", "

  /** One failed check; the last carries the minimum down payment it was measured against. */
  datatype ValidationError =
    | UnknownSchedule
    | AmortizationOutOfRange
    | DownPaymentExceedsPrice
    | NegativeDownPayment
    | NegativeAskingPrice
    | BelowMinimumDownPayment(minimum: real)

  /** The position of a check in the order the checks run. */
  function Rank(e: ValidationError): nat
  {
    match e
    case UnknownSchedule => 0
    case AmortizationOutOfRange => 1
    case DownPaymentExceedsPrice => 2
    case NegativeDownPayment => 3
    case NegativeAskingPrice => 4
    case BelowMinimumDownPayment(_) => 5
  }

  /** The message a failed check reports (the minimum's numeric formatting is not modelled). */
  function Text(e: ValidationError): string
  {
    match e
    case UnknownSchedule => "Payment schedule must be one of " + Schedule.KeySetText
    case AmortizationOutOfRange => "The amortization period must be >= 5 and less than or equal to 25."
    case DownPaymentExceedsPrice => "The down payment cannot exceed the asking price."
    case NegativeDownPayment => "The down payment must be larger than zero."
    case NegativeAskingPrice => "The asking price must be larger than zero."
    case BelowMinimumDownPayment(_) => "The down payment to aking price ratio must be greater than "
  }

  /** The messages of a list of failed checks, in the same order. */
  function Texts(errs: seq<ValidationError>): (r: seq<string>)
    ensures |r| == |errs|
  {
    if errs == [] then [] else Texts(errs[..|errs| - 1]) + [Text(errs[|errs| - 1])]
  }

  /** Every check passes: the inputs may go on to the payment calculation. */
  predicate Acceptable(askingPrice: real, downPayment: real, schedule: string, amortizationPeriod: int)
  {
    && Schedule.IsKnown(schedule)
    && MinAmortizationPeriod <= amortizationPeriod <= MaxAmortizationPeriod
    && downPayment <= askingPrice
    && 0.0 <= downPayment
    && 0.0 <= askingPrice
    && Pricing.MinimumDownPayment(askingPrice) <= downPayment
  }

  /** The failed checks, in the order the checks run. */
  function Violations(askingPrice: real, downPayment: real, schedule: string, amortizationPeriod: int)
    : (errs: seq<ValidationError>)
    ensures errs == [] <==> Acceptable(askingPrice, downPayment, schedule, amortizationPeriod)
    ensures |errs| <= 6
    ensures forall i, j :: 0 <= i < j < |errs| ==> Rank(errs[i]) < Rank(errs[j])
  {
    var minimum := Pricing.MinimumDownPayment(askingPrice);
    Check(!Schedule.IsKnown(schedule), UnknownSchedule)
    + Check(amortizationPeriod < MinAmortizationPeriod || amortizationPeriod > MaxAmortizationPeriod,
            AmortizationOutOfRange)
    + Check(downPayment > askingPrice, DownPaymentExceedsPrice)
    + Check(downPayment < 0.0, NegativeDownPayment)
    + Check(askingPrice < 0.0, NegativeAskingPrice)
    + Check(downPayment < minimum, BelowMinimumDownPayment(minimum))
  }

  /** What one check contributes: its error when it fails, nothing otherwise. */
  function Check(fails: bool, e: ValidationError): (r: seq<ValidationError>)
    ensures |r| <= 1
    ensures forall x :: x in r <==> fails && x == e
  {
    if fails then [e] else []
  }

  /** Each check reports independently of the others: its error is present iff its condition fails. */
  lemma ViolationsAreIndependent(askingPrice: real, downPayment: real, schedule: string, amortizationPeriod: int)
    ensures var errs := Violations(askingPrice, downPayment, schedule, amortizationPeriod);
      var minimum := Pricing.MinimumDownPayment(askingPrice);
      && (UnknownSchedule in errs <==> !Schedule.IsKnown(schedule))
      && (AmortizationOutOfRange in errs <==> amortizationPeriod < 5 || amortizationPeriod > 25)
      && (DownPaymentExceedsPrice in errs <==> downPayment > askingPrice)
      && (NegativeDownPayment in errs <==> downPayment < 0.0)
      && (NegativeAskingPrice in errs <==> askingPrice < 0.0)
      && (BelowMinimumDownPayment(minimum) in errs <==> downPayment < minimum)
      && (forall e :: e in errs && e.BelowMinimumDownPayment? ==> e.minimum == minimum)
  {
    var minimum := Pricing.MinimumDownPayment(askingPrice);
    var c0 := Check(!Schedule.IsKnown(schedule), UnknownSchedule);
    var c1 := Check(amortizationPeriod < MinAmortizationPeriod || amortizationPeriod > MaxAmortizationPeriod,
                    AmortizationOutOfRange);
    var c2 := Check(downPayment > askingPrice, DownPaymentExceedsPrice);
    var c3 := Check(downPayment < 0.0, NegativeDownPayment);
    var c4 := Check(askingPrice < 0.0, NegativeAskingPrice);
    var c5 := Check(downPayment < minimum, BelowMinimumDownPayment(minimum));
    var errs := Violations(askingPrice, downPayment, schedule, amortizationPeriod);
    assert errs == c0 + c1 + c2 + c3 + c4 + c5;
    forall e ensures e in errs <==> e in c0 || e in c1 || e in c2 || e in c3 || e in c4 || e in c5 {
      InConcat(e, c0 + c1 + c2 + c3 + c4, c5);
      InConcat(e, c0 + c1 + c2 + c3, c4);
      InConcat(e, c0 + c1 + c2, c3);
      InConcat(e, c0 + c1, c2);
      InConcat(e, c0, c1);
    }
  }

  lemma InConcat(e: ValidationError, a: seq<ValidationError>, b: seq<ValidationError>)
    ensures e in a + b <==> e in a || e in b
  {
  }

  /** The strings joined with `sep` between neighbours, as StringJoiner builds them. */
  function Join(parts: seq<string>, sep: string): string
  {
    if |parts| == 0 then ""
    else if |parts| == 1 then parts[0]
    else Join(parts[..|parts| - 1], sep) + sep + parts[|parts| - 1]
  }

  /** The whole rejection text: every failed check's message, in check order, joined by ", ". */
  function Message(errs: seq<ValidationError>): string
  {
    Join(Texts(errs), Separator)
  }

  /**
   * Each part appears in the joined text in its place: the join of the first k + 1 parts is a
   * prefix of the whole join and ends with part k.
   */
  lemma {:induction false} JoinKeepsOrder(parts: seq<string>, sep: string, k: nat)
    requires k < |parts|
    ensures Join(parts[..k + 1], sep) <= Join(parts, sep)
    ensures parts[k] <= Join(parts[..k + 1], sep)[|Join(parts[..k + 1], sep)| - |parts[k]|..]
  {
    var n := |parts|;
    assert parts[..k + 1][..k] == parts[..k];
    if k + 1 < n {
      JoinKeepsOrder(parts[..n - 1], sep, k);
      assert parts[..n - 1][..k + 1] == parts[..k + 1];
      assert Join(parts, sep) == Join(parts[..n - 1], sep) + sep + parts[n - 1];
    } else {
      assert parts[..k + 1] == parts;
    }
  }

  /** Builds the joined text one part at a time, as the source's StringJoiner loop does. */
  method JoinMessages(parts: seq<string>, sep: string) returns (s: string)
    ensures s == Join(parts, sep)
  {
    s := "";
    var i := 0;
    while i < |parts|
      invariant 0 <= i <= |parts|
      invariant s == Join(parts[..i], sep)
    {
      if i == 0 {
        s := parts[0];
      } else {
        assert parts[..i + 1][..i] == parts[..i];
        s := s + sep + parts[i];
      }
      i := i + 1;
    }
    assert parts[..i] == parts;
  }

  /** The failed checks so far, extended by one more check. */
  ghost function Record(failed: seq<ValidationError>, fails: bool, e: ValidationError): (r: seq<ValidationError>)
    ensures r == failed + Check(fails, e)
    ensures Texts(r) == Texts(failed) + (if fails then [Text(e)] else [])
  {
    if fails then
      assert (failed + [e])[..|failed|] == failed;
      failed + [e]
    else
      assert failed + [] == failed;
      failed
  }

  /**
   * Runs the six checks in order, appending the message of each one that fails; the minimum
   * down payment is computed first and the schedule name lower-cased before its lookup.
   */
  method CollectErrors(askingPrice: real, downPayment: real, paymentSchedule: string, amortizationPeriod: int)
    returns (errors: seq<string>)
    ensures errors == Texts(Violations(askingPrice, downPayment, paymentSchedule, amortizationPeriod))
  {
    var minDownPayment := Pricing.MinimumDownPayment(askingPrice);
    var schedule := Schedule.ToLower(paymentSchedule);
    errors := [];
    ghost var failed: seq<ValidationError> := [];

    if schedule !in Schedule.PaymentsPerYearTable {
      errors := errors + [Text(UnknownSchedule)];
    }
    failed := Record(failed, !Schedule.IsKnown(paymentSchedule), UnknownSchedule);
    if amortizationPeriod < MinAmortizationPeriod || amortizationPeriod > MaxAmortizationPeriod {
      errors := errors + [Text(AmortizationOutOfRange)];
    }
    failed := Record(failed, amortizationPeriod < MinAmortizationPeriod || amortizationPeriod > MaxAmortizationPeriod,
                     AmortizationOutOfRange);
    if downPayment > askingPrice {
      errors := errors + [Text(DownPaymentExceedsPrice)];
    }
    failed := Record(failed, downPayment > askingPrice, DownPaymentExceedsPrice);
    if downPayment < 0.0 {
      errors := errors + [Text(NegativeDownPayment)];
    }
    failed := Record(failed, downPayment < 0.0, NegativeDownPayment);
    if askingPrice < 0.0 {
      errors := errors + [Text(NegativeAskingPrice)];
    }
    failed := Record(failed, askingPrice < 0.0, NegativeAskingPrice);
    if downPayment < minDownPayment {
      errors := errors + [Text(BelowMinimumDownPayment(minDownPayment))];
    }
    failed := Record(failed, downPayment < minDownPayment, BelowMinimumDownPayment(minDownPayment));
    assert errors == Texts(failed);
    assert failed == Violations(askingPrice, downPayment, paymentSchedule, amortizationPeriod) by {
      RecordedChecksAreViolations(askingPrice, downPayment, paymentSchedule, amortizationPeriod);
    }
  }

  lemma RecordedChecksAreViolations(askingPrice: real, downPayment: real, paymentSchedule: string, amortizationPeriod: int)
    ensures var minimum := Pricing.MinimumDownPayment(askingPrice);
      Violations(askingPrice, downPayment, paymentSchedule, amortizationPeriod)
      == Record(Record(Record(Record(Record(Record([],
           !Schedule.IsKnown(paymentSchedule), UnknownSchedule),
           amortizationPeriod < MinAmortizationPeriod || amortizationPeriod > MaxAmortizationPeriod, AmortizationOutOfRange),
           downPayment > askingPrice, DownPaymentExceedsPrice),
           downPayment < 0.0, NegativeDownPayment),
           askingPrice < 0.0, NegativeAskingPrice),
           downPayment < minimum, BelowMinimumDownPayment(minimum))
  {
    var c0 := !Schedule.IsKnown(paymentSchedule);
    assert [] + Check(c0, UnknownSchedule) == Check(c0, UnknownSchedule);
  }
}
