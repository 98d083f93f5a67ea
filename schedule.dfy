/** The payment-schedule table of MortgageCalculator and the case-insensitive lookup into it. */
module Schedule {

  /** Lower-cases one character: 'A'..'Z' become 'a'..'z', every other character is unchanged. */
  function LowerChar(ch: char): (r: char)
    ensures 'a' <= r <= 'z' <==> ('a' <= ch <= 'z' || 'A' <= ch <= 'Z')
  {
    if 'A' <= ch <= 'Z' then (ch as int - 'A' as int + 'a' as int) as char else ch
  }

  /** The upper-case partner of a lower-case letter; any other character is its own partner. */
  function UpperChar(ch: char): char
  {
    if 'a' <= ch <= 'z' then (ch as int - 'a' as int + 'A' as int) as char else ch
  }

  /** String.toLowerCase, character by character. */
  function ToLower(s: string): (r: string)
    ensures |r| == |s|
  {
    if s == [] then [] else [LowerChar(s[0])] + ToLower(s[1..])
  }

  /** A word made only of lower-case letters, as the table's keys are. */
  predicate IsLowerWord(t: string)
  {
    forall i :: 0 <= i < |t| ==> 'a' <= t[i] <= 'z'
  }

  /** `s` spells the lower-case word `t` with any mix of upper- and lower-case letters. */
  predicate IsCaseVariant(s: string, t: string)
  {
    |s| == |t| && forall i :: 0 <= i < |s| ==> s[i] == t[i] || s[i] == UpperChar(t[i])
  }

  /** The schedule-to-payments-per-year table: weekly is 4*12, biweekly 52/2, monthly 12. */
  const PaymentsPerYearTable: map<string, nat> := map["weekly" := 4 * 12, "biweekly" := 52 / 2, "monthly" := 12]

  /**
   * The table's key set as `keySet().toString()` renders it: the table is a HashMap of
   * capacity 16, where "biweekly" and "monthly" share bucket 8 (in insertion order) and
   * "weekly" sits in bucket 14.
   */
  const KeySetText: string := "[biweekly, monthly, weekly]"

  /** The schedule name is a key of the table once lower-cased. */
  predicate IsKnown(schedule: string)
  {
    ToLower(schedule) in PaymentsPerYearTable
  }

  /** Payments per year of a known schedule name, looked up after lower-casing. */
  function PaymentsPerYear(schedule: string): (r: nat)
    requires IsKnown(schedule)
    ensures r == 48 || r == 26 || r == 12
  {
    PaymentsPerYearTable[ToLower(schedule)]
  }

  /** Lower-casing `s` yields the lower-case word `t` exactly when `s` is a case variant of `t`. */
  lemma {:induction false} ToLowerIsCaseVariant(s: string, t: string)
    requires IsLowerWord(t)
    ensures ToLower(s) == t <==> IsCaseVariant(s, t)
  {
    if |s| != |t| || s == [] {
      return;
    }
    ToLowerIsCaseVariant(s[1..], t[1..]);
    assert ToLower(s) == [LowerChar(s[0])] + ToLower(s[1..]);
    var head := LowerChar(s[0]) == t[0];
    assert head <==> (s[0] == t[0] || s[0] == UpperChar(t[0]));
    if IsCaseVariant(s, t) {
      assert IsCaseVariant(s[1..], t[1..]) by {
        forall i | 0 <= i < |s[1..]| ensures s[1..][i] == t[1..][i] || s[1..][i] == UpperChar(t[1..][i]) {
          assert s[1..][i] == s[i + 1] && t[1..][i] == t[i + 1];
        }
      }
      assert ToLower(s) == [t[0]] + t[1..];
    }
    if ToLower(s) == t {
      assert ToLower(s)[0] == t[0];
      assert ToLower(s[1..]) == ToLower(s)[1..];
      forall i | 0 <= i < |s| ensures s[i] == t[i] || s[i] == UpperChar(t[i]) {
        if i > 0 {
          assert s[1..][i - 1] == s[i] && t[1..][i - 1] == t[i];
        }
      }
    }
  }

  /**
   * A schedule name is accepted exactly when it is a case variant of "weekly", "biweekly" or
   * "monthly"; these map to 48, 26 and 12 payments per year.
   */
  lemma ScheduleLookup(schedule: string)
    ensures IsKnown(schedule) <==>
      IsCaseVariant(schedule, "weekly") || IsCaseVariant(schedule, "biweekly") || IsCaseVariant(schedule, "monthly")
    ensures IsCaseVariant(schedule, "weekly") ==> IsKnown(schedule) && PaymentsPerYear(schedule) == 48
    ensures IsCaseVariant(schedule, "biweekly") ==> IsKnown(schedule) && PaymentsPerYear(schedule) == 26
    ensures IsCaseVariant(schedule, "monthly") ==> IsKnown(schedule) && PaymentsPerYear(schedule) == 12
  {
    ToLowerIsCaseVariant(schedule, "weekly");
    ToLowerIsCaseVariant(schedule, "biweekly");
    ToLowerIsCaseVariant(schedule, "monthly");
  }

  /** The three table keys, written in lower case, are themselves accepted. */
  lemma KnownNames()
    ensures IsKnown("weekly") && IsKnown("biweekly") && IsKnown("monthly")
  {
    ScheduleLookup("weekly");
    ScheduleLookup("biweekly");
    ScheduleLookup("monthly");
    assert IsCaseVariant("weekly", "weekly");
    assert IsCaseVariant("biweekly", "biweekly");
    assert IsCaseVariant("monthly", "monthly");
  }

  /** "Weekly" resolves like "weekly"; an unknown name such as "dne" is not accepted. */
  lemma ScheduleExamples()
    ensures IsKnown("Weekly") && PaymentsPerYear("Weekly") == 48
    ensures IsKnown("MONTHLY") && PaymentsPerYear("MONTHLY") == 12
    ensures !IsKnown("dne")
  {
    ScheduleLookup("Weekly");
    assert IsCaseVariant("Weekly", "weekly") by {
      assert "Weekly"[0] == UpperChar("weekly"[0]);
    }
    ScheduleLookup("MONTHLY");
    assert IsCaseVariant("MONTHLY", "monthly") by {
      forall i | 0 <= i < 7 ensures "MONTHLY"[i] == UpperChar("monthly"[i]) { }
    }
    ScheduleLookup("dne");
  }
}
