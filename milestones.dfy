/**
 * The milestone scans of the amortization page
 * (src/components/amortization/milestone-analysis.tsx): the first month the
 * balance is at most half, and at most a quarter, of the principal, and the
 * first month the interest paid so far reaches the principal.
 */
module Milestones {
  import opened Wrappers
  import opened Lists
  import opened Amortization

  predicate HalfPaid(originalPrincipal: real, row: Row)
  {
    row.balance <= originalPrincipal / 2.0
  }

  predicate ThreeQuartersPaid(originalPrincipal: real, row: Row)
  {
    row.balance <= originalPrincipal / 4.0
  }

  predicate InterestReachesPrincipal(originalPrincipal: real, row: Row)
  {
    row.totalInterest >= originalPrincipal
  }

  /** The three rows found, each absent when no row qualifies. */
  datatype Analysis = Analysis(halfway: Option<Row>, quarter: Option<Row>, interestEquals: Option<Row>)

  function Analyse(schedule: seq<Row>, originalPrincipal: real): (a: Analysis)
    ensures a.halfway.Some? <==> exists i :: 0 <= i < |schedule| && HalfPaid(originalPrincipal, schedule[i])
    ensures a.quarter.Some? <==> exists i :: 0 <= i < |schedule| && ThreeQuartersPaid(originalPrincipal, schedule[i])
    ensures a.interestEquals.Some?
        <==> exists i :: 0 <= i < |schedule| && InterestReachesPrincipal(originalPrincipal, schedule[i])
  {
    Analysis(
      Find(schedule, row => HalfPaid(originalPrincipal, row)),
      Find(schedule, row => ThreeQuartersPaid(originalPrincipal, row)),
      Find(schedule, row => InterestReachesPrincipal(originalPrincipal, row)))
  }

  /**
   * Each row found is the earliest qualifying one: it qualifies and no row
   * before it does.
   */
  lemma EarliestMilestones(schedule: seq<Row>, originalPrincipal: real)
    ensures var a := Analyse(schedule, originalPrincipal);
      && (a.halfway.Some? ==>
            exists i :: 0 <= i < |schedule| && schedule[i] == a.halfway.value
              && HalfPaid(originalPrincipal, schedule[i])
              && forall j :: 0 <= j < i ==> !HalfPaid(originalPrincipal, schedule[j]))
      && (a.quarter.Some? ==>
            exists i :: 0 <= i < |schedule| && schedule[i] == a.quarter.value
              && ThreeQuartersPaid(originalPrincipal, schedule[i])
              && forall j :: 0 <= j < i ==> !ThreeQuartersPaid(originalPrincipal, schedule[j]))
      && (a.interestEquals.Some? ==>
            exists i :: 0 <= i < |schedule| && schedule[i] == a.interestEquals.value
              && InterestReachesPrincipal(originalPrincipal, schedule[i])
              && forall j :: 0 <= j < i ==> !InterestReachesPrincipal(originalPrincipal, schedule[j]))
  {
    var h := FindFirst(schedule, row => HalfPaid(originalPrincipal, row));
    var q := FindFirst(schedule, row => ThreeQuartersPaid(originalPrincipal, row));
    var t := FindFirst(schedule, row => InterestReachesPrincipal(originalPrincipal, row));
    if h.Some? {
      assert schedule[h.value] == Analyse(schedule, originalPrincipal).halfway.value;
    }
    if q.Some? {
      assert schedule[q.value] == Analyse(schedule, originalPrincipal).quarter.value;
    }
    if t.Some? {
      assert schedule[t.value] == Analyse(schedule, originalPrincipal).interestEquals.value;
    }
  }

  /**
   * For a non-negative principal, reaching 75% paid off means having passed
   * the halfway point, no later.
   */
  lemma HalfwayNoLaterThanQuarter(schedule: seq<Row>, originalPrincipal: real)
    requires originalPrincipal >= 0.0
    requires FindFirst(schedule, row => ThreeQuartersPaid(originalPrincipal, row)).Some?
    ensures FindFirst(schedule, row => HalfPaid(originalPrincipal, row)).Some?
    ensures FindFirst(schedule, row => HalfPaid(originalPrincipal, row)).value
         <= FindFirst(schedule, row => ThreeQuartersPaid(originalPrincipal, row)).value
  {
    FindFirstWeaker(schedule, row => ThreeQuartersPaid(originalPrincipal, row), row => HalfPaid(originalPrincipal, row));
  }

  /** The cards rendered, in page order: one per milestone found. */
  function Cards(a: Analysis): (titles: seq<string>)
    ensures "Halfway Point" in titles <==> a.halfway.Some?
    ensures "75% Complete" in titles <==> a.quarter.Some?
    ensures "Interest Warning" in titles <==> a.interestEquals.Some?
    ensures |titles| <= 3
  {
    (if a.halfway.Some? then ["Halfway Point"] else [])
    + (if a.quarter.Some? then ["75% Complete"] else [])
    + (if a.interestEquals.Some? then ["Interest Warning"] else [])
  }

  /**
   * On a computed schedule with a positive principal both paid-off
   * milestones are always reached (the last balance is zero), and the month
   * shown is the row's position plus one.
   */
  lemma PaidOffMilestonesReached(principal: real, annualRate: real, n: nat)
    requires principal > 0.0 && annualRate > 0.0 && n >= 1
    ensures var s := AmortizationOf(principal, annualRate, n).schedule;
      && FindFirst(s, row => HalfPaid(principal, row)).Some?
      && FindFirst(s, row => ThreeQuartersPaid(principal, row)).Some?
      && s[FindFirst(s, row => HalfPaid(principal, row)).value].month
         == FindFirst(s, row => HalfPaid(principal, row)).value + 1
      && s[FindFirst(s, row => ThreeQuartersPaid(principal, row)).value].month
         == FindFirst(s, row => ThreeQuartersPaid(principal, row)).value + 1
  {
    var s := AmortizationOf(principal, annualRate, n).schedule;
    LoanPaidOff(principal, annualRate, n);
    assert ThreeQuartersPaid(principal, s[n - 1]);
    HalfwayNoLaterThanQuarter(s, principal);
    AmortizationRows(principal, annualRate, n, FindFirst(s, row => HalfPaid(principal, row)).value);
    AmortizationRows(principal, annualRate, n, FindFirst(s, row => ThreeQuartersPaid(principal, row)).value);
  }
}
