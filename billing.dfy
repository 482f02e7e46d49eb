/**
 * The billing terms of a recurring payment and the cycle calculator built on
 * them: the cycle length a billing period and frequency give, the trial
 * window, the next (start, end) billing cycle and the payment due date.
 */
module Billing {
  import opened Dates

  /** An amount of money in cents (a decimal with two places). */
  type Cents = int

  /** The fields of a recurring payment that the cycle calculator reads. */
  datatype Terms = Terms(
    billingPeriod: string,
    billingFrequency: int,
    billingStartDt: Time,
    numDays: int,
    paymentAmount: Cents,
    hasTrialPeriod: bool,
    trialPeriodStartDt: Option<Time>,
    trialPeriodEndDt: Option<Time>,
    trialAmount: Option<Cents>)

  /** A billing cycle: its start and end datetimes. */
  datatype Cycle = Cycle(start: Time, end: Time)

  /** The billing periods a recurring payment offers. */
  const BillingPeriods: set<string> := {"month", "year", "week", "day"}

  /** The relative delta one billing cycle spans. */
  function CycleLength(period: string, frequency: int): (step: Step)
    ensures step.Years? <==> period == "year"
    ensures step.Days? <==> period == "day" || period == "week"
    ensures step.count == if period == "week" then 7 * frequency else frequency
  {
    if period == "year" then Years(frequency)
    else if period == "month" then Months(frequency)
    else if period == "day" then Days(frequency)
    else if period == "week" then Days(frequency * 7)
    else Months(frequency)
  }

  /** Where a cycle beginning at `start` ends. */
  function CycleEnd(cal: Calendar, t: Terms, start: Time): Time
  {
    Shift(cal, start, CycleLength(t.billingPeriod, t.billingFrequency))
  }

  /** What one cycle of each billing period adds to its start. */
  lemma CycleEndByPeriod(cal: Calendar, t: Terms, start: Time)
    ensures t.billingPeriod == "year" ==> CycleEnd(cal, t, start) == cal.addYears(start, t.billingFrequency)
    ensures t.billingPeriod == "month" ==> CycleEnd(cal, t, start) == cal.addMonths(start, t.billingFrequency)
    ensures t.billingPeriod == "day" ==> CycleEnd(cal, t, start) == start + t.billingFrequency * Day
    ensures t.billingPeriod == "week" ==> CycleEnd(cal, t, start) == start + 7 * t.billingFrequency * Day
    ensures t.billingPeriod !in BillingPeriods ==>
              CycleEnd(cal, t, start) == CycleEnd(cal, t.(billingPeriod := "month"), start)
  {
  }

  /** A cycle ends after it starts exactly when the frequency is at least one. */
  lemma CycleEndAdvances(cal: Calendar, t: Terms, start: Time)
    requires ValidCalendar(cal)
    ensures CycleEnd(cal, t, start) > start <==> t.billingFrequency >= 1
    ensures CycleEnd(cal, t, start) >= start <==> t.billingFrequency >= 0
  {
    var step := CycleLength(t.billingPeriod, t.billingFrequency);
    ShiftDirection(cal, start, step);
  }

  /**
   * The trial window is looked at only before billing starts and only when
   * the trial is switched on and has a start date.
   */
  predicate TrialChecked(t: Terms, now: Time)
  {
    now < t.billingStartDt && t.hasTrialPeriod && t.trialPeriodStartDt.Some?
  }

  /**
   * The terms after the trial window has been looked at: a missing trial end,
   * or one after the billing start, becomes the billing start.
   */
  function ClampTrial(t: Terms, now: Time): (r: Terms)
    ensures r == t.(trialPeriodEndDt := r.trialPeriodEndDt)
    ensures TrialChecked(t, now) ==> r.trialPeriodEndDt.Some? && r.trialPeriodEndDt.value <= t.billingStartDt
    ensures TrialChecked(t, now) && (t.trialPeriodEndDt.None? || t.trialPeriodEndDt.value > t.billingStartDt) ==>
              r.trialPeriodEndDt == Some(t.billingStartDt)
    ensures TrialChecked(t, now) && t.trialPeriodEndDt.Some? && t.trialPeriodEndDt.value <= t.billingStartDt ==> r == t
    ensures !TrialChecked(t, now) ==> r == t
  {
    if TrialChecked(t, now) && (t.trialPeriodEndDt.None? || t.trialPeriodEndDt.value > t.billingStartDt)
    then t.(trialPeriodEndDt := Some(t.billingStartDt))
    else t
  }

  /** Whether `now` falls inside the (clamped) trial window. */
  predicate WithinTrial(t: Terms, now: Time)
  {
    TrialChecked(t, now) && now <= ClampTrial(t, now).trialPeriodEndDt.value
  }

  /**
   * The trial is running exactly when billing has not started, the trial is
   * switched on with a start date, and `now` is not past a stored trial end
   * (a missing trial end lets the trial run up to the billing start).
   */
  lemma WithinTrialIff(t: Terms, now: Time)
    ensures WithinTrial(t, now) <==>
              && now < t.billingStartDt
              && t.hasTrialPeriod
              && t.trialPeriodStartDt.Some?
              && (t.trialPeriodEndDt.None? || now <= t.trialPeriodEndDt.value)
  {
  }

  /** Looking at the trial window twice changes nothing more and answers the same. */
  lemma ClampTrialIdempotent(t: Terms, now: Time)
    ensures ClampTrial(ClampTrial(t, now), now) == ClampTrial(t, now)
    ensures WithinTrial(ClampTrial(t, now), now) == WithinTrial(t, now)
    ensures TrialChecked(ClampTrial(t, now), now) == TrialChecked(t, now)
  {
  }

  /** The terms after the next cycle has been computed from `last`. */
  function TermsAfterNextCycle(t: Terms, last: Option<Cycle>, now: Time): Terms
  {
    if last.None? then ClampTrial(t, now) else t
  }

  /**
   * The billing cycle after `last`; with no last cycle, the trial window
   * when the trial is running, and otherwise the cycle starting at the
   * billing start.
   */
  function NextCycle(cal: Calendar, t: Terms, last: Option<Cycle>, now: Time): (c: Cycle)
    ensures last.None? && WithinTrial(t, now) ==>
              && c.start == t.trialPeriodStartDt.value
              && now <= c.end <= t.billingStartDt
              && Some(c.end) == ClampTrial(t, now).trialPeriodEndDt
    ensures last.None? && !WithinTrial(t, now) ==>
              c.start == t.billingStartDt && c.end == CycleEnd(cal, t, c.start)
    ensures last.Some? ==> c.start == last.value.end + Day && c.end == CycleEnd(cal, t, c.start)
  {
    if last.None? then
      if WithinTrial(t, now) then
        Cycle(t.trialPeriodStartDt.value, ClampTrial(t, now).trialPeriodEndDt.value)
      else
        Cycle(t.billingStartDt, CycleEnd(cal, t, t.billingStartDt))
    else
      var start := last.value.end + Day;
      Cycle(start, CycleEnd(cal, t, start))
  }

  /** The next cycle after `last` depends only on the period and frequency, not on the trial fields. */
  lemma NextCycleAfterIgnoresTrial(cal: Calendar, t: Terms, u: Terms, last: Cycle, now: Time, now': Time)
    requires t.billingPeriod == u.billingPeriod && t.billingFrequency == u.billingFrequency
    ensures NextCycle(cal, t, Some(last), now) == NextCycle(cal, u, Some(last), now')
  {
  }

  /**
   * Consecutive cycles of a daily or weekly plan start one cycle length plus
   * one day apart, and a cycle after a previous one never starts before it
   * when the frequency is not negative.
   */
  lemma ConsecutiveStarts(cal: Calendar, t: Terms, prev: Cycle, now: Time)
    requires ValidCalendar(cal)
    requires prev.end == CycleEnd(cal, t, prev.start)
    ensures t.billingPeriod == "day" ==>
              NextCycle(cal, t, Some(prev), now).start == prev.start + (t.billingFrequency + 1) * Day
    ensures t.billingPeriod == "week" ==>
              NextCycle(cal, t, Some(prev), now).start == prev.start + (7 * t.billingFrequency + 1) * Day
    ensures t.billingFrequency >= 0 ==> NextCycle(cal, t, Some(prev), now).start > prev.start
  {
    CycleEndAdvances(cal, t, prev.start);
  }

  /** The payment due date of a cycle: `num_days` days after its end. */
  function DueDate(t: Terms, c: Cycle): (due: Time)
    ensures due >= c.end <==> t.numDays >= 0
    ensures due - c.end == t.numDays * Day
  {
    c.end + t.numDays * Day
  }
}
