/**
 * Points in time and the steps a billing cycle advances by.
 *
 * A datetime is a whole number of seconds. Day and week steps are plain
 * additions of 86400-second days. Month and year steps come from the date
 * library's relative-delta arithmetic, whose calendar rules (month lengths,
 * clamping to the last day of a month) are not part of this model: they are
 * given as a `Calendar` value, and all that is known of it is that shifting
 * by a positive count moves forward, by zero stays put, and by a negative
 * count moves backward.
 */
module Dates {

  /** A naive datetime, in seconds. */
  type Time = int

  /** The length of `relativedelta(days=1)`, in seconds. */
  const Day: int := 86400

  datatype Option<T> = None | Some(value: T)

  /** A relative delta of whole days, months or years. */
  datatype Step = Days(count: int) | Months(count: int) | Years(count: int)

  /** Month and year arithmetic: `addMonths(t, n)` is `t + relativedelta(months=n)`. */
  datatype Calendar = Calendar(addMonths: (Time, int) -> Time, addYears: (Time, int) -> Time)

  /** Shifting by a count moves in the direction of the count's sign. */
  ghost predicate ValidCalendar(cal: Calendar)
  {
    && (forall t: Time, n: int :: n > 0 ==> cal.addMonths(t, n) > t)
    && (forall t: Time, n: int :: n == 0 ==> cal.addMonths(t, n) == t)
    && (forall t: Time, n: int :: n < 0 ==> cal.addMonths(t, n) < t)
    && (forall t: Time, n: int :: n > 0 ==> cal.addYears(t, n) > t)
    && (forall t: Time, n: int :: n == 0 ==> cal.addYears(t, n) == t)
    && (forall t: Time, n: int :: n < 0 ==> cal.addYears(t, n) < t)
  }

  /** `t + step`. */
  function Shift(cal: Calendar, t: Time, step: Step): Time
  {
    match step
    case Days(n) => t + n * Day
    case Months(n) => cal.addMonths(t, n)
    case Years(n) => cal.addYears(t, n)
  }

  /** A step moves forward exactly when its count is positive, and stays put exactly when it is zero. */
  lemma ShiftDirection(cal: Calendar, t: Time, step: Step)
    requires ValidCalendar(cal)
    ensures Shift(cal, t, step) > t <==> step.count > 0
    ensures Shift(cal, t, step) == t <==> step.count == 0
    ensures Shift(cal, t, step) < t <==> step.count < 0
  {
  }
}
