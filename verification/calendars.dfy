/**
 * The parts of Foundation's `Calendar` and `Date` that the ledger and its views
 * call. Their arithmetic (time zones, locale week starts, month lengths) is not
 * modelled: a `Calendar` value carries each operation as an uninterpreted
 * function, so every rule below holds for whatever calendar the caller supplies,
 * provided its weekday numbers lie in 1..7 (the `Weekday` type), as Foundation's
 * calendars number them; the best-selling-day view indexes its day names by them.
 */
module Calendars {
  import opened Wrappers

  /** A point in time (Foundation's `Date`), as an integer timestamp. */
  type Date = int

  /** Calendar units used by the core (`.day`, `.weekOfYear`, `.month`, `.year`). */
  datatype Unit = Day | WeekOfYear | Month | Year

  /** `Calendar.component(.weekday, from:)`: 1 is Sunday, 7 is Saturday. */
  type Weekday = d: int | 1 <= d <= 7 witness 1

  datatype Calendar = Calendar(
    /** `dateInterval(of: unit, for: date)?.start`: the start of the unit containing the date, if any. */
    intervalStart: (Unit, Date) -> Option<Date>,
    /** `date(byAdding: unit, value: n, to: date)`, which may fail. */
    adding: (Unit, int, Date) -> Option<Date>,
    /** `startOfDay(for:)`. */
    startOfDay: Date -> Date,
    /** `isDate(_:inSameDayAs:)`. */
    sameDay: (Date, Date) -> bool,
    /** `component(.weekday, from:)`. */
    weekday: Date -> Weekday,
    /** `component(.month, from:)`. */
    month: Date -> int)
  {
    /** The start of the unit containing `now`, falling back to `now` itself
        (`dateInterval(of:for:)?.start ?? now`). */
    function StartOf(unit: Unit, now: Date): Date {
      intervalStart(unit, now).GetOr(now)
    }
  }
}
