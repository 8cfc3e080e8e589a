/** Calendar dates and the `YYYY-MM` month key the reports group by. */
module Dates {

  /**
   * A date as (year, month, day). The model accepts any triple: no contract depends on the
   * triple being a calendar date, and the date picker only ever produces calendar dates.
   */
  datatype Date = Date(year: int, month: int, day: int)

  /** The month key `YYYY-MM` of a date (its first seven characters). */
  datatype Month = Month(year: int, month: int)

  function MonthOf(d: Date): Month
  {
    Month(d.year, d.month)
  }

  /** Chronological order of dates: the order `sort_values('tanggal')` uses. */
  predicate DateLe(a: Date, b: Date)
  {
    a.year < b.year
    || (a.year == b.year && (a.month < b.month || (a.month == b.month && a.day <= b.day)))
  }

  /** Strict order of month keys; for four-digit years it agrees with the order of the `YYYY-MM` strings. */
  predicate MonthLt(a: Month, b: Month)
  {
    a.year < b.year || (a.year == b.year && a.month < b.month)
  }
}
