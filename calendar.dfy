/** Proleptic Gregorian calendar dates, as produced by `Timestamp.date()`,
    and the quarter of a month as the loader derives it. */
module Calendar {

  datatype Date = Date(year: int, month: int, day: int) {

    /** A real calendar day: month 1..12 and a day that exists in that month. */
    predicate Valid() {
      1 <= month <= 12 && 1 <= day <= DaysInMonth(year, month)
    }
  }

  /** The only dates a successful parse can produce. */
  type CalendarDate = d: Date | d.Valid() witness Date(2020, 6, 15)

  /** A parsed timestamp: its calendar day and the time of day in seconds.
      Only the calendar day survives cleaning (`.dt.date`). */
  datatype Timestamp = Timestamp(date: CalendarDate, secondOfDay: nat)

  predicate IsLeapYear(year: int) {
    year % 4 == 0 && (year % 100 != 0 || year % 400 == 0)
  }

  function DaysInMonth(year: int, month: int): (n: int)
    requires 1 <= month <= 12
    ensures 28 <= n <= 31
    ensures n == 29 <==> month == 2 && IsLeapYear(year)
  {
    if month == 2 then (if IsLeapYear(year) then 29 else 28)
    else if month == 4 || month == 6 || month == 9 || month == 11 then 30
    else 31
  }

  /** `(month - 1) // 3 + 1`. Python's `//` floors; for month >= 1 the
      dividend is non-negative, so Dafny's division agrees with it. */
  function Quarter(month: int): (q: int)
    requires 1 <= month <= 12
    ensures 1 <= q <= 4
    ensures 3 * (q - 1) < month <= 3 * q
  {
    (month - 1) / 3 + 1
  }
}
