/** Calendar arithmetic behind Go's time.Time in UTC: an instant is a count of
    nanoseconds since 0001-01-01T00:00:00 UTC in the proleptic Gregorian
    calendar, so the zero time.Time is the instant 0. */
module Civil {

  type Instant = int

  const NanosPerSecond: int := 1_000_000_000
  const NanosPerHour: int := 3_600_000_000_000
  const NanosPerDay: int := 86_400_000_000_000

  /** The zero value of time.Time, 0001-01-01T00:00:00 UTC. */
  const ZeroTime: Instant := 0

  predicate IsLeapYear(year: int)
  {
    year % 4 == 0 && (year % 100 != 0 || year % 400 == 0)
  }

  function DaysIn(month: int, year: int): (n: int)
    requires 1 <= month <= 12
    ensures 28 <= n <= 31
  {
    if month == 2 then (if IsLeapYear(year) then 29 else 28)
    else if month == 4 || month == 6 || month == 9 || month == 11 then 30
    else 31
  }

  predicate ValidDate(year: int, month: int, day: int)
  {
    1 <= month <= 12 && 1 <= day <= DaysIn(month, year)
  }

  /** Days from 0001-01-01 to January 1 of `year` (negative before year 1). */
  function DaysBeforeYear(year: int): int
  {
    var p := year - 1;
    365 * p + p / 4 - p / 100 + p / 400
  }

  /** Days from January 1 to the first day of `month` in `year`. */
  function DaysBeforeMonth(month: int, year: int): int
    requires 1 <= month <= 12
  {
    [0, 31, 59, 90, 120, 151, 181, 212, 243, 273, 304, 334][month - 1]
    + (if month > 2 && IsLeapYear(year) then 1 else 0)
  }

  /** Days from 0001-01-01 to the given date. */
  function DayNumber(year: int, month: int, day: int): int
    requires 1 <= month <= 12
  {
    DaysBeforeYear(year) + DaysBeforeMonth(month, year) + day - 1
  }

  /** Midnight (UTC) at the start of the given date. */
  function DayStart(year: int, month: int, day: int): Instant
    requires 1 <= month <= 12
  {
    DayNumber(year, month, day) * NanosPerDay
  }

  /** time.Date(year, month, day, hour, minute, second, nanos, time.UTC) for in-range fields. */
  function InstantOf(year: int, month: int, day: int, hour: int, minute: int, second: int, nanos: int): Instant
    requires 1 <= month <= 12
  {
    DayStart(year, month, day) + ((hour * 60 + minute) * 60 + second) * NanosPerSecond + nanos
  }

  /** The calendar date that follows a valid date. */
  function NextDate(year: int, month: int, day: int): (r: (int, int, int))
    requires ValidDate(year, month, day)
    ensures ValidDate(r.0, r.1, r.2)
  {
    if day < DaysIn(month, year) then (year, month, day + 1)
    else if month < 12 then (year, month + 1, 1)
    else (year + 1, 1, 1)
  }

  /** A year has 366 days exactly when it is a leap year. */
  lemma YearLength(year: int)
    ensures DaysBeforeYear(year + 1) == DaysBeforeYear(year) + (if IsLeapYear(year) then 366 else 365)
  {
    QuotientStep4(year);
    QuotientStep100(year);
    QuotientStep400(year);
  }

  lemma QuotientStep4(year: int)
    ensures year / 4 - (year - 1) / 4 == if year % 4 == 0 then 1 else 0
  {
  }

  lemma QuotientStep100(year: int)
    ensures year / 100 - (year - 1) / 100 == if year % 100 == 0 then 1 else 0
  {
  }

  lemma QuotientStep400(year: int)
    ensures year / 400 - (year - 1) / 400 == if year % 400 == 0 then 1 else 0
  {
  }

  /** Consecutive calendar dates have consecutive day numbers, across month
      and year ends and leap days: the day numbering is gap-free. */
  lemma NextDateIsNextDay(year: int, month: int, day: int)
    requires ValidDate(year, month, day)
    ensures var (y, m, d) := NextDate(year, month, day);
            DayNumber(y, m, d) == DayNumber(year, month, day) + 1
  {
    if day == DaysIn(month, year) {
      if month == 12 {
        YearLength(year);
      } else {
        assert DaysBeforeMonth(month + 1, year) == DaysBeforeMonth(month, year) + DaysIn(month, year);
      }
    }
  }
}
