/**
 * Proleptic Gregorian calendar dates, as chrono's `NaiveDate` counts them.
 * A timestamp in epoch milliseconds falls on the UTC calendar day
 * `ms / 86_400_000` (floor division) counted from 1970-01-01; a calendar
 * date is numbered by days-from-civil. The two agree exactly when the
 * timestamp's UTC date is that calendar date.
 */
module Calendar {

  datatype CivilDate = CivilDate(year: int, month: int, day: int)

  predicate IsLeapYear(y: int) {
    y % 4 == 0 && (y % 100 != 0 || y % 400 == 0)
  }

  function YearLength(y: int): int {
    if IsLeapYear(y) then 366 else 365
  }

  function DaysInMonth(y: int, m: int): int
    requires 1 <= m <= 12
  {
    if m == 2 then (if IsLeapYear(y) then 29 else 28)
    else if m == 4 || m == 6 || m == 9 || m == 11 then 30
    else 31
  }

  predicate ValidDate(d: CivilDate) {
    1 <= d.month <= 12 && 1 <= d.day <= DaysInMonth(d.year, d.month)
  }

  /** A calendar date that exists, such as the ones `NaiveDate::parse_from_str` produces. */
  type Date = d: CivilDate | ValidDate(d) witness CivilDate(1970, 1, 1)

  const UnixEpoch: Date := CivilDate(1970, 1, 1)

  const MillisPerDay: int := 86_400_000

  /** Days of the years 1 .. y-1 (negative for years before 1; year 0 is a leap year). */
  function DaysBeforeYear(y: int): int {
    365 * (y - 1) + (y - 1) / 4 - (y - 1) / 100 + (y - 1) / 400
  }

  /** Days of the months 1 .. m-1 of year y. */
  function DaysBeforeMonth(y: int, m: int): (n: int)
    requires 1 <= m <= 13
    ensures 28 * (m - 1) <= n <= 31 * (m - 1)
  {
    if m == 1 then 0 else DaysBeforeMonth(y, m - 1) + DaysInMonth(y, m - 1)
  }

  /** chrono's `Datelike::num_days_from_ce`: 0001-01-01 is day 1. */
  function NumDaysFromCe(d: Date): (n: int)
    ensures d == CivilDate(1, 1, 1) ==> n == 1
  {
    DaysBeforeYear(d.year) + DaysBeforeMonth(d.year, d.month) + d.day
  }

  /** Days from 1970-01-01 to `d` (days-from-civil). */
  function DaysFromCivil(d: Date): (n: int)
    ensures d == UnixEpoch ==> n == 0
  {
    NumDaysFromCe(d) - NumDaysFromCe(UnixEpoch)
  }

  /** The UTC day, counted from 1970-01-01, on which the instant `ms` falls (floor division). */
  function EpochDay(ms: int): (e: int)
    ensures e * MillisPerDay <= ms < e * MillisPerDay + MillisPerDay
  {
    ms / MillisPerDay
  }

  /** The calendar day after `d`. */
  function NextDay(d: Date): Date {
    if d.day < DaysInMonth(d.year, d.month) then CivilDate(d.year, d.month, d.day + 1)
    else if d.month < 12 then CivilDate(d.year, d.month + 1, 1)
    else CivilDate(d.year + 1, 1, 1)
  }

  /** The calendar day before `d`. */
  function PrevDay(d: Date): Date {
    if d.day > 1 then CivilDate(d.year, d.month, d.day - 1)
    else if d.month > 1 then CivilDate(d.year, d.month - 1, DaysInMonth(d.year, d.month - 1))
    else CivilDate(d.year - 1, 12, 31)
  }

  /**
   * The calendar date of epoch day `e`: what `NaiveDateTime::from_timestamp_millis(ms).date()`
   * gives for any `ms` with `EpochDay(ms) == e`.
   */
  function DateOfEpochDay(e: int): (d: Date)
    ensures DaysFromCivil(d) == e
    decreases if e < 0 then -e else e
  {
    if e == 0 then UnixEpoch
    else if e > 0 then
      var prev := DateOfEpochDay(e - 1);
      NextDayStep(prev);
      NextDay(prev)
    else
      var next := DateOfEpochDay(e + 1);
      PrevDayStep(next);
      PrevDay(next)
  }

  /** The UTC calendar date of the instant `ms`. */
  function UtcDate(ms: int): (d: Date)
    ensures DaysFromCivil(d) == EpochDay(ms)
  {
    DateOfEpochDay(EpochDay(ms))
  }

  /** A year has 365 days, or 366 when it is a leap year. */
  lemma DaysBeforeYearStep(y: int)
    ensures DaysBeforeYear(y + 1) == DaysBeforeYear(y) + YearLength(y)
  {
    assert y / 4 == (y - 1) / 4 + (if y % 4 == 0 then 1 else 0);
    assert y / 100 == (y - 1) / 100 + (if y % 100 == 0 then 1 else 0);
    assert y / 400 == (y - 1) / 400 + (if y % 400 == 0 then 1 else 0);
  }

  /** The twelve months fill the year exactly. */
  lemma DaysBeforeMonthYear(y: int)
    ensures DaysBeforeMonth(y, 13) == YearLength(y)
  {
    var feb := DaysInMonth(y, 2);
    assert DaysBeforeMonth(y, 2) == 31;
    assert DaysBeforeMonth(y, 3) == 31 + feb;
    assert DaysBeforeMonth(y, 4) == 62 + feb;
    assert DaysBeforeMonth(y, 5) == 92 + feb;
    assert DaysBeforeMonth(y, 6) == 123 + feb;
    assert DaysBeforeMonth(y, 7) == 153 + feb;
    assert DaysBeforeMonth(y, 8) == 184 + feb;
    assert DaysBeforeMonth(y, 9) == 215 + feb;
    assert DaysBeforeMonth(y, 10) == 245 + feb;
    assert DaysBeforeMonth(y, 11) == 276 + feb;
    assert DaysBeforeMonth(y, 12) == 306 + feb;
  }

  /** Later months start later: the months before `m2` include all of month `m1`. */
  lemma {:induction false} DaysBeforeMonthMonotone(y: int, m1: int, m2: int)
    requires 1 <= m1 < m2 <= 13
    ensures DaysBeforeMonth(y, m1) + DaysInMonth(y, m1) <= DaysBeforeMonth(y, m2)
    decreases m2 - m1
  {
  }


  /** Later years start later: the days before year `y2` include all of year `y1`. */
  lemma {:induction false} DaysBeforeYearMonotone(y1: int, y2: int)
    requires y1 < y2
    ensures DaysBeforeYear(y1) + YearLength(y1) <= DaysBeforeYear(y2)
    decreases y2 - y1
  {
    DaysBeforeYearStep(y1);
    if y1 + 1 < y2 {
      DaysBeforeYearMonotone(y1 + 1, y2);
    }
  }

  /** The day of the year of a valid date lies within its year. */
  lemma DayOfYearBounds(d: Date)
    ensures 1 <= DaysBeforeMonth(d.year, d.month) + d.day <= YearLength(d.year)
  {
    if d.month < 12 {
      DaysBeforeMonthMonotone(d.year, d.month, 13);
    }
    DaysBeforeMonthYear(d.year);
  }

  /** Lexicographic order of (year, month, day). */
  predicate Before(a: CivilDate, b: CivilDate) {
    a.year < b.year
    || (a.year == b.year && a.month < b.month)
    || (a.year == b.year && a.month == b.month && a.day < b.day)
  }

  /** Days-from-civil is strictly increasing in calendar order. */
  lemma DaysFromCivilStrictlyMonotone(a: Date, b: Date)
    requires Before(a, b)
    ensures DaysFromCivil(a) < DaysFromCivil(b)
  {
    if a.year < b.year {
      DayOfYearBounds(a);
      DayOfYearBounds(b);
      DaysBeforeYearMonotone(a.year, b.year);
    } else if a.month < b.month {
      DaysBeforeMonthMonotone(a.year, a.month, b.month);
    }
  }

  /** Two valid dates have the same day number exactly when they are the same date. */
  lemma DaysFromCivilInjective(a: Date, b: Date)
    ensures DaysFromCivil(a) == DaysFromCivil(b) <==> a == b
  {
    if Before(a, b) {
      DaysFromCivilStrictlyMonotone(a, b);
    } else if Before(b, a) {
      DaysFromCivilStrictlyMonotone(b, a);
    }
  }

  /** `NextDay` is one day later. */
  lemma NextDayStep(d: Date)
    ensures DaysFromCivil(NextDay(d)) == DaysFromCivil(d) + 1
  {
    if d.day == DaysInMonth(d.year, d.month) && d.month == 12 {
      DaysBeforeYearStep(d.year);
      DaysBeforeMonthYear(d.year);
    }
  }

  /** `PrevDay` is one day earlier. */
  lemma PrevDayStep(d: Date)
    ensures DaysFromCivil(PrevDay(d)) == DaysFromCivil(d) - 1
  {
    if d.day == 1 && d.month == 1 {
      DaysBeforeYearStep(d.year - 1);
      DaysBeforeMonthYear(d.year - 1);
    }
  }

  /**
   * Comparing the UTC calendar date of `ms` with `target` (what the source does with
   * chrono dates) is the same as comparing epoch days.
   */
  lemma SameUtcDate(ms: int, target: Date)
    ensures UtcDate(ms) == target <==> EpochDay(ms) == DaysFromCivil(target)
  {
    DaysFromCivilInjective(UtcDate(ms), target);
  }

  /** Every instant of one UTC day maps to the same date, and only those instants do. */
  lemma UtcDateOfDay(ms: int, target: Date)
    ensures UtcDate(ms) == target <==>
      DaysFromCivil(target) * MillisPerDay <= ms < DaysFromCivil(target) * MillisPerDay + MillisPerDay
  {
    SameUtcDate(ms, target);
    var e, t := EpochDay(ms), DaysFromCivil(target);
    if t * MillisPerDay <= ms < t * MillisPerDay + MillisPerDay {
      assert (e - t) * MillisPerDay < MillisPerDay && (t - e) * MillisPerDay < MillisPerDay;
    }
  }

  /** 2024-10-03T00:00:00Z is epoch millisecond 1727913600000, on epoch day 19999. */
  lemma ExampleEpochDay()
    ensures DaysFromCivil(CivilDate(2024, 10, 3)) == 19999
    ensures EpochDay(1727913600000) == 19999
    ensures NumDaysFromCe(CivilDate(2024, 10, 3)) == 739162
  {
  }
}
