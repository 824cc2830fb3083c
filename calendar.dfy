/**
 * Calendar dates as the dashboard handles them: `yyyy-MM-dd` strings for
 * local (proleptic Gregorian) days, shifted with `subDays`, built with
 * `new Date(year, month, day)` and compared by their formatted text.
 */
module Calendar {

  datatype Date = Date(year: int, month: int, day: int)

  /** An inclusive range of days, as the dashboard's `{ start, end }`. */
  datatype DateRange = DateRange(start: Date, end: Date)

  predicate IsLeapYear(y: int)
  {
    y % 4 == 0 && (y % 100 != 0 || y % 400 == 0)
  }

  function DaysInMonth(y: int, m: int): (n: int)
    ensures 28 <= n <= 31
    ensures m == 2 ==> (n == 29 <==> IsLeapYear(y))
  {
    if m == 2 then (if IsLeapYear(y) then 29 else 28)
    else if m == 4 || m == 6 || m == 9 || m == 11 then 30
    else 31
  }

  predicate ValidDate(d: Date)
  {
    1 <= d.month <= 12 && 1 <= d.day <= DaysInMonth(d.year, d.month)
  }

  function DaysInYear(y: int): int
  {
    if IsLeapYear(y) then 366 else 365
  }

  /** Days from the day-number origin to 1 January of year `y`. */
  function DaysBeforeYear(y: int): int
  {
    365 * y + (y - 1) / 4 - (y - 1) / 100 + (y - 1) / 400
  }

  /** Days from 1 January of year `y` to the first of month `m`. */
  function DaysBeforeMonth(y: int, m: int): int
  {
    (if m == 1 then 0 else if m == 2 then 31 else if m == 3 then 59
     else if m == 4 then 90 else if m == 5 then 120 else if m == 6 then 151
     else if m == 7 then 181 else if m == 8 then 212 else if m == 9 then 243
     else if m == 10 then 273 else if m == 11 then 304 else if m == 12 then 334 else 0)
    + (if 3 <= m <= 12 && IsLeapYear(y) then 1 else 0)
  }

  /**
   * Consecutive days have consecutive numbers; day 365 is 1 January of year 1.
   * Differences of day numbers are what the dashboard gets from subtracting
   * `getTime()` values of two dates and dividing by one day.
   */
  function DayNumber(d: Date): int
  {
    DaysBeforeYear(d.year) + DaysBeforeMonth(d.year, d.month) + d.day - 1
  }

  /** `getDay()`: 0 is Sunday, 1 Monday, ..., 6 Saturday. */
  function Weekday(d: Date): (w: int)
    ensures 0 <= w < 7
  {
    DayNumber(d) % 7
  }

  lemma YearLength(y: int)
    ensures DaysBeforeYear(y + 1) - DaysBeforeYear(y) == DaysInYear(y)
  {
    assert y / 4 - (y - 1) / 4 == (if y % 4 == 0 then 1 else 0);
    assert y / 100 - (y - 1) / 100 == (if y % 100 == 0 then 1 else 0);
    assert y / 400 - (y - 1) / 400 == (if y % 400 == 0 then 1 else 0);
  }

  lemma MonthLength(y: int, m: int)
    requires 1 <= m < 12
    ensures DaysBeforeMonth(y, m + 1) - DaysBeforeMonth(y, m) == DaysInMonth(y, m)
  {
  }

  /** `subDays(d, 1)`. */
  function PrevDay(d: Date): (r: Date)
    ensures ValidDate(d) ==> ValidDate(r) && DayNumber(r) == DayNumber(d) - 1
  {
    if d.day > 1 then Date(d.year, d.month, d.day - 1)
    else if d.month > 1 then
      var r := Date(d.year, d.month - 1, DaysInMonth(d.year, d.month - 1));
      assert ValidDate(d) ==> DayNumber(r) == DayNumber(d) - 1 by {
        if d.month <= 12 { MonthLength(d.year, d.month - 1); }
      }
      r
    else
      YearLength(d.year - 1);
      Date(d.year - 1, 12, 31)
  }

  /** `subDays(d, k)`. */
  function SubDays(d: Date, k: nat): (r: Date)
    ensures ValidDate(d) ==> ValidDate(r) && DayNumber(r) == DayNumber(d) - k
    decreases k
  {
    if k == 0 then d else PrevDay(SubDays(d, k - 1))
  }

  /** The JavaScript origin 1970-01-01 was a Thursday. */
  lemma EpochIsThursday()
    ensures DayNumber(Date(1970, 1, 1)) == 719527
    ensures Weekday(Date(1970, 1, 1)) == 4
  {
  }
}
