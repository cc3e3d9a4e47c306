/**
 * Calendar dates as the calendar, BaZi and horoscope code reads them from a JavaScript
 * `Date`: year, month (1-12), day of month, and the time of day, on the proleptic
 * Gregorian calendar. Day counts are taken from 1900-01-01, the epoch of the day pillar;
 * timestamps are milliseconds since 1970-01-01 (time zones and daylight saving are not
 * modelled: local time is taken to be UTC).
 */
module Dates {

  const MsPerDay: int := 86_400_000
  const MsPerHour: int := 3_600_000
  /** Days from 1900-01-01 to 1970-01-01. */
  const EpochDays1970: int := 25_567

  predicate IsLeap(y: int) {
    y % 4 == 0 && (y % 100 != 0 || y % 400 == 0)
  }

  function DaysInMonth(y: int, m: int): (n: int)
    requires 1 <= m <= 12
    ensures 28 <= n <= 31
  {
    if m == 2 then (if IsLeap(y) then 29 else 28)
    else if m == 4 || m == 6 || m == 9 || m == 11 then 30
    else 31
  }

  function YearLength(y: int): int {
    if IsLeap(y) then 366 else 365
  }

  datatype Date = Date(year: int, month: int, day: int)

  predicate ValidDate(d: Date) {
    1 <= d.month <= 12 && 1 <= d.day <= DaysInMonth(d.year, d.month)
  }

  /** Days from 1900-01-01 to January 1 of year `y` (negative before 1900). */
  function DaysFrom1900(y: int): int
    decreases if y >= 1900 then y - 1900 else 1900 - y
  {
    if y == 1900 then 0
    else if y > 1900 then DaysFrom1900(y - 1) + YearLength(y - 1)
    else DaysFrom1900(y + 1) - YearLength(y)
  }

  /** Days in the months of year `y` before month `m`. */
  function DaysBeforeMonth(y: int, m: int): int
    requires 1 <= m <= 13
  {
    if m == 1 then 0 else DaysBeforeMonth(y, m - 1) + DaysInMonth(y, m - 1)
  }

  /** Days from 1900-01-01 to the date: the `diffDays` of the day pillar. */
  function DayNumber(d: Date): int
    requires ValidDate(d)
  {
    DaysFrom1900(d.year) + DaysBeforeMonth(d.year, d.month) + d.day - 1
  }

  /** The following calendar day. */
  function NextDay(d: Date): (r: Date)
    requires ValidDate(d)
    ensures ValidDate(r) && d.year <= r.year
  {
    if d.day < DaysInMonth(d.year, d.month) then Date(d.year, d.month, d.day + 1)
    else if d.month < 12 then Date(d.year, d.month + 1, 1)
    else Date(d.year + 1, 1, 1)
  }

  /** The date `n` days later, what `setDate(getDate() + n)` normalises to. */
  function AddDays(d: Date, n: nat): (r: Date)
    requires ValidDate(d)
    ensures ValidDate(r) && d.year <= r.year
    decreases n
  {
    if n == 0 then d else AddDays(NextDay(d), n - 1)
  }

  lemma DaysFrom1900Step(y: int)
    ensures DaysFrom1900(y + 1) == DaysFrom1900(y) + YearLength(y)
  {
    if y + 1 > 1900 {
      assert DaysFrom1900(y + 1) == DaysFrom1900(y) + YearLength(y);
    } else {
      assert DaysFrom1900(y) == DaysFrom1900(y + 1) - YearLength(y);
    }
  }

  lemma DaysBeforeMonth13(y: int)
    ensures DaysBeforeMonth(y, 13) == YearLength(y)
  {
    assert DaysBeforeMonth(y, 1) == 0;
    assert DaysBeforeMonth(y, 2) == DaysBeforeMonth(y, 1) + DaysInMonth(y, 1);
    assert DaysBeforeMonth(y, 3) == DaysBeforeMonth(y, 2) + DaysInMonth(y, 2);
    assert DaysBeforeMonth(y, 4) == DaysBeforeMonth(y, 3) + DaysInMonth(y, 3);
    assert DaysBeforeMonth(y, 5) == DaysBeforeMonth(y, 4) + DaysInMonth(y, 4);
    assert DaysBeforeMonth(y, 6) == DaysBeforeMonth(y, 5) + DaysInMonth(y, 5);
    assert DaysBeforeMonth(y, 7) == DaysBeforeMonth(y, 6) + DaysInMonth(y, 6);
    assert DaysBeforeMonth(y, 8) == DaysBeforeMonth(y, 7) + DaysInMonth(y, 7);
    assert DaysBeforeMonth(y, 9) == DaysBeforeMonth(y, 8) + DaysInMonth(y, 8);
    assert DaysBeforeMonth(y, 10) == DaysBeforeMonth(y, 9) + DaysInMonth(y, 9);
    assert DaysBeforeMonth(y, 11) == DaysBeforeMonth(y, 10) + DaysInMonth(y, 10);
    assert DaysBeforeMonth(y, 12) == DaysBeforeMonth(y, 11) + DaysInMonth(y, 11);
    assert DaysBeforeMonth(y, 13) == DaysBeforeMonth(y, 12) + DaysInMonth(y, 12);
  }

  /** The next day is one day further from the epoch. */
  lemma NextDayNumber(d: Date)
    requires ValidDate(d)
    ensures DayNumber(NextDay(d)) == DayNumber(d) + 1
  {
    if d.day == DaysInMonth(d.year, d.month) && d.month == 12 {
      DaysFrom1900Step(d.year);
      DaysBeforeMonth13(d.year);
    }
  }

  /** Shifting a date by `n` days moves its day number by `n`. */
  lemma {:induction false} AddDaysNumber(d: Date, n: nat)
    requires ValidDate(d)
    ensures DayNumber(AddDays(d, n)) == DayNumber(d) + n
    decreases n
  {
    if n > 0 {
      NextDayNumber(d);
      AddDaysNumber(NextDay(d), n - 1);
    }
  }

  /** A date with a time of day, as a JavaScript `Date` holds it. */
  datatype DateTime = DateTime(date: Date, msOfDay: int)

  predicate ValidDateTime(t: DateTime) {
    ValidDate(t.date) && 0 <= t.msOfDay < MsPerDay
  }

  /** `date.getTime()`. */
  function Timestamp(t: DateTime): int
    requires ValidDateTime(t)
  {
    (DayNumber(t.date) - EpochDays1970) * MsPerDay + t.msOfDay
  }

  /** `date.getHours()`. */
  function Hour(t: DateTime): (h: int)
    requires ValidDateTime(t)
    ensures 0 <= h <= 23
  {
    t.msOfDay / MsPerHour
  }

  /**
   * `Math.floor((date.getTime() - new Date(1900, 0, 1).getTime()) / 86400000)`, the day
   * difference both day-pillar functions compute from timestamps.
   */
  function DiffDays(t: DateTime): int
    requires ValidDateTime(t)
  {
    (Timestamp(t) - Timestamp(DateTime(Date(1900, 1, 1), 0))) / MsPerDay
  }

  /** The day difference is the date's day number: the time of day does not enter it. */
  lemma DiffDaysIsDayNumber(t: DateTime)
    requires ValidDateTime(t)
    ensures DiffDays(t) == DayNumber(t.date)
  {
    var n := DayNumber(t.date);
    assert DayNumber(Date(1900, 1, 1)) == 0;
    assert Timestamp(t) - Timestamp(DateTime(Date(1900, 1, 1), 0)) == n * MsPerDay + t.msOfDay;
    DivExact(n, t.msOfDay);
  }

  lemma DivExact(n: int, r: int)
    requires 0 <= r < MsPerDay
    ensures (n * MsPerDay + r) / MsPerDay == n
  {
  }

  /** The date `n` days later at the same time of day. */
  function AddDaysTime(t: DateTime, n: nat): (r: DateTime)
    requires ValidDateTime(t)
    ensures ValidDateTime(r) && t.date.year <= r.date.year && r.msOfDay == t.msOfDay
  {
    DateTime(AddDays(t.date, n), t.msOfDay)
  }

  /** Shifting by one day and then by `n - 1` days is shifting by `n` days. */
  lemma AddDaysTimeStep(t: DateTime, n: nat)
    requires ValidDateTime(t) && n > 0
    ensures AddDaysTime(AddDaysTime(t, 1), n - 1) == AddDaysTime(t, n)
  {
    assert AddDays(t.date, 1) == AddDays(NextDay(t.date), 0);
  }

  /** Shifting by `n` days adds `n` whole days to the timestamp. */
  lemma AddDaysTimestamp(t: DateTime, n: nat)
    requires ValidDateTime(t)
    ensures Timestamp(AddDaysTime(t, n)) == Timestamp(t) + n * MsPerDay
  {
    AddDaysNumber(t.date, n);
  }
}
