/** Conversion of Unix timestamps to calendar components, as printed in the
    date-time format of section 5.6 of RFC 3339. */
module Calendar {
  import opened Machine

  datatype DateTime = DateTime(year: nat, month: nat, day: nat, hour: nat, minute: nat, second: nat)

  /** The leap rule of Appendix C of RFC 3339. */
  predicate IsLeapYear(year: nat) {
    (year % 4 == 0 && year % 100 != 0) || year % 400 == 0
  }

  function DaysInYear(year: nat): nat { if IsLeapYear(year) then 366 else 365 }

  function MonthDays(leap: bool): seq<nat> {
    [31, if leap then 29 else 28, 31, 30, 31, 30, 31, 31, 30, 31, 30, 31]
  }

  /** Days before 1 January of `year` in the proleptic Gregorian calendar, counted from year 1. */
  function DaysBeforeYear(year: nat): int
    requires 1 <= year
  {
    var y := year - 1;
    365 * y + y / 4 - y / 100 + y / 400
  }

  function DaysBeforeMonth(month: nat, leap: bool): nat
    requires 1 <= month <= 13
  {
    if month == 1 then 0 else DaysBeforeMonth(month - 1, leap) + MonthDays(leap)[month - 2]
  }

  const EPOCH_DAY: int := DaysBeforeYear(1970)

  predicate ValidDateTime(t: DateTime) {
    && 1970 <= t.year
    && 1 <= t.month <= 12
    && 1 <= t.day <= MonthDays(IsLeapYear(t.year))[t.month - 1]
    && t.hour < 24 && t.minute < 60 && t.second < 60
  }

  function DayNumber(t: DateTime): int
    requires ValidDateTime(t)
  {
    DaysBeforeYear(t.year) - EPOCH_DAY + DaysBeforeMonth(t.month, IsLeapYear(t.year)) + t.day - 1
  }

  /** Seconds since the epoch of a calendar time. */
  function ToUnix(t: DateTime): int
    requires ValidDateTime(t)
  {
    86400 * DayNumber(t) + 3600 * t.hour + 60 * t.minute + t.second
  }

  /** Consecutive years differ by the length of the earlier one. */
  lemma YearLength(year: nat)
    requires 1 <= year
    ensures DaysBeforeYear(year + 1) == DaysBeforeYear(year) + DaysInYear(year)
  {
    FourthYear(year);
    HundredthYear(year);
    FourHundredthYear(year);
    Centuries(year);
  }

  lemma FourthYear(year: nat)
    requires 1 <= year
    ensures year / 4 == (year - 1) / 4 + (if year % 4 == 0 then 1 else 0)
  {
  }

  lemma HundredthYear(year: nat)
    requires 1 <= year
    ensures year / 100 == (year - 1) / 100 + (if year % 100 == 0 then 1 else 0)
  {
  }

  lemma FourHundredthYear(year: nat)
    requires 1 <= year
    ensures year / 400 == (year - 1) / 400 + (if year % 400 == 0 then 1 else 0)
  {
  }

  lemma Centuries(year: nat)
    ensures year % 100 == 0 ==> year % 4 == 0
    ensures year % 400 == 0 ==> year % 100 == 0
  {
    if year % 100 == 0 {
      MultiplesOfFour(25 * (year / 100));
    }
    if year % 400 == 0 {
      MultiplesOfAHundred(4 * (year / 400));
    }
  }

  lemma MultiplesOfFour(k: nat)
    ensures 4 * k % 4 == 0
  {
  }

  lemma MultiplesOfAHundred(k: nat)
    ensures 100 * k % 100 == 0
  {
  }

  /** The year loop ends with the one year that contains the day. */
  method DaysToYearAndDay(day: nat) returns (year: nat, dayOfYear: nat)
    ensures 1970 <= year && dayOfYear < DaysInYear(year)
    ensures DaysBeforeYear(year) - EPOCH_DAY + dayOfYear == day
  {
    var days := day;
    year := 1970;
    while true
      invariant 1970 <= year
      invariant DaysBeforeYear(year) - EPOCH_DAY + days == day
      decreases days
    {
      var daysInYear := if IsLeapYear(year) then 366 else 365;
      if days < daysInYear {
        return year, days;
      }
      YearLength(year);
      days := days - daysInYear;
      year := year + 1;
    }
  }

  /** The days before a month, by a rule that needs no table of months. */
  lemma MonthsInClosedForm(month: nat, leap: bool)
    requires 1 <= month <= 13
    ensures DaysBeforeMonth(month, leap)
         == (367 * month - 362) / 12 - (if month <= 2 then 0 else if leap then 1 else 2)
  {
    var feb := if leap then 29 else 28;
    assert DaysBeforeMonth(2, leap) == 31 && DaysBeforeMonth(3, leap) == 31 + feb;
    assert DaysBeforeMonth(4, leap) == 62 + feb && DaysBeforeMonth(5, leap) == 92 + feb;
    assert DaysBeforeMonth(6, leap) == 123 + feb && DaysBeforeMonth(7, leap) == 153 + feb;
    assert DaysBeforeMonth(8, leap) == 184 + feb && DaysBeforeMonth(9, leap) == 215 + feb;
    assert DaysBeforeMonth(10, leap) == 245 + feb && DaysBeforeMonth(11, leap) == 276 + feb;
    assert DaysBeforeMonth(12, leap) == 306 + feb && DaysBeforeMonth(13, leap) == 337 + feb;
  }

  /** Thirty days have April, June, September and November. */
  predicate FitsMonth(day: nat, month: nat, leap: bool) {
    1 <= day <= if month in {4, 6, 9, 11} then 30 else if month != 2 then 31 else if leap then 29 else 28
  }

  /** What a timestamp's components amount to, with neither table nor loop. */
  lemma ToUnixInClosedForm(t: DateTime)
    requires ValidDateTime(t)
    ensures var y, leap := t.year - 1, (t.year % 4 == 0 && t.year % 100 != 0) || t.year % 400 == 0;
            && 1 <= t.month <= 12 && FitsMonth(t.day, t.month, leap) && t.hour <= 23 && t.minute <= 59 && t.second <= 59
            && ToUnix(t) == 86400 * (365 * y + y / 4 - y / 100 + y / 400 - 719162
                                     + (367 * t.month - 362) / 12 - (if t.month <= 2 then 0 else if leap then 1 else 2) + t.day - 1)
                            + 3600 * t.hour + 60 * t.minute + t.second
  {
    var leap, before := IsLeapYear(t.year), DaysBeforeMonth(t.month, IsLeapYear(t.year));
    MonthsInClosedForm(t.month, leap);
    DayFits(t.day, t.month, leap);
    assert EPOCH_DAY == 719162;
    assert DayNumber(t) == DaysBeforeYear(t.year) - 719162 + before + t.day - 1;
  }

  lemma DayFits(day: nat, month: nat, leap: bool)
    requires 1 <= month <= 12
    ensures 1 <= day <= MonthDays(leap)[month - 1] <==> FitsMonth(day, month, leap)
  {
  }

  /** The month that contains a day of the year; the loop always returns from inside. */
  method DayOfYearToMonthDay(dayOfYear: nat, leap: bool) returns (month: nat, day: nat)
    requires dayOfYear < if leap then 366 else 365
    ensures 1 <= month <= 12 && 1 <= day <= MonthDays(leap)[month - 1]
    ensures DaysBeforeMonth(month, leap) + day - 1 == dayOfYear
    ensures FitsMonth(day, month, leap)
  {
    var monthDays := MonthDays(leap);
    var remaining := dayOfYear;
    var i := 0;
    while i < |monthDays|
      invariant 0 <= i <= 12
      invariant DaysBeforeMonth(i + 1, leap) + remaining == dayOfYear
    {
      if remaining < monthDays[i] {
        return i + 1, remaining + 1;
      }
      remaining := remaining - monthDays[i];
      i := i + 1;
    }
    MonthsInClosedForm(13, leap);
    assert false;
  }

  /** Every timestamp becomes a valid calendar time that maps back to it. */
  method UnixToCalendar(secs: u64) returns (t: DateTime)
    ensures ValidDateTime(t) && ToUnix(t) == secs
    ensures FitsMonth(t.day, t.month, (t.year % 4 == 0 && t.year % 100 != 0) || t.year % 400 == 0)
  {
    var days := secs / 86400;
    var remainder := secs % 86400;
    var hour := remainder / 3600;
    var minute := (remainder % 3600) / 60;
    var second := remainder % 60;
    var year, dayOfYear := DaysToYearAndDay(days);
    var month, day := DayOfYearToMonthDay(dayOfYear, IsLeapYear(year));
    t := DateTime(year, month, day, hour, minute, second);
  }

  // ---- Later timestamps read later ----

  /** The order in which the printed components are compared. */
  predicate Earlier(a: DateTime, b: DateTime) {
    a.year < b.year || (a.year == b.year && (
    a.month < b.month || (a.month == b.month && (
    a.day < b.day || (a.day == b.day && (
    a.hour < b.hour || (a.hour == b.hour && (
    a.minute < b.minute || (a.minute == b.minute &&
    a.second < b.second)))))))))
  }

  lemma {:induction false} YearsMonotone(a: nat, b: nat)
    requires 1 <= a <= b
    ensures DaysBeforeYear(a) <= DaysBeforeYear(b)
    ensures a < b ==> DaysBeforeYear(a) + DaysInYear(a) <= DaysBeforeYear(b)
    decreases b - a
  {
    if a < b {
      YearLength(a);
      YearsMonotone(a + 1, b);
    }
  }

  lemma {:induction false} MonthsMonotone(a: nat, b: nat, leap: bool)
    requires 1 <= a <= b <= 13
    ensures DaysBeforeMonth(a, leap) <= DaysBeforeMonth(b, leap)
    ensures a < b ==> DaysBeforeMonth(a, leap) + MonthDays(leap)[a - 1] <= DaysBeforeMonth(b, leap)
    decreases b - a
  {
    if a < b {
      MonthsMonotone(a, b - 1, leap);
    }
  }

  lemma DayWithinYear(t: DateTime)
    requires ValidDateTime(t)
    ensures DaysBeforeYear(t.year) - EPOCH_DAY <= DayNumber(t) < DaysBeforeYear(t.year) - EPOCH_DAY + DaysInYear(t.year)
  {
    MonthsMonotone(t.month, 13, IsLeapYear(t.year));
    MonthsInClosedForm(13, IsLeapYear(t.year));
  }

  lemma EarlierIsSmaller(a: DateTime, b: DateTime)
    requires ValidDateTime(a) && ValidDateTime(b) && Earlier(a, b)
    ensures ToUnix(a) < ToUnix(b)
  {
    if a.year < b.year {
      YearsMonotone(a.year, b.year);
      DayWithinYear(a);
      DayWithinYear(b);
      assert DayNumber(a) < DayNumber(b);
    } else if a.month < b.month {
      MonthsMonotone(a.month, b.month, IsLeapYear(a.year));
      assert DayNumber(a) < DayNumber(b);
    }
  }

  /** Calendar order and numeric order are the same order, so the conversion is the only one there is. */
  lemma OrderAgrees(a: DateTime, b: DateTime)
    requires ValidDateTime(a) && ValidDateTime(b)
    ensures ToUnix(a) < ToUnix(b) <==> Earlier(a, b)
    ensures ToUnix(a) == ToUnix(b) <==> a == b
  {
    if Earlier(a, b) {
      EarlierIsSmaller(a, b);
    } else if Earlier(b, a) {
      EarlierIsSmaller(b, a);
    }
  }
}
