/** The proleptic Gregorian calendar in UTC, by hand: what pkg/cron takes from Go's time package. */
module Calendar {

  // A whole minute of a calendar day.
  datatype Minute = Minute(year: int, month: int, day: int, hour: int, minute: int)

  predicate Leap(year: int) { year % 4 == 0 && (year % 100 != 0 || year % 400 == 0) }

  // maxDays: time.Date(year, month+1, 0, ...).Day()
  function DaysIn(year: int, month: int): (n: int)
    ensures 28 <= n <= 31
  {
    if month == 2 then (if Leap(year) then 29 else 28)
    else if month == 4 || month == 6 || month == 9 || month == 11 then 30
    else 31
  }

  predicate ValidDay(year: int, month: int, day: int)
  {
    1 <= month <= 12 && 1 <= day <= DaysIn(year, month)
  }

  predicate Valid(x: Minute)
  {
    ValidDay(x.year, x.month, x.day) && 0 <= x.hour < 24 && 0 <= x.minute < 60
  }

  // ---------- counting days and minutes ----------

  function DaysBeforeYear(year: int): int
  {
    365 * (year - 1) + (year - 1) / 4 - (year - 1) / 100 + (year - 1) / 400
  }

  function DaysBeforeMonth(year: int, month: int): int
    requires 1 <= month <= 13
  {
    if month == 1 then 0 else DaysBeforeMonth(year, month - 1) + DaysIn(year, month - 1)
  }

  // 1 for 1 January of year 1.
  function DayNumber(year: int, month: int, day: int): int
    requires ValidDay(year, month, day)
  {
    DaysBeforeYear(year) + DaysBeforeMonth(year, month) + day
  }

  function Index(x: Minute): int
    requires Valid(x)
  {
    (DayNumber(x.year, x.month, x.day) * 24 + x.hour) * 60 + x.minute
  }

  // 0 is Sunday; day 1 was a Monday.
  function Weekday(year: int, month: int, day: int): (w: int)
    requires ValidDay(year, month, day)
    ensures 0 <= w < 7
  {
    DayNumber(year, month, day) % 7
  }

  lemma Quotient4(n: int)
    ensures n / 4 == (n - 1) / 4 + if n % 4 == 0 then 1 else 0
  {}

  lemma Quotient100(n: int)
    ensures n / 100 == (n - 1) / 100 + if n % 100 == 0 then 1 else 0
  {}

  lemma Quotient400(n: int)
    ensures n / 400 == (n - 1) / 400 + if n % 400 == 0 then 1 else 0
  {}

  lemma Multiples(n: int)
    ensures n % 400 == 0 ==> n % 100 == 0
    ensures n % 100 == 0 ==> n % 4 == 0
  {
    if n % 400 == 0 { Multiple100(n, n / 400); }
    if n % 100 == 0 { Multiple4(n, n / 100); }
  }

  lemma Multiple100(n: int, q: int)
    requires n == 400 * q
    ensures n % 100 == 0
  {
    assert n == 100 * (4 * q);
  }

  lemma Multiple4(n: int, q: int)
    requires n == 100 * q
    ensures n % 4 == 0
  {
    assert n == 4 * (25 * q);
  }

  lemma YearLength(year: int)
    ensures DaysBeforeYear(year + 1) == DaysBeforeYear(year) + if Leap(year) then 366 else 365
  {
    Quotient4(year);
    Quotient100(year);
    Quotient400(year);
    Multiples(year);
  }

  lemma MonthsFillYear(year: int)
    ensures DaysBeforeMonth(year, 13) == if Leap(year) then 366 else 365
  {
    var february := DaysIn(year, 2);
    assert DaysBeforeMonth(year, 2) == 31;
    assert DaysBeforeMonth(year, 3) == 31 + february;
    assert DaysBeforeMonth(year, 4) == 62 + february;
    assert DaysBeforeMonth(year, 5) == 92 + february;
    assert DaysBeforeMonth(year, 6) == 123 + february;
    assert DaysBeforeMonth(year, 7) == 153 + february;
    assert DaysBeforeMonth(year, 8) == 184 + february;
    assert DaysBeforeMonth(year, 9) == 215 + february;
    assert DaysBeforeMonth(year, 10) == 245 + february;
    assert DaysBeforeMonth(year, 11) == 276 + february;
    assert DaysBeforeMonth(year, 12) == 306 + february;
  }

  lemma {:induction false} YearsIncrease(a: int, b: int)
    requires a < b
    ensures DaysBeforeYear(b) >= DaysBeforeYear(a + 1)
    decreases b - a
  {
    if a + 1 < b {
      YearLength(b - 1);
      YearsIncrease(a, b - 1);
    }
  }

  lemma {:induction false} MonthsIncrease(year: int, a: int, b: int)
    requires 1 <= a < b <= 13
    ensures DaysBeforeMonth(year, b) >= DaysBeforeMonth(year, a) + DaysIn(year, a)
    decreases b - a
  {
    if a + 1 < b { MonthsIncrease(year, a, b - 1); }
  }

  // ---------- calendar order is the order of the counts ----------

  predicate DayLess(x: Minute, y: Minute)
  {
    x.year < y.year || (x.year == y.year && (x.month < y.month || (x.month == y.month && x.day < y.day)))
  }

  predicate SameDay(x: Minute, y: Minute) { x.year == y.year && x.month == y.month && x.day == y.day }

  predicate Less(x: Minute, y: Minute)
  {
    DayLess(x, y) || (SameDay(x, y) && (x.hour < y.hour || (x.hour == y.hour && x.minute < y.minute)))
  }

  lemma DayLessCounts(x: Minute, y: Minute)
    requires Valid(x) && Valid(y) && DayLess(x, y)
    ensures DayNumber(x.year, x.month, x.day) < DayNumber(y.year, y.month, y.day)
  {
    if x.year < y.year {
      YearLength(x.year);
      MonthsFillYear(x.year);
      MonthsIncrease(x.year, x.month, 13);
      YearsIncrease(x.year, y.year);
      if y.month > 1 { MonthsIncrease(y.year, 1, y.month); }
    } else if x.month < y.month {
      MonthsIncrease(x.year, x.month, y.month);
    }
  }

  lemma LessCounts(x: Minute, y: Minute)
    requires Valid(x) && Valid(y)
    ensures Less(x, y) <==> Index(x) < Index(y)
    ensures x == y <==> Index(x) == Index(y)
  {
    hide DayNumber;
    if DayLess(x, y) { DayLessCounts(x, y); }
    if DayLess(y, x) { DayLessCounts(y, x); }
  }

  // ---------- one minute on, one minute back ----------

  function NextMinute(x: Minute): Minute
  {
    if x.minute < 59 then x.(minute := x.minute + 1)
    else if x.hour < 23 then x.(hour := x.hour + 1, minute := 0)
    else if x.day < DaysIn(x.year, x.month) then Minute(x.year, x.month, x.day + 1, 0, 0)
    else if x.month < 12 then Minute(x.year, x.month + 1, 1, 0, 0)
    else Minute(x.year + 1, 1, 1, 0, 0)
  }

  lemma NextMinuteCounts(x: Minute)
    requires Valid(x)
    ensures Valid(NextMinute(x)) && Index(NextMinute(x)) == Index(x) + 1
  {
    hide DaysBeforeYear, Leap;
    if x.minute == 59 && x.hour == 23 && x.day == DaysIn(x.year, x.month) && x.month == 12 {
      YearLength(x.year);
      MonthsFillYear(x.year);
    }
  }

  function PreviousMinute(x: Minute): Minute
  {
    if x.minute > 0 then x.(minute := x.minute - 1)
    else if x.hour > 0 then x.(hour := x.hour - 1, minute := 59)
    else if x.day > 1 then Minute(x.year, x.month, x.day - 1, 23, 59)
    else if x.month > 1 then Minute(x.year, x.month - 1, DaysIn(x.year, x.month - 1), 23, 59)
    else Minute(x.year - 1, 12, 31, 23, 59)
  }

  lemma PreviousMinuteCounts(x: Minute)
    requires Valid(x)
    ensures Valid(PreviousMinute(x)) && Index(PreviousMinute(x)) == Index(x) - 1
  {
    hide DaysBeforeYear, Leap;
    if x.minute == 0 && x.hour == 0 && x.day == 1 && x.month == 1 {
      YearLength(x.year - 1);
      MonthsFillYear(x.year - 1);
    }
  }

  const ORIGIN := Minute(1, 1, 1, 0, 0)

  lemma OriginCounts()
    ensures Valid(ORIGIN) && Index(ORIGIN) == 1440
  {}

  // Every count is a calendar minute.
  ghost function MinuteAt(n: int): (x: Minute)
    ensures Valid(x) && Index(x) == n
    decreases if n >= 1440 then n - 1440 else 1440 - n
  {
    if n == 1440 then OriginCounts(); ORIGIN
    else if n > 1440 then
      var y := MinuteAt(n - 1);
      NextMinuteCounts(y);
      NextMinute(y)
    else
      var y := MinuteAt(n + 1);
      PreviousMinuteCounts(y);
      PreviousMinute(y)
  }

  // ---------- fixed points ----------

  // The lengths of the months, and the leap days of some years.
  lemma MonthLengths(year: int, month: int)
    requires 1 <= month <= 12
    ensures month != 2 ==> DaysIn(year, month) == [31, 28, 31, 30, 31, 30, 31, 31, 30, 31, 30, 31][month - 1]
    ensures month == 2 ==> DaysIn(year, month) == 28 || DaysIn(year, month) == 29
    ensures DaysIn(2024, 2) == DaysIn(2000, 2) == 29
    ensures DaysIn(2023, 2) == DaysIn(1900, 2) == DaysIn(2100, 2) == 28
  {}

  const EPOCH_DAY := 719163

  // 1 January 1970, a Thursday, is day 719163.
  lemma EpochCounts()
    ensures Valid(Minute(1970, 1, 1, 0, 0)) && Index(Minute(1970, 1, 1, 0, 0)) == EPOCH_DAY * 1440
    ensures Weekday(1970, 1, 1) == 4
  {}

  // The weekday moves on by one with every day counted from there.
  lemma WeekdayCounts(x: Minute)
    requires Valid(x)
    ensures Weekday(x.year, x.month, x.day) == (Index(x) / 1440 - EPOCH_DAY + 4) % 7
  {
    hide DayNumber;
    var d := DayNumber(x.year, x.month, x.day);
    assert Index(x) == 1440 * d + (x.hour * 60 + x.minute);
    DayOfIndex(Index(x), d, x.hour * 60 + x.minute);
    ShiftBySevens(d);
  }

  lemma DayOfIndex(n: int, d: int, rest: int)
    requires n == 1440 * d + rest && 0 <= rest < 1440
    ensures n / 1440 == d
  {}

  lemma ShiftBySevens(d: int)
    ensures (d - EPOCH_DAY + 4) % 7 == d % 7
  {
    var q := d / 7;
    assert d - EPOCH_DAY + 4 == 7 * (q - 102737) + d % 7;
  }
}
