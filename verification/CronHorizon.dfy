/** When the five-year search of NextAfter can come back empty. */
module CronHorizon {
  import opened Messages
  import opened Calendar
  import opened CronSearch

  // Days of a month in a common year.
  function CommonDays(month: int): int { if month == 2 then 28 else DaysIn(1, month) }

  lemma CommonFits(year: int, month: int)
    ensures DaysIn(year, month) == CommonDays(month) + if month == 2 && Leap(year) then 1 else 0
  {}

  // Only the day of the month restricts the day.
  predicate DomOnly(c: Cron) { !c.domWild && c.dowWild }

  ghost predicate AdmitsCommonDay(c: Cron)
  {
    exists m, d :: m in c.month && d in c.dom && d <= CommonDays(m)
  }

  // What decides whether every instant has a next firing.
  ghost predicate AlwaysFires(c: Cron)
  {
    !DomOnly(c) || AdmitsCommonDay(c)
  }

  // The first week of a month has every weekday.
  lemma WeekdayInFirstWeek(year: int, month: int, w: int) returns (d: int)
    requires 1 <= month <= 12 && 0 <= w < 7
    ensures 1 <= d <= 7 && ValidDay(year, month, d) && Weekday(year, month, d) == w
  {
    var first := DayNumber(year, month, 1);
    d := 1 + (w - first) % 7;
    assert DayNumber(year, month, d) == first + d - 1;
    ShiftModulo(first, w);
  }

  lemma ShiftModulo(n: int, w: int)
    requires 0 <= w < 7
    ensures (n + (w - n) % 7) % 7 == w
  {
    var q := (w - n) / 7;
    assert n + (w - n) % 7 == w - 7 * q;
  }

  // Such an expression matches in every calendar year.
  lemma MatchesEveryYear(c: Cron, year: int) returns (x: Minute)
    requires Parsed(c) && AlwaysFires(c)
    ensures Valid(x) && x.year == year && Matches(c, x)
  {
    hide Weekday, DaysIn;
    var m, d := c.month[0], 1;
    if DomOnly(c) {
      m, d :| m in c.month && d in c.dom && d <= CommonDays(m);
      CommonFits(year, m);
    } else {
      d := WeekdayInFirstWeek(year, m, c.dow[0]);
    }
    x := Minute(year, m, d, c.hour[0], c.minute[0]);
  }

  lemma LaterYearIsLater(t: Minute, x: Minute)
    requires Valid(t) && Valid(x) && x.year > NextMinute(t).year
    ensures Index(x) > Index(t)
  {
    hide Index;
    NextMinuteCounts(t);
    LessCounts(NextMinute(t), x);
  }

  // No instant without a next firing: the search result is never the zero time.
  lemma NeverZero(c: Cron, t: Minute, r: Option<Minute>)
    requires Parsed(c) && Valid(t) && NextSpec(c, t, r) && AlwaysFires(c)
    ensures r.Some?
  {
    hide Index, Matches;
    var x := MatchesEveryYear(c, NextMinute(t).year + 1);
    LaterYearIsLater(t, x);
    assert Due(c, t, x);
  }

  // Otherwise only 29 February can match at all.
  lemma OnlyLeapDays(c: Cron, x: Minute)
    requires Parsed(c) && !AlwaysFires(c) && Valid(x) && Matches(c, x)
    ensures x.month == 2 && x.day == 29 && Leap(x.year) && 2 in c.month && 29 in c.dom
  {
    CommonFits(x.year, x.month);
    assert x.day > CommonDays(x.month);
  }

  function Last(s: seq<int>): int
    requires s != []
  {
    s[|s| - 1]
  }

  // The last minute an all-leap-day expression matches in a leap year.
  function LastOnLeapDay(c: Cron, year: int): Minute
    requires c.hour != [] && c.minute != []
  {
    Minute(year, 2, 29, Last(c.hour), Last(c.minute))
  }

  lemma LastMatches(c: Cron, year: int)
    requires Parsed(c) && DomOnly(c) && 2 in c.month && 29 in c.dom && Leap(year)
    ensures Valid(LastOnLeapDay(c, year)) && Matches(c, LastOnLeapDay(c, year))
  {
    hide Weekday;
  }

  lemma LastIsLast(c: Cron, x: Minute)
    requires Parsed(c) && !AlwaysFires(c) && Valid(x) && Matches(c, x)
    ensures Valid(LastOnLeapDay(c, x.year)) && Index(x) <= Index(LastOnLeapDay(c, x.year))
  {
    hide Weekday, DayNumber;
    OnlyLeapDays(c, x);
    var h: int :| 0 <= h < |c.hour| && c.hour[h] == x.hour;
    var m: int :| 0 <= m < |c.minute| && c.minute[m] == x.minute;
    assert x.hour <= Last(c.hour) && x.minute <= Last(c.minute);
  }

  // No 29 February for the expression at all, or none left in the years searched from t.
  ghost predicate EmptyAt(c: Cron, t: Minute)
    requires Parsed(c) && Valid(t)
  {
    var y := NextMinute(t).year;
    && !AlwaysFires(c)
    && (2 !in c.month || 29 !in c.dom
        || ((forall year :: y < year <= y + 4 ==> !Leap(year))
            && !(Leap(y) && Valid(LastOnLeapDay(c, y)) && Index(LastOnLeapDay(c, y)) > Index(t))))
  }

  // The search comes back empty exactly when the expression admits no 29 February, or none of the
  // years searched has one left.
  lemma ZeroExactly(c: Cron, t: Minute, r: Option<Minute>)
    requires Parsed(c) && Valid(t) && NextSpec(c, t, r)
    ensures r.None? <==> EmptyAt(c, t)
  {
    hide Index, Matches;
    var y := NextMinute(t).year;
    if AlwaysFires(c) {
      NeverZero(c, t, r);
    } else if r.Some? {
      var v := r.value;
      OnlyLeapDays(c, v);
      LastIsLast(c, v);
      YearNotBefore(t, v);
    } else if 2 in c.month && 29 in c.dom {
      forall year | y < year <= y + 4 ensures !Leap(year) {
        assert !Due(c, t, LastOnLeapDay(c, year));
        if Leap(year) {
          LastMatches(c, year);
          LaterYearIsLater(t, LastOnLeapDay(c, year));
        }
      }
      if Leap(y) {
        LastMatches(c, y);
        assert !Due(c, t, LastOnLeapDay(c, y));
      }
    }
  }

  lemma EmptyIsNone(c: Cron, t: Minute)
    requires Parsed(c) && Valid(t) && EmptyAt(c, t)
    ensures NextSpec(c, t, None)
  {
    hide Index, Matches;
    forall x | Due(c, t, x) ensures x.year > NextMinute(t).year + 4 {
      OnlyLeapDays(c, x);
      LastIsLast(c, x);
      YearNotBefore(t, x);
    }
  }

  // In the first year of a century's last quarter before a common century year, no leap day is in
  // reach: 2097 to 2101 and every 400 years from there.
  lemma EmptyBeforeCentury(c: Cron, t: Minute)
    requires Parsed(c) && Valid(t) && !AlwaysFires(c)
    requires t.year % 400 == 97 && NextMinute(t).year == t.year
    ensures EmptyAt(c, t)
  {
    forall year | t.year <= year <= t.year + 4 ensures !Leap(year) {
      CenturyYears(t.year, year);
    }
  }

  lemma CenturyYears(y: int, year: int)
    requires y % 400 == 97 && y <= year <= y + 4
    ensures !Leap(year)
  {
    var k := y / 400;
    if year == y + 3 {
      assert year == 100 * (4 * k + 1) && year == 400 * k + 100;
    } else if year == y + 4 {
      Mod4(year, 100 * k + 25, 1);
    } else {
      Mod4(year, 100 * k + 24, 1 + year - y);
    }
  }

  lemma Mod4(n: int, q: int, r: int)
    requires n == 4 * q + r && 0 < r < 4
    ensures n % 4 != 0
  {}

  lemma YearNotBefore(t: Minute, x: Minute)
    requires Valid(t) && Valid(x) && Index(x) > Index(t)
    ensures x.year >= NextMinute(t).year
  {
    hide Index;
    NextMinuteCounts(t);
    LessCounts(x, NextMinute(t));
  }

  // An empty search for 29 February means a century year that is not a leap year lies ahead.
  lemma CenturyAhead(c: Cron, t: Minute, r: Option<Minute>) returns (century: int)
    requires Parsed(c) && Valid(t) && NextSpec(c, t, r) && r.None?
    requires 2 in c.month && 29 in c.dom
    ensures NextMinute(t).year < century <= NextMinute(t).year + 4
    ensures century % 100 == 0 && century % 400 != 0
  {
    ZeroExactly(c, t, r);
    var y := NextMinute(t).year;
    century := y + 4 - y % 4;
    FourthYear(y);
    assert !Leap(century);
  }

  lemma FourthYear(y: int)
    ensures (y + 4 - y % 4) % 4 == 0 && y < y + 4 - y % 4 <= y + 4
  {
    assert y + 4 - y % 4 == 4 * (y / 4 + 1);
  }
}
