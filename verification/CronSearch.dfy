/** NextAfter (pkg/cron/cron.go): the five-level calendar search, its exact result, and when it
    finds nothing. */
module CronSearch {
  import opened Messages
  import opened Calendar

  datatype Cron = Cron(
    minute: seq<int>, hour: seq<int>, dom: seq<int>, month: seq<int>, dow: seq<int>,
    domWild: bool, dowWild: bool)

  ghost predicate Increasing(s: seq<int>)
  {
    forall i, j :: 0 <= i < j < |s| ==> s[i] < s[j]
  }

  // A parsed field: non-empty, increasing, within bounds.
  ghost predicate FieldOk(s: seq<int>, lo: int, hi: int)
  {
    s != [] && Increasing(s) && forall i :: 0 <= i < |s| ==> lo <= s[i] <= hi
  }

  // What Parse returns.
  ghost predicate Parsed(c: Cron)
  {
    && FieldOk(c.minute, 0, 59) && FieldOk(c.hour, 0, 23) && FieldOk(c.dom, 1, 31)
    && FieldOk(c.month, 1, 12) && FieldOk(c.dow, 0, 6)
  }

  // sort.SearchInts between i and j, and contains on top of it.
  function Search(s: seq<int>, v: int, i: nat, j: nat): (r: nat)
    requires i <= j <= |s|
    ensures i <= r <= j
    decreases j - i
  {
    if i == j then i
    else
      var h := (i + j) / 2;
      if s[h] < v then Search(s, v, h + 1, j) else Search(s, v, i, h)
  }

  predicate Contains(s: seq<int>, v: int)
  {
    var i := Search(s, v, 0, |s|);
    i < |s| && s[i] == v
  }

  lemma {:induction false} SearchPlace(s: seq<int>, v: int, i: nat, j: nat)
    requires Increasing(s) && i <= j <= |s|
    requires (forall k :: 0 <= k < i ==> s[k] < v) && (forall k :: j <= k < |s| ==> s[k] >= v)
    ensures var r := Search(s, v, i, j);
            (forall k :: 0 <= k < r ==> s[k] < v) && (forall k :: r <= k < |s| ==> s[k] >= v)
    decreases j - i
  {
    if i == j {
    } else {
      var h := (i + j) / 2;
      if s[h] < v {
        SearchPlace(s, v, h + 1, j);
      } else {
        SearchPlace(s, v, i, h);
      }
    }
  }

  // On the increasing lists of a parsed expression, contains is membership.
  lemma ContainsIsMember(s: seq<int>, v: int)
    requires Increasing(s)
    ensures Contains(s, v) <==> v in s
  {
    SearchPlace(s, v, 0, |s|);
  }

  predicate DayMatches(c: Cron, year: int, month: int, day: int)
    requires ValidDay(year, month, day)
  {
    var domMatch := day in c.dom;
    var dowMatch := Weekday(year, month, day) in c.dow;
    if c.domWild && c.dowWild then true
    else if c.domWild then dowMatch
    else if c.dowWild then domMatch
    else domMatch || dowMatch
  }

  predicate Matches(c: Cron, x: Minute)
    requires Valid(x)
  {
    x.minute in c.minute && x.hour in c.hour && x.month in c.month && DayMatches(c, x.year, x.month, x.day)
  }

  // A matching minute not before `from`.
  ghost predicate Hit(c: Cron, from: Minute, x: Minute)
  {
    Valid(x) && Matches(c, x) && !Less(x, from)
  }

  // x lies in the year, month, day or hour named by p, down to the given depth.
  ghost predicate Within(x: Minute, p: Minute, depth: nat)
  {
    && (depth >= 1 ==> x.year == p.year)
    && (depth >= 2 ==> x.month == p.month)
    && (depth >= 3 ==> x.day == p.day)
    && (depth >= 4 ==> x.hour == p.hour)
  }

  // r is the first hit within that part of the calendar.
  ghost predicate First(c: Cron, from: Minute, p: Minute, depth: nat, r: Option<Minute>)
  {
    match r
    case None => forall x :: Hit(c, from, x) ==> !Within(x, p, depth)
    case Some(v) =>
      && Hit(c, from, v) && Within(v, p, depth)
      && forall x :: Hit(c, from, x) && Within(x, p, depth) ==> !Less(x, v)
  }

  // ---------- one loop per level ----------

  method FirstMinute(c: Cron, from: Minute, year: int, mon: int, day: int, hr: int) returns (r: Option<Minute>)
    requires Parsed(c) && Valid(from)
    requires ValidDay(year, mon, day) && DayMatches(c, year, mon, day) && mon in c.month && hr in c.hour
    requires !Less(Minute(year, mon, day, hr, 59), Minute(from.year, from.month, from.day, from.hour, 0))
    ensures First(c, from, Minute(year, mon, day, hr, 0), 4, r)
  {
    hide DayMatches, DaysIn;
    var here := year == from.year && mon == from.month && day == from.day && hr == from.hour;
    var i := 0;
    while i < |c.minute|
      invariant 0 <= i <= |c.minute|
      invariant forall k :: 0 <= k < i ==> here && c.minute[k] < from.minute
    {
      if here && c.minute[i] < from.minute {
        i := i + 1;
        continue;
      }
      return Some(Minute(year, mon, day, hr, c.minute[i]));
    }
    return None;
  }

  method FirstHour(c: Cron, from: Minute, year: int, mon: int, day: int) returns (r: Option<Minute>)
    requires Parsed(c) && Valid(from)
    requires ValidDay(year, mon, day) && DayMatches(c, year, mon, day) && mon in c.month
    requires !DayLess(Minute(year, mon, day, 0, 0), from)
    ensures First(c, from, Minute(year, mon, day, 0, 0), 3, r)
  {
    hide DayMatches, DaysIn;
    var i := 0;
    while i < |c.hour|
      invariant 0 <= i <= |c.hour|
      invariant forall x, k :: Hit(c, from, x) && Within(x, Minute(year, mon, day, 0, 0), 3) && 0 <= k < i ==>
                  x.hour != c.hour[k]
    {
      var hr := c.hour[i];
      if year == from.year && mon == from.month && day == from.day && hr < from.hour {
        i := i + 1;
        continue;
      }
      r := FirstMinute(c, from, year, mon, day, hr);
      if r.Some? {
        return r;
      }
      i := i + 1;
    }
    return None;
  }

  method FirstDay(c: Cron, from: Minute, year: int, mon: int) returns (r: Option<Minute>)
    requires Parsed(c) && Valid(from) && 1 <= mon <= 12 && mon in c.month
    requires year > from.year || (year == from.year && mon >= from.month)
    ensures First(c, from, Minute(year, mon, 1, 0, 0), 2, r)
  {
    hide Weekday, DaysIn;
    var md := DaysIn(year, mon);
    var day := 1;
    while day <= md
      invariant 1 <= day <= md + 1
      invariant forall x :: Hit(c, from, x) && Within(x, Minute(year, mon, 1, 0, 0), 2) ==> x.day >= day
    {
      if (year == from.year && mon == from.month && day < from.day) || !DayMatches(c, year, mon, day) {
        day := day + 1;
        continue;
      }
      r := FirstHour(c, from, year, mon, day);
      if r.Some? {
        return r;
      }
      day := day + 1;
    }
    return None;
  }

  method FirstMonth(c: Cron, from: Minute, year: int) returns (r: Option<Minute>)
    requires Parsed(c) && Valid(from) && year >= from.year
    ensures First(c, from, Minute(year, 1, 1, 0, 0), 1, r)
  {
    hide DayMatches, DaysIn;
    var i := 0;
    while i < |c.month|
      invariant 0 <= i <= |c.month|
      invariant forall x, k :: Hit(c, from, x) && x.year == year && 0 <= k < i ==> x.month != c.month[k]
    {
      var mon := c.month[i];
      if year == from.year && mon < from.month {
        i := i + 1;
        continue;
      }
      r := FirstDay(c, from, year, mon);
      if r.Some? {
        return r;
      }
      i := i + 1;
    }
    return None;
  }

  // ---------- NextAfter ----------

  // x matches and lies strictly after t.
  ghost predicate Due(c: Cron, t: Minute, x: Minute)
    requires Valid(t)
  {
    Valid(x) && Matches(c, x) && Index(x) > Index(t)
  }

  // The search is exact: the least matching minute after t, or none within five calendar years.
  ghost predicate NextSpec(c: Cron, t: Minute, r: Option<Minute>)
    requires Valid(t)
  {
    match r
    case Some(v) =>
      && Due(c, t, v) && v.year <= NextMinute(t).year + 4
      && forall x :: Due(c, t, x) ==> Index(v) <= Index(x)
    case None => forall x :: Due(c, t, x) ==> x.year > NextMinute(t).year + 4
  }

  lemma HitIsDue(c: Cron, t: Minute, x: Minute)
    requires Valid(t)
    ensures Hit(c, NextMinute(t), x) <==> Due(c, t, x)
  {
    hide Matches, Index, Less;
    NextMinuteCounts(t);
    if Valid(x) { LessCounts(x, NextMinute(t)); }
  }

  // t is the minute that contains the instant searched from: a whole minute lies after the
  // instant exactly when it lies after that minute.
  method NextAfter(c: Cron, t: Minute) returns (r: Option<Minute>)
    requires Parsed(c) && Valid(t)
    ensures NextSpec(c, t, r)
  {
    hide Matches, Index;
    NextMinuteCounts(t);
    var from := NextMinute(t);
    var year := from.year;
    var limit := year + 4;
    while year <= limit
      invariant from.year <= year <= limit + 1
      invariant forall x :: Hit(c, from, x) ==> x.year >= year
    {
      r := FirstMonth(c, from, year);
      if r.Some? {
        HitIsDue(c, t, r.value);
        forall x | Due(c, t, x) ensures Index(r.value) <= Index(x) {
          HitIsDue(c, t, x);
          LessCounts(x, r.value);
        }
        return r;
      }
      year := year + 1;
    }
    r := None;
    forall x | Due(c, t, x) ensures x.year > limit { HitIsDue(c, t, x); }
  }

  // The specification leaves no choice.
  lemma NextUnique(c: Cron, t: Minute, a: Option<Minute>, b: Option<Minute>)
    requires Valid(t) && NextSpec(c, t, a) && NextSpec(c, t, b)
    ensures a == b
  {
    if a.Some? && b.Some? { LessCounts(a.value, b.value); }
  }

  // ---------- what matching means ----------

  // The day rule of crontab: with both day fields restricted either is enough, with one only
  // that one counts.
  lemma DayRule(c: Cron, x: Minute)
    requires Valid(x)
    ensures Matches(c, x) ==> x.minute in c.minute && x.hour in c.hour && x.month in c.month
    ensures x.minute in c.minute && x.hour in c.hour && x.month in c.month ==>
      var onDate, onWeekday := x.day in c.dom, Weekday(x.year, x.month, x.day) in c.dow;
      && (!c.domWild && !c.dowWild ==> (Matches(c, x) <==> onDate || onWeekday))
      && (!c.domWild && c.dowWild ==> (Matches(c, x) <==> onDate))
      && (c.domWild && !c.dowWild ==> (Matches(c, x) <==> onWeekday))
      && (c.domWild && c.dowWild ==> Matches(c, x))
  {}

  // So with both restricted the next run is not later than the next admitted minute on a day of
  // the month, nor than the next one on a weekday, and it lies on one of the two.
  lemma EitherDayIsEnough(c: Cron, t: Minute, r: Option<Minute>, x: Minute)
    requires Valid(t) && NextSpec(c, t, r) && !c.domWild && !c.dowWild
    requires Valid(x) && Index(x) > Index(t) && x.year <= NextMinute(t).year + 4
    requires x.minute in c.minute && x.hour in c.hour && x.month in c.month
    requires x.day in c.dom || Weekday(x.year, x.month, x.day) in c.dow
    ensures r.Some? && Index(r.value) <= Index(x)
    ensures var v := r.value; Valid(v) && (v.day in c.dom || Weekday(v.year, v.month, v.day) in c.dow)
  {
    hide Index, Weekday;
    DayRule(c, x);
    assert Due(c, t, x);
  }

  // The 13th, or Friday: from Sunday 12 April 2026 the next run is on Monday the 13th.
  lemma ThirteenthOrFriday(c: Cron, r: Option<Minute>)
    requires c == Cron([0], [0], [13], [1, 2, 3, 4, 5, 6, 7, 8, 9, 10, 11, 12], [5], false, false)
    requires NextSpec(c, Minute(2026, 4, 12, 0, 0), r)
    ensures Weekday(2026, 4, 12) == 0 && r == Some(Minute(2026, 4, 13, 0, 0))
  {
    hide NextSpec, Matches, Index;
    var t, x := Minute(2026, 4, 12, 0, 0), Minute(2026, 4, 13, 0, 0);
    LessCounts(t, x);
    assert x.month == c.month[3];
    EitherDayIsEnough(c, t, r, x);
    ResultIsDue(c, t, r);
    LessCounts(t, r.value);
    LessCounts(x, r.value);
    SundayTwelfth();
  }

  lemma ResultIsDue(c: Cron, t: Minute, r: Option<Minute>)
    requires Valid(t) && NextSpec(c, t, r) && r.Some?
    ensures Valid(r.value) && Matches(c, r.value) && Index(r.value) > Index(t)
  {}

  lemma SundayTwelfth()
    ensures Weekday(2026, 4, 12) == 0
  {
    assert DaysBeforeMonth(2026, 4) == 90 by {
      assert DaysBeforeMonth(2026, 2) == 31 && DaysBeforeMonth(2026, 3) == 59;
    }
  }
}
