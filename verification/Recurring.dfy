/** Firings of one recurring entry: ticks and status changes as atomic steps on a clock that never
    goes back, with the next run computed by NextAfter. Times are seconds; minute 1440 is the
    zero time of Go. */
module Recurring {
  import opened Messages
  import opened Calendar
  import opened CronSearch
  import opened CronHorizon

  const ZERO_TIME := 60 * 1440

  // u is an instant at which the expression fires.
  ghost predicate Instant(c: Cron, u: int)
  {
    exists x: Minute :: Valid(x) && Matches(c, x) && u == 60 * Index(x)
  }

  // What fireEntry and cron_set_status store after calling NextAfter at `now`: the zero time when
  // nothing was found.
  ghost predicate StoredNext(c: Cron, now: int, next: int)
  {
    exists r :: StoredResult(c, MinuteAt(now / 60), r, next)
  }

  ghost predicate StoredResult(c: Cron, t: Minute, r: Option<Minute>, next: int)
    requires Valid(t)
  {
    && NextSpec(c, t, r)
    && next == if r.Some? then 60 * Index(r.value) else ZERO_TIME
  }

  // The search from `now` comes back empty.
  ghost predicate EmptySearch(c: Cron, now: int)
    requires Parsed(c)
  {
    EmptyAt(c, MinuteAt(now / 60))
  }

  lemma NextIsLater(c: Cron, now: int, next: int)
    requires Parsed(c) && !EmptySearch(c, now) && StoredNext(c, now, next)
    ensures next > now && Instant(c, next)
  {
    hide Index, Matches, EmptyAt;
    var t := MinuteAt(now / 60);
    var r :| StoredResult(c, t, r, next);
    ZeroExactly(c, t, r);
    assert Index(r.value) >= now / 60 + 1;
  }

  datatype Status = Active | Paused | Completed | Deleted

  // fired: the instants at which the entry was published.
  datatype State = State(status: Status, nextRun: Option<int>, clock: int, fired: seq<int>)

  datatype Step =
    // one tick: updated/inserted say whether the store took the next run and the run record;
    // applied: whether a failed update took effect all the same
    | Tick(now: int, next: int, updated: bool, applied: bool, inserted: bool)
    | Activate(now: int, next: int, rescheduled: bool)
    | Pause(now: int)
    | Delete(now: int)

  predicate DueAt(s: State, now: int)
  {
    s.status == Active && s.nextRun.Some? && s.nextRun.value <= now
  }

  ghost predicate Enabled(c: Cron, s: State, step: Step)
  {
    && step.now >= s.clock
    && (step.Tick? || step.Activate? ==> StoredNext(c, step.now, step.next))
  }

  function After(s: State, step: Step): State
  {
    match step
    case Tick(now, next, updated, applied, inserted) =>
      if !DueAt(s, now) then s.(clock := now)
      else if !updated then s.(clock := now, nextRun := if applied then Some(next) else s.nextRun)
      else s.(clock := now, nextRun := Some(next), fired := if inserted then s.fired + [now] else s.fired)
    case Activate(now, next, rescheduled) =>
      s.(clock := now, status := Active, nextRun := if rescheduled then Some(next) else s.nextRun)
    case Pause(now) => s.(clock := now, status := Paused)
    case Delete(now) => s.(clock := now, status := Deleted, nextRun := None)
  }

  // The step stores a result of NextAfter.
  predicate Searches(s: State, step: Step)
  {
    (step.Tick? && DueAt(s, step.now)) || (step.Activate? && step.rescheduled)
  }

  // There is an instant of the expression after a and not after b.
  ghost predicate Separated(c: Cron, a: int, b: int)
  {
    exists u :: Instant(c, u) && a < u <= b
  }

  ghost predicate Inv(c: Cron, s: State)
  {
    && (forall i, j :: 0 <= i < j < |s.fired| ==> Separated(c, s.fired[i], s.fired[j]))
    && (forall i :: 0 <= i < |s.fired| ==>
          && s.fired[i] <= s.clock
          && (s.nextRun.Some? ==> Separated(c, s.fired[i], s.nextRun.value)))
  }

  lemma Widen(c: Cron, a: int, b: int, b': int)
    requires Separated(c, a, b) && b <= b'
    ensures Separated(c, a, b')
  {
    hide Instant;
    var u :| Instant(c, u) && a < u <= b;
  }

  lemma StepKeeps(c: Cron, s: State, step: Step)
    requires Parsed(c) && Inv(c, s) && Enabled(c, s, step)
    requires Searches(s, step) ==> !EmptySearch(c, step.now)
    ensures Inv(c, After(s, step))
  {
    hide Instant, StoredNext, Parsed, EmptySearch;
    var s' := After(s, step);
    if Searches(s, step) {
      NextIsLater(c, step.now, step.next);
      forall a | a <= step.now ensures Separated(c, a, step.next) {
        assert Instant(c, step.next) && a < step.next <= step.next;
      }
    }
    if step.Tick? && DueAt(s, step.now) {
      forall i | 0 <= i < |s.fired| ensures Separated(c, s.fired[i], step.now) {
        Widen(c, s.fired[i], s.nextRun.value, step.now);
      }
    }
  }

  ghost predicate Possible(c: Cron, s: State, steps: seq<Step>)
    decreases |steps|
  {
    steps == [] || (Enabled(c, s, steps[0]) && Possible(c, After(s, steps[0]), steps[1..]))
  }

  function StateAfter(s: State, steps: seq<Step>): State
    decreases |steps|
  {
    if steps == [] then s else StateAfter(After(s, steps[0]), steps[1..])
  }

  // No search along the run comes back empty.
  ghost predicate SearchesFind(c: Cron, s: State, steps: seq<Step>)
    requires Parsed(c)
    decreases |steps|
  {
    steps == []
    || ((Searches(s, steps[0]) ==> !EmptySearch(c, steps[0].now)) && SearchesFind(c, After(s, steps[0]), steps[1..]))
  }

  lemma {:induction false} AlwaysFinds(c: Cron, s: State, steps: seq<Step>)
    requires Parsed(c) && AlwaysFires(c)
    ensures SearchesFind(c, s, steps)
    decreases |steps|
  {
    hide AlwaysFires, After;
    if steps == [] {
    } else {
      AlwaysFinds(c, After(s, steps[0]), steps[1..]);
    }
  }

  lemma {:induction false} RunKeeps(c: Cron, s: State, steps: seq<Step>)
    requires Parsed(c) && SearchesFind(c, s, steps) && Inv(c, s) && Possible(c, s, steps)
    ensures Inv(c, StateAfter(s, steps))
    decreases |steps|
  {
    hide Inv, After, Enabled, Parsed, EmptySearch;
    if steps == [] {
    } else {
      StepKeeps(c, s, steps[0]);
      RunKeeps(c, After(s, steps[0]), steps[1..]);
    }
  }

  // Any two firings of an entry, however many ticks and status changes apart, have an instant of
  // its expression between them, as long as no search comes back empty.
  lemma FiringsSeparated(c: Cron, s: State, steps: seq<Step>, i: nat, j: nat)
    requires Parsed(c) && SearchesFind(c, s, steps) && s.fired == [] && Possible(c, s, steps)
    requires i < j < |StateAfter(s, steps).fired|
    ensures Separated(c, StateAfter(s, steps).fired[i], StateAfter(s, steps).fired[j])
  {
    hide Parsed, SearchesFind, Possible;
    RunKeeps(c, s, steps);
  }

  // ---------- the non-zero theorem is needed ----------

  lemma EmptyStoresZero(c: Cron, now: int)
    requires Parsed(c) && EmptySearch(c, now)
    ensures StoredNext(c, now, ZERO_TIME)
  {
    hide EmptyAt, Index, Matches;
    EmptyIsNone(c, MinuteAt(now / 60));
    var r: Option<Minute> := None;
    assert StoredResult(c, MinuteAt(now / 60), r, ZERO_TIME);
  }

  lemma NothingBetween(c: Cron, a: int, b: int)
    requires Parsed(c) && EmptySearch(c, a) && a <= b
    requires MinuteAt(b / 60).year <= NextMinute(MinuteAt(a / 60)).year + 4
    ensures !Separated(c, a, b)
  {
    hide EmptyAt, Index, Matches;
    var t, last := MinuteAt(a / 60), MinuteAt(b / 60);
    EmptyIsNone(c, t);
    forall u | a < u <= b ensures !Instant(c, u) {
      if x :| Valid(x) && Matches(c, x) && u == 60 * Index(x) {
        assert Due(c, t, x);
        LessCounts(last, x);
        assert false;
      }
    }
  }

  // While the search is empty, a resumed entry fires on every tick, with no instant of its
  // expression between the firings as long as they lie in the years searched.
  lemma EmptySearchFiresEveryTick(c: Cron, s: State, n0: int, n1: int, n2: int)
    requires Parsed(c) && EmptySearch(c, n0) && EmptySearch(c, n1) && EmptySearch(c, n2)
    requires s.clock <= n0 <= n1 <= n2 && ZERO_TIME <= n0
    ensures Possible(c, s, ResumeAndTick(n0, n1, n2))
    ensures StateAfter(s, ResumeAndTick(n0, n1, n2)).fired == s.fired + [n1, n2]
    ensures MinuteAt(n2 / 60).year <= NextMinute(MinuteAt(n1 / 60)).year + 4 ==> !Separated(c, n1, n2)
  {
    hide StoredNext, EmptySearch, Separated, Possible, StateAfter;
    EmptyStoresZero(c, n0);
    EmptyStoresZero(c, n1);
    EmptyStoresZero(c, n2);
    ResumeAndTickRuns(c, s, n0, n1, n2);
    if MinuteAt(n2 / 60).year <= NextMinute(MinuteAt(n1 / 60)).year + 4 { NothingBetween(c, n1, n2); }
  }

  lemma ResumeAndTickRuns(c: Cron, s: State, n0: int, n1: int, n2: int)
    requires StoredNext(c, n0, ZERO_TIME) && StoredNext(c, n1, ZERO_TIME) && StoredNext(c, n2, ZERO_TIME)
    requires s.clock <= n0 <= n1 <= n2 && ZERO_TIME <= n0
    ensures Possible(c, s, ResumeAndTick(n0, n1, n2))
    ensures StateAfter(s, ResumeAndTick(n0, n1, n2)).fired == s.fired + [n1, n2]
  {
    hide StoredNext;
    var a, b, d := Activate(n0, ZERO_TIME, true), Tick(n1, ZERO_TIME, true, true, true),
                   Tick(n2, ZERO_TIME, true, true, true);
    var s1 := After(s, a);
    var s2 := After(s1, b);
    var s3 := After(s2, d);
    assert s3.fired == s.fired + [n1] + [n2];
    assert Possible(c, s3, []);
    assert [d][1..] == [];
    assert Possible(c, s2, [d]);
    assert [b, d][1..] == [d];
    assert Possible(c, s1, [b, d]);
    assert [a, b, d][1..] == [b, d];
    assert StateAfter(s2, [d]) == StateAfter(s3, []) == s3;
    assert StateAfter(s1, [b, d]) == s3;
    assert StateAfter(s, [a, b, d]) == s3;
  }

  function ResumeAndTick(n0: int, n1: int, n2: int): seq<Step>
  {
    [Activate(n0, ZERO_TIME, true), Tick(n1, ZERO_TIME, true, true, true), Tick(n2, ZERO_TIME, true, true, true)]
  }

  // An expression without any 29 February fires on every tick at any time, with no instant ever.
  lemma NeverMatchingFiresEveryTick(c: Cron, s: State, n0: int, n1: int, n2: int)
    requires Parsed(c) && !AlwaysFires(c) && (2 !in c.month || 29 !in c.dom)
    requires s.clock <= n0 <= n1 <= n2 && ZERO_TIME <= n0
    ensures Possible(c, s, ResumeAndTick(n0, n1, n2))
    ensures StateAfter(s, ResumeAndTick(n0, n1, n2)).fired == s.fired + [n1, n2]
    ensures forall u :: !Instant(c, u)
  {
    EmptySearchFiresEveryTick(c, s, n0, n1, n2);
    NoInstants(c);
  }

  lemma NoInstants(c: Cron)
    requires Parsed(c) && !AlwaysFires(c) && (2 !in c.month || 29 !in c.dom)
    ensures forall u :: !Instant(c, u)
  {
    hide Index, Matches;
    forall x | Valid(x) ensures !Matches(c, x) {
      if Matches(c, x) { OnlyLeapDays(c, x); }
    }
  }

  // ---------- when firings are separated ----------

  ghost predicate AlwaysSeparated(c: Cron, s: State)
  {
    forall steps, i, j :: Possible(c, s, steps) && 0 <= i < j < |StateAfter(s, steps).fired| ==>
      Separated(c, StateAfter(s, steps).fired[i], StateAfter(s, steps).fired[j])
  }

  // 1 January, shortly before a common century year, not before the clock.
  lemma LateYear(clock: int) returns (t: Minute)
    ensures t == Minute(t.year, 1, 1, 0, 0) && t.year % 400 == 97
    ensures Valid(t) && 60 * Index(t) >= clock && 60 * Index(t) >= ZERO_TIME
  {
    var k := if clock < 0 then 0 else clock;
    t := Minute(400 * k + 97, 1, 1, 0, 0);
    LateDays(k);
  }

  lemma LateDays(k: nat)
    ensures DaysBeforeYear(400 * k + 97) == 365 * (400 * k + 96) + (100 * k + 24) - 4 * k + k
  {
    var n := 400 * k + 96;
    Quotients(n, 100 * k + 24, 4 * k, k);
  }

  lemma Quotients(n: int, q4: int, q100: int, q400: int)
    requires n == 4 * q4 && n == 100 * q100 + 96 && n == 400 * q400 + 96
    ensures n / 4 == q4 && n / 100 == q100 && n / 400 == q400
  {}

  // Two firings of an entry always have an instant between them, in every run from every clock,
  // exactly if its expression always fires; a 29 February entry fails around 2097.
  lemma FiringsSeparatedExactly(c: Cron, s: State)
    requires Parsed(c) && s.fired == []
    ensures AlwaysFires(c) <==> AlwaysSeparated(c, s)
  {
    hide AlwaysFires, Parsed, Possible, EmptySearch, Separated, SearchesFind;
    if AlwaysFires(c) {
      forall steps, i: nat, j: nat | Possible(c, s, steps) && i < j < |StateAfter(s, steps).fired|
        ensures Separated(c, StateAfter(s, steps).fired[i], StateAfter(s, steps).fired[j])
      {
        AlwaysFinds(c, s, steps);
        FiringsSeparated(c, s, steps, i, j);
      }
    } else {
      var t := LateYear(s.clock);
      var n, steps := 60 * Index(t), ResumeAndTick(60 * Index(t), 60 * Index(t), 60 * Index(t) + 60);
      CenturyFires(c, s, t);
      var fired := StateAfter(s, steps).fired;
      assert fired == [] + [n, n + 60];
      assert Possible(c, s, steps) && fired[0] == n && fired[1] == n + 60 && !Separated(c, fired[0], fired[1]);
    }
  }

  lemma CenturyFires(c: Cron, s: State, t: Minute)
    requires Parsed(c) && !AlwaysFires(c) && t == Minute(t.year, 1, 1, 0, 0) && t.year % 400 == 97
    requires Valid(t) && s.clock <= 60 * Index(t) && ZERO_TIME <= 60 * Index(t)
    ensures var n := 60 * Index(t);
            var steps := ResumeAndTick(n, n, n + 60);
            && Possible(c, s, steps) && StateAfter(s, steps).fired == s.fired + [n, n + 60]
            && !Separated(c, n, n + 60)
  {
    hide Index, Separated, Possible, AlwaysFires, Parsed, EmptyAt, StateAfter;
    var n, t' := 60 * Index(t), NextMinute(t);
    NextMinuteCounts(t);
    NextMinuteCounts(t');
    LessCounts(t, MinuteAt(n / 60));
    LessCounts(t', MinuteAt((n + 60) / 60));
    EmptyBeforeCentury(c, t);
    EmptyBeforeCentury(c, t');
    EmptySearchFiresEveryTick(c, s, n, n, n + 60);
  }

  // ---------- when an entry fires ----------

  // A tick fires an active entry whose next run has come, and no other.
  lemma FiresExactly(s: State, step: Step)
    ensures After(s, step).fired
         == if step.Tick? && s.status == Active && s.nextRun.Some? && s.nextRun.value <= step.now
               && step.updated && step.inserted
            then s.fired + [step.now] else s.fired
    ensures After(s, step).clock == step.now
  {}

  // A paused or deleted entry stays silent until it is resumed.
  lemma {:induction false} SilentUntilResumed(s: State, steps: seq<Step>)
    requires s.status != Active && forall i :: 0 <= i < |steps| ==> !steps[i].Activate?
    ensures StateAfter(s, steps).fired == s.fired && StateAfter(s, steps).status != Active
    decreases |steps|
  {
    if steps == [] {
    } else {
      SilentUntilResumed(After(s, steps[0]), steps[1..]);
    }
  }

  // A resumed entry fires at the first tick at or after its next run.
  lemma ResumedFires(s: State, resumed: int, next: int, now: int, later: int)
    requires next <= now
    ensures var r := After(s, Activate(resumed, next, true));
            && r.status == Active && r.nextRun == Some(next)
            && After(r, Tick(now, later, true, true, true)).fired == s.fired + [now]
    ensures After(s, Pause(now)).status == Paused
    ensures After(s, Delete(now)).status == Deleted && After(s, Delete(now)).nextRun == None
  {}
}
