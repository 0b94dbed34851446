/** Which appends keep conservation safe for good: an append out of order, by ID or by creation
    second, can always be turned into a loss or a double summary by a later compaction. */
module AppendOrder {
  import opened Messages
  import opened History
  import opened Compaction
  import opened Conservation

  // A continuation, with appends in order, after which conservation fails.
  ghost predicate Breaks(preserve: int, s: State, c: ConvId, steps: seq<Step>)
  {
    && Possible(preserve, s, steps) && AppendsInOrder(preserve, s, steps)
    && !Conserved(StateAfter(preserve, s, steps), c)
  }

  // Conserved whatever happens from here, as long as later appends are in order.
  ghost predicate Safe(preserve: int, s: State, c: ConvId)
  {
    forall steps :: !Breaks(preserve, s, c, steps)
  }

  lemma BrokenNow(preserve: int, s: State, c: ConvId)
    requires !Conserved(s, c)
    ensures !Safe(preserve, s, c)
  {
    assert Breaks(preserve, s, c, []);
  }

  lemma BrokenNext(preserve: int, s: State, c: ConvId, step: Step)
    requires Enabled(s, step) && InOrder(s, step) && !Safe(preserve, After(preserve, s, step), c)
    ensures !Safe(preserve, s, c)
  {
    hide Enabled, InOrder, After, Conserved, Possible, AppendsInOrder, StateAfter;
    var s1 := After(preserve, s, step);
    var rest :| Breaks(preserve, s1, c, rest);
    Prepended(preserve, s, step, rest);
    assert Breaks(preserve, s, c, [step] + rest);
  }

  lemma Prepended(preserve: int, s: State, step: Step, rest: seq<Step>)
    requires Enabled(s, step) && InOrder(s, step) && Possible(preserve, After(preserve, s, step), rest)
    requires AppendsInOrder(preserve, After(preserve, s, step), rest)
    ensures Possible(preserve, s, [step] + rest) && AppendsInOrder(preserve, s, [step] + rest)
    ensures StateAfter(preserve, s, [step] + rest) == StateAfter(preserve, After(preserve, s, step), rest)
  {
    hide Enabled, InOrder, After;
    assert ([step] + rest)[0] == step && ([step] + rest)[1..] == rest;
  }

  // ---------- a compaction from any state without one ----------

  lemma {:induction false} FreshJob(jobs: set<JobId>) returns (j: JobId)
    ensures forall k :: k in jobs ==> k < j
  {
    if jobs == {} {
      j := 0;
    } else {
      var k :| k in jobs;
      var n := FreshJob(jobs - {k});
      j := if k < n then n else k + 1;
      assert forall x :: x in jobs ==> x == k || x in jobs - {k};
    }
  }

  lemma CompactionBreaks(preserve: int, s: State, c: ConvId, latest: MessageId)
    requires SingleFlight(s) && c !in s.inFlight
    requires var batch := Batch(Log(s, c), latest, Boundary(s, c), preserve);
      && batch != []
      && |Summarised(s, c)| + |batch| + |AfterBoundary(Log(s, c), LastId(batch))| != |Log(s, c)|
    ensures !Safe(preserve, s, c)
  {
    hide Safe, Batch, AfterBoundary, UpTo, Flatten, Batches, SingleFlight, Conserved;
    var j := FreshJob(s.jobs.Keys);
    assert j !in s.jobs;
    var launch := Launch(j, c, latest);
    var s1 := After(preserve, s, launch);
    var s2 := After(preserve, s1, ReadSummary(j));
    var s3 := After(preserve, s2, ReadHistory(j));
    var s4 := After(preserve, s3, Save(j));
    var batch := Batch(Log(s, c), latest, Boundary(s, c), preserve);
    SummaryAdded(Sums(s, c), Saved(LastId(batch), batch));
    Miscounted(s4, c);
    BrokenNow(preserve, s4, c);
    BrokenNext(preserve, s3, c, Save(j));
    BrokenNext(preserve, s2, c, ReadHistory(j));
    BrokenNext(preserve, s1, c, ReadSummary(j));
    BrokenNext(preserve, s, c, launch);
  }

  lemma SummaryAdded(sums: seq<Saved>, saved: Saved)
    ensures Flatten(Batches(sums + [saved])) == Flatten(Batches(sums)) + saved.batch
  {
    assert Batches(sums + [saved]) == Batches(sums) + [saved.batch];
    FlattenConcat(Batches(sums), [saved.batch]);
    assert Flatten([saved.batch]) == saved.batch;
  }

  lemma Miscounted(s: State, c: ConvId)
    requires |Summarised(s, c)| + |Live(s, c)| != |Log(s, c)|
    ensures !Conserved(s, c)
  {}

  // ---------- a log with one message out of place ----------

  function With(log: seq<Message>, m: Message, k: nat): seq<Message>
    requires k <= |log|
  {
    log[..k] + [m] + log[k..]
  }

  // m stands at k by creation second and belongs at p by ID; b messages are summarised.
  ghost predicate Misplaced(log: seq<Message>, m: Message, k: nat, p: nat, bound: MessageId, b: nat)
  {
    && Ordered(log) && Dated(log) && m.id != EMPTY_ID && !IsStored(log, m.id)
    && PlaceAt(log, m, k) && CutAt(log, m.id, p) && k != p
    && CutAt(log, bound, b) && b <= k && b <= p && bound < m.id
  }

  lemma MisplacedFacts(log: seq<Message>, m: Message, k: nat, p: nat, bound: MessageId, b: nat)
    requires Misplaced(log, m, k, p, bound, b)
    ensures b <= k <= |log| && b <= p <= |log| && k != p
  {}

  lemma UpToWith(log: seq<Message>, m: Message, k: nat, bound: MessageId, e: nat)
    requires CutAt(log, bound, e) && m.id <= bound && k <= e
    ensures UpTo(With(log, m, k), bound) == log[..k] + [m] + log[k..e]
  {
    hide UpTo;
    var all := With(log, m, k);
    assert CutAt(all, bound, e + 1);
    UpToCut(all, bound, e + 1);
    assert all[..e + 1] == log[..k] + [m] + log[k..e];
  }

  lemma AfterWith(log: seq<Message>, m: Message, k: nat, e: nat, bound: MessageId, b: nat)
    requires Ordered(log) && CutAt(log, bound, b) && b <= k <= e <= |log| && bound < m.id
    ensures AfterBoundary(log[..k] + [m] + log[k..e], bound) == (log[..k] + [m] + log[k..e])[b..]
  {
    hide Newer;
    var seen := log[..k] + [m] + log[k..e];
    assert CutAt(seen, bound, b);
    NewerCut(seen, bound, b);
    if bound == EMPTY_ID {
      AllAboveEmpty(log, b);
      assert seen[0..] == seen;
    }
  }

  // The ID up to which exactly log[..e] and m are read.
  function LatestFor(log: seq<Message>, m: Message, e: nat): MessageId
    requires e <= |log|
  {
    if e > 0 && log[e - 1].id > m.id then log[e - 1].id else m.id
  }

  lemma BatchWith(
    log: seq<Message>, m: Message, k: nat, p: nat, bound: MessageId, b: nat, e: nat, preserve: int)
    requires Misplaced(log, m, k, p, bound, b) && k <= e && p <= e <= |log|
    requires 0 < preserve <= e - b
    ensures Batch(With(log, m, k), LatestFor(log, m, e), bound, preserve)
         == (log[..k] + [m] + log[k..e])[b..e + 1 - preserve]
  {
    hide UpTo, AfterBoundary, Dated, PlaceAt, IsStored;
    var latest, seen := LatestFor(log, m, e), log[..k] + [m] + log[k..e];
    assert CutAt(log, latest, e);
    UpToWith(log, m, k, latest, e);
    AfterWith(log, m, k, e, bound, b);
    assert seen[b..][..e + 1 - preserve - b] == seen[b..e + 1 - preserve];
  }

  // How far to read: so that the batch ends just before a misplaced larger ID, or at m, or, where
  // more than `preserve` smaller IDs stand behind m, among those.
  function ReadTo(k: nat, p: nat, preserve: nat): (e: nat)
    requires k != p && preserve > 0
    ensures k <= e && p <= e
  {
    if k > p then k + preserve - 1 else if p - k <= preserve then k + preserve else p
  }

  lemma LiveCount(log: seq<Message>, m: Message, k: nat, bound: MessageId, n: nat)
    requires CutAt(log, bound, n) && k <= |log| && bound != EMPTY_ID
    ensures |AfterBoundary(With(log, m, k), bound)| == |log| - n + if m.id > bound then 1 else 0
  {
    hide Newer;
    NewerConcat(log[..k] + [m], log[k..], bound);
    NewerConcat(log[..k], [m], bound);
    NewerConcat(log[..k], log[k..], bound);
    assert log[..k] + log[k..] == log;
    NewerCut(log, bound, n);
    NewerOne(m, bound);
  }

  lemma NewerOne(m: Message, bound: MessageId)
    ensures Newer([m], bound) == if m.id > bound then [m] else []
  {
    assert [m][..0] == [];
  }

  // The batch that results miscounts: m lost, or a smaller ID behind it lost, or m counted twice.
  lemma BatchMiscounts(
    log: seq<Message>, m: Message, k: nat, p: nat, bound: MessageId, b: nat, preserve: nat)
    requires Misplaced(log, m, k, p, bound, b) && preserve > 0 && ReadTo(k, p, preserve) <= |log|
    ensures var e := ReadTo(k, p, preserve);
            var batch := (log[..k] + [m] + log[k..e])[b..e + 1 - preserve];
            && preserve <= e - b && batch != []
            && b + |batch| + |AfterBoundary(With(log, m, k), LastId(batch))| != |log| + 1
  {
    hide AfterBoundary, Dated, PlaceAt, IsStored;
    var e := ReadTo(k, p, preserve);
    var seen := log[..k] + [m] + log[k..e];
    var z := e + 1 - preserve;
    assert LastId(seen[b..z]) == seen[z - 1].id;
    if k > p {
      assert seen[z - 1] == log[k - 1];
      assert CutAt(log, log[k - 1].id, k);
      LiveCount(log, m, k, log[k - 1].id, k);
    } else if p - k <= preserve {
      assert seen[z - 1] == m;
      LiveCount(log, m, k, m.id, p);
    } else {
      assert seen[z - 1] == log[z - 2];
      assert CutAt(log, log[z - 2].id, z - 1);
      LiveCount(log, m, k, log[z - 2].id, z - 1);
    }
  }

  // ---------- messages behind it ----------

  ghost predicate Spoiled(
    preserve: int, s: State, c: ConvId, log: seq<Message>, m: Message, k: nat, p: nat, b: nat)
  {
    && SingleFlight(s) && c !in s.inFlight
    && Misplaced(log, m, k, p, Boundary(s, c), b)
    && Log(s, c) == With(log, m, k)
    && |Summarised(s, c)| == b
  }

  lemma SpoiledBreaks(
    preserve: nat, s: State, c: ConvId, log: seq<Message>, m: Message, k: nat, p: nat, b: nat)
    requires preserve > 0 && Spoiled(preserve, s, c, log, m, k, p, b) && ReadTo(k, p, preserve) <= |log|
    ensures !Safe(preserve, s, c)
  {
    hide Safe, Batch, AfterBoundary, Misplaced, SingleFlight, Summarised, LastId;
    MisplacedFacts(log, m, k, p, Boundary(s, c), b);
    var e := ReadTo(k, p, preserve);
    BatchMiscounts(log, m, k, p, Boundary(s, c), b, preserve);
    BatchWith(log, m, k, p, Boundary(s, c), b, e, preserve);
    CompactionBreaks(preserve, s, c, LatestFor(log, m, e));
  }

  // A message that is last by ID and by second.
  lemma {:induction false} LastMessage(log: seq<Message>) returns (t: Message)
    ensures t.id != EMPTY_ID && forall x :: x in log ==> x.id < t.id && Created(x) <= Created(t)
  {
    if log == [] {
      t := Message(1, "", User, "", [], "", [], EMPTY_ID, Some(0), false);
    } else {
      var n := |log| - 1;
      var u := LastMessage(log[..n]);
      var x := log[n];
      t := u.(id := u.id + x.id + 1, createdAt := Some(if Created(x) < Created(u) then Created(u) else Created(x)));
      assert log == log[..n] + [x];
    }
  }

  lemma MisplacedGrows(log: seq<Message>, m: Message, k: nat, p: nat, bound: MessageId, b: nat, t: Message)
    requires Misplaced(log, m, k, p, bound, b) && t.id > bound
    requires forall x :: x in With(log, m, k) ==> x.id < t.id && Created(x) <= Created(t)
    ensures Misplaced(log + [t], m, k, p, bound, b)
    ensures Insert(With(log, m, k), t) == With(log + [t], m, k)
    ensures !IsStored(With(log, m, k), t.id) && Agrees(With(log, m, k), t)
  {
    hide Insert, Created, Ordered, Dated, PlaceAt, IsStored, Agrees;
    MisplacedFacts(log, m, k, p, bound, b);
    var all := With(log, m, k);
    assert all[k] == m && m in all;
    InAll(log, m, k);
    OrderedGrows(log, t);
    PlaceGrows(log, m, k, p, t);
    CutGrows(log, bound, b, t);
    LastAgrees(all, t);
    LastInserted(all, t);
    WithGrows(log, m, k, t);
  }

  lemma WithGrows(log: seq<Message>, m: Message, k: nat, t: Message)
    requires k <= |log|
    ensures With(log, m, k) + [t] == With(log + [t], m, k)
  {}

  lemma CutGrows(log: seq<Message>, bound: MessageId, b: nat, t: Message)
    requires CutAt(log, bound, b) && bound < t.id
    ensures CutAt(log + [t], bound, b)
  {}

  lemma LastAgrees(all: seq<Message>, t: Message)
    requires forall x :: x in all ==> x.id < t.id && Created(x) <= Created(t)
    ensures !IsStored(all, t.id) && Agrees(all, t)
  {
    hide Created;
    assert forall i :: 0 <= i < |all| ==> all[i] in all;
  }

  lemma OrderedGrows(log: seq<Message>, t: Message)
    requires Ordered(log) && Dated(log)
    requires t.id != EMPTY_ID && forall i :: 0 <= i < |log| ==> log[i].id < t.id && Created(log[i]) <= Created(t)
    ensures Ordered(log + [t]) && Dated(log + [t])
  {
    hide Created;
  }

  lemma PlaceGrows(log: seq<Message>, m: Message, k: nat, p: nat, t: Message)
    requires PlaceAt(log, m, k) && CutAt(log, m.id, p) && !IsStored(log, m.id)
    requires m.id < t.id && Created(m) <= Created(t)
    ensures PlaceAt(log + [t], m, k) && CutAt(log + [t], m.id, p) && !IsStored(log + [t], m.id)
  {
    assert !StoredBefore(t, m);
    hide StoredBefore;
  }

  lemma InAll(log: seq<Message>, m: Message, k: nat)
    requires k <= |log|
    ensures forall i :: 0 <= i < |log| ==> log[i] in With(log, m, k)
  {
    forall i | 0 <= i < |log| ensures log[i] in With(log, m, k) {
      assert With(log, m, k)[if i < k then i else i + 1] == log[i];
    }
  }

  lemma LastInserted(all: seq<Message>, t: Message)
    requires forall x :: x in all ==> x.id < t.id && Created(x) <= Created(t)
    ensures Insert(all, t) == all + [t]
  {
    hide Earlier, Later;
    assert forall i :: 0 <= i < |all| ==> all[i] in all;
    SidesOfPlace(all, t, |all|);
    assert all[..|all|] + [t] + all[|all|..] == all + [t];
  }

  // With messages enough behind the misplaced one, appended in order, a compaction breaks it.
  lemma {:induction false} SpoiledNotSafe(
    preserve: nat, s: State, c: ConvId, log: seq<Message>, m: Message, k: nat, p: nat, b: nat)
    requires preserve > 0 && Spoiled(preserve, s, c, log, m, k, p, b)
    ensures !Safe(preserve, s, c)
    decreases k + p + preserve - |log|
  {
    hide Safe, Misplaced, SingleFlight, Summarised, Insert, With;
    MisplacedFacts(log, m, k, p, Boundary(s, c), b);
    if ReadTo(k, p, preserve) <= |log| {
      SpoiledBreaks(preserve, s, c, log, m, k, p, b);
    } else {
      var t := LastMessage(With(log, m, k));
      var step := Append(c, t);
      TailAbove(log, m, k, p, Boundary(s, c), b, t);
      MisplacedGrows(log, m, k, p, Boundary(s, c), b, t);
      NothingPending(s, c);
      SingleFlightKept(preserve, s, step);
      var s1 := After(preserve, s, step);
      assert Summarised(s1, c) == Summarised(s, c) by { SameSums(s, s1, c); }
      SpoiledNotSafe(preserve, s1, c, log + [t], m, k, p, b);
      BrokenNext(preserve, s, c, step);
    }
  }

  lemma SameSums(s: State, s1: State, c: ConvId)
    requires s1.summaries == s.summaries
    ensures Summarised(s1, c) == Summarised(s, c) && Boundary(s1, c) == Boundary(s, c)
  {}

  lemma TailAbove(log: seq<Message>, m: Message, k: nat, p: nat, bound: MessageId, b: nat, t: Message)
    requires Misplaced(log, m, k, p, bound, b)
    requires forall x :: x in With(log, m, k) ==> x.id < t.id
    ensures t.id > bound
  {
    assert With(log, m, k)[k] == m;
  }

  lemma NothingPending(s: State, c: ConvId)
    requires SingleFlight(s) && c !in s.inFlight
    ensures forall j :: !Pending(s, c, j)
  {}

  // ---------- the exact condition ----------

  // A conversation marked as being compacted has a job that can finish.
  ghost predicate Tied(s: State)
  {
    forall c :: c in s.inFlight ==> exists j :: j in s.jobs && s.jobs[j].conv == c
  }

  lemma TiedKept(preserve: int, s: State, step: Step)
    requires Tied(s) && SingleFlight(s) && Enabled(s, step)
    ensures Tied(After(preserve, s, step))
  {
    hide Batch, UpTo, Insert, LastId;
    var s' := After(preserve, s, step);
    forall c | c in s'.inFlight ensures exists j :: j in s'.jobs && s'.jobs[j].conv == c {
      if c in s.inFlight {
        var j :| j in s.jobs && s.jobs[j].conv == c;
        assert j in s'.jobs && s'.jobs[j].conv == c;
      } else {
        assert step.job in s'.jobs && s'.jobs[step.job].conv == c;
      }
    }
  }

  lemma {:induction false} RunKeepsTied(preserve: int, s: State, steps: seq<Step>)
    requires Tied(s) && SingleFlight(s) && Possible(preserve, s, steps)
    ensures Tied(StateAfter(preserve, s, steps))
    decreases |steps|
  {
    hide Tied, SingleFlight, After, Enabled;
    if steps == [] {
    } else {
      TiedKept(preserve, s, steps[0]);
      SingleFlightKept(preserve, s, steps[0]);
      RunKeepsTied(preserve, After(preserve, s, steps[0]), steps[1..]);
    }
  }

  lemma ReachedTied(preserve: int, s: State)
    requires Reached(preserve, s)
    ensures Tied(s)
  {
    hide AppendsInOrder;
    var steps :| RunsTo(preserve, steps, s);
    RunKeepsTied(preserve, INITIAL, steps);
  }

  // In order: nothing can go wrong.
  lemma InOrderSafe(preserve: int, s: State, c: ConvId, m: Message)
    requires preserve > 0 && Inv(preserve, s) && m.id != EMPTY_ID && InOrder(s, Append(c, m))
    ensures Safe(preserve, After(preserve, s, Append(c, m)), c)
  {
    hide Inv, After, InOrder, Possible, AppendsInOrder, StateAfter, Conserved;
    var s1 := After(preserve, s, Append(c, m));
    AppendKeeps(preserve, s, c, m);
    forall steps ensures !Breaks(preserve, s1, c, steps) {
      if Possible(preserve, s1, steps) && AppendsInOrder(preserve, s1, steps) {
        RunKeeps(preserve, s1, steps);
        InvConserves(preserve, StateAfter(preserve, s1, steps), c);
      }
    }
  }

  lemma InvConserves(preserve: int, s: State, c: ConvId)
    requires Inv(preserve, s)
    ensures Conserved(s, c)
  {
    hide ConvInv, SingleFlight, JobInv, Conserved;
    ConservedFromInv(s, c);
  }

  // Above the boundary and everything pending, yet on different sides of some message by ID and
  // by creation second.
  lemma DisagreeingNotSafe(preserve: int, s: State, c: ConvId, m: Message)
    requires preserve > 0 && Inv(preserve, s) && Tied(s)
    requires m.id != EMPTY_ID && !IsStored(Log(s, c), m.id) && m.id > Boundary(s, c) && !Agrees(Log(s, c), m)
    ensures !Safe(preserve, After(preserve, s, Append(c, m)), c)
  {
    hide Safe, Inv, Tied, Agrees, Conserved, Spoiled, Misplaced, Insert, Summarised, After, PlaceAt, InOrder, With;
    var s1 := After(preserve, s, Append(c, m));
    var log := Log(s, c);
    var k, p, b := DisagreeingPlaces(preserve, s, c, m);
    if k < b {
      EarlyBreaks(preserve, s, c, m, k, b);
      BrokenNow(preserve, s1, c);
    } else {
      AppendSpoils(preserve, s, c, m, k, p, b);
      if c in s.inFlight {
        var j := RunningJob(s, c);
        FinishNotSafe(preserve, s1, c, j, log, m, k, p, b);
      } else {
        SpoiledNotSafe(preserve, s1, c, log, m, k, p, b);
      }
    }
  }

  lemma FinishNotSafe(
    preserve: nat, s: State, c: ConvId, j: JobId, log: seq<Message>, m: Message, k: nat, p: nat, b: nat)
    requires preserve > 0 && Enabled(s, Finish(j))
    requires Spoiled(preserve, After(preserve, s, Finish(j)), c, log, m, k, p, b)
    ensures !Safe(preserve, s, c)
  {
    hide Safe, After, Enabled, Spoiled;
    SpoiledNotSafe(preserve, After(preserve, s, Finish(j)), c, log, m, k, p, b);
    BrokenNext(preserve, s, c, Finish(j));
  }

  lemma RunningJob(s: State, c: ConvId) returns (j: JobId)
    requires Tied(s) && c in s.inFlight
    ensures j in s.jobs && s.jobs[j].conv == c
  {
    j :| j in s.jobs && s.jobs[j].conv == c;
  }

  lemma DisagreeingPlaces(preserve: int, s: State, c: ConvId, m: Message) returns (k: nat, p: nat, b: nat)
    requires Inv(preserve, s)
    requires m.id != EMPTY_ID && !IsStored(Log(s, c), m.id) && m.id > Boundary(s, c) && !Agrees(Log(s, c), m)
    ensures PlaceAt(Log(s, c), m, k) && CutAt(Log(s, c), Boundary(s, c), b)
    ensures b <= k ==> Misplaced(Log(s, c), m, k, p, Boundary(s, c), b)
    ensures Summarised(s, c) == Log(s, c)[..b] && Insert(Log(s, c), m) == With(Log(s, c), m, k)
  {
    hide Insert, UpTo, Summarised, SingleFlight, JobInv, Chained, Agrees, PlaceAt;
    var log := Log(s, c);
    assert ConvInv(s, c);
    k := Place(log, m);
    p := Cut(log, m.id);
    b := Cut(log, Boundary(s, c));
    CutsIncrease(log, Boundary(s, c), b, m.id, p);
    if k == p { SamePlaceAgrees(log, m, k); }
  }

  lemma CutsIncrease(log: seq<Message>, bound: MessageId, b: nat, id: MessageId, p: nat)
    requires CutAt(log, bound, b) && CutAt(log, id, p) && bound <= id
    ensures b <= p
  {
    assert b > 0 ==> log[b - 1].id <= bound;
  }

  lemma SamePlaceAgrees(log: seq<Message>, m: Message, k: nat)
    requires PlaceAt(log, m, k) && CutAt(log, m.id, k)
    ensures Agrees(log, m)
  {
    forall i | 0 <= i < |log|
      ensures log[i].id < m.id ==> Created(log[i]) <= Created(m)
      ensures log[i].id > m.id ==> Created(m) <= Created(log[i])
    {
      assert log[i].id <= m.id <==> StoredBefore(log[i], m);
    }
  }

  // Stored before a summarised message: broken at once.
  lemma EarlyBreaks(preserve: int, s: State, c: ConvId, m: Message, k: nat, b: nat)
    requires Inv(preserve, s) && m.id != EMPTY_ID && !IsStored(Log(s, c), m.id)
    requires PlaceAt(Log(s, c), m, k) && k < b <= |Log(s, c)| && Summarised(s, c) == Log(s, c)[..b]
    ensures !Conserved(After(preserve, s, Append(c, m)), c)
  {
    hide Inv, After, Conserved, Summarised, StoredBefore;
    AppendConservesIff(preserve, s, c, m);
    assert Log(s, c)[..b][k] == Log(s, c)[k];
  }

  // Otherwise the append, and the end of a running job, leave a log with one message misplaced.
  lemma AppendSpoils(preserve: int, s: State, c: ConvId, m: Message, k: nat, p: nat, b: nat)
    requires Inv(preserve, s) && m.id != EMPTY_ID
    requires Misplaced(Log(s, c), m, k, p, Boundary(s, c), b)
    requires Summarised(s, c) == Log(s, c)[..b] && Insert(Log(s, c), m) == With(Log(s, c), m, k)
    ensures var s1 := After(preserve, s, Append(c, m));
      && (c !in s.inFlight ==> Spoiled(preserve, s1, c, Log(s, c), m, k, p, b))
      && forall j :: j in s.jobs && s.jobs[j].conv == c ==>
           Enabled(s1, Finish(j)) && Spoiled(preserve, After(preserve, s1, Finish(j)), c, Log(s, c), m, k, p, b)
  {
    hide Misplaced, Insert, Summarised, ConvInv, JobInv, With, SingleFlight;
    var s1 := After(preserve, s, Append(c, m));
    MisplacedFacts(Log(s, c), m, k, p, Boundary(s, c), b);
    SingleFlightKept(preserve, s, Append(c, m));
    SameSums(s, s1, c);
    forall j | j in s.jobs && s.jobs[j].conv == c
      ensures Spoiled(preserve, After(preserve, s1, Finish(j)), c, Log(s, c), m, k, p, b)
    {
      SingleFlightKept(preserve, s1, Finish(j));
      SameSums(s, After(preserve, s1, Finish(j)), c);
    }
  }

  // Not above a pending batch: the save breaks it.
  lemma PendingNotSafe(preserve: int, s: State, c: ConvId, m: Message, j: JobId)
    requires Inv(preserve, s) && m.id != EMPTY_ID && !IsStored(Log(s, c), m.id)
    requires Pending(s, c, j) && m.id <= LastId(s.jobs[j].phase.batch)
    ensures !Safe(preserve, After(preserve, s, Append(c, m)), c)
  {
    hide Inv, Conserved, Safe, Summarised, StoredBefore, Insert;
    var s1 := After(preserve, s, Append(c, m));
    AppendThenSaveConservesIff(preserve, s, c, m, j);
    BrokenNow(preserve, After(preserve, s1, Save(j)), c);
    BrokenNext(preserve, s1, c, Save(j));
  }

  // In every reachable state: appending a new message leaves conservation safe, over all
  // continuations with appends in order, exactly if the append is in order itself.
  lemma AppendSafeExactly(preserve: int, s: State, c: ConvId, m: Message)
    requires preserve > 0 && Reached(preserve, s)
    requires m.id != EMPTY_ID && !IsStored(Log(s, c), m.id)
    ensures Safe(preserve, After(preserve, s, Append(c, m)), c) <==> InOrder(s, Append(c, m))
  {
    hide Reached, Inv, Tied, After, Safe, Agrees, Conserved, IsStored, Summarised, StoredBefore;
    ReachedInv(preserve, s);
    ReachedTied(preserve, s);
    if InOrder(s, Append(c, m)) {
      InOrderSafe(preserve, s, c, m);
    } else if m.id <= Boundary(s, c) {
      AppendConservesIff(preserve, s, c, m);
      BrokenNow(preserve, After(preserve, s, Append(c, m)), c);
    } else if j :| Pending(s, c, j) && m.id <= LastId(s.jobs[j].phase.batch) {
      PendingNotSafe(preserve, s, c, m, j);
    } else {
      DisagreeingNotSafe(preserve, s, c, m);
    }
  }

  // ---------- a run that the seconds break ----------

  function At(id: MessageId, second: int): Message
  {
    Message(id, "", User, "", [], "", [], EMPTY_ID, Some(second), false)
  }

  // ID 3 of second 10 is stored, ID 2 of second 11 comes next: above the boundary, nothing
  // summarised or pending, and not safe.
  lemma SecondsMatter(preserve: int, c: ConvId)
    requires preserve > 0
    ensures var s := Filled(c, [At(3, 10)]);
      && Reached(preserve, s) && AboveBoundary(s, Append(c, At(2, 11)))
      && Conserved(After(preserve, s, Append(c, At(2, 11))), c)
      && !Safe(preserve, After(preserve, s, Append(c, At(2, 11))), c)
  {
    hide Reached, Safe, After;
    var s, m := Filled(c, [At(3, 10)]), At(2, 11);
    FilledReached(preserve, c, [At(3, 10)]);
    ReachedInv(preserve, s);
    AppendConservesIff(preserve, s, c, m);
    AppendSafeExactly(preserve, s, c, m);
    assert !Agrees(Log(s, c), m) by { assert Log(s, c)[0].id > m.id; }
  }
}
