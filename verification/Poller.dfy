/** The scheduler's tick and the status tool in their sequential form
    (internal/domain/service/scheduler/scheduler.go, internal/infra/plugins/tool/cron_set_status/plugin.go),
    over the tables they update; each call is a run of the step system of Scheduler. */
module Poller {
  import opened Messages
  import opened Scheduler

  // ---------- runs grow at their end ----------

  lemma {:induction false} RunSnoc(s: State, steps: seq<Step>, step: Step)
    requires Possible(s, steps) && Enabled(StateAfter(s, steps), step)
    ensures Possible(s, steps + [step])
    ensures StateAfter(s, steps + [step]) == After(StateAfter(s, steps), step)
    decreases |steps|
  {
    hide Enabled, After;
    var more := steps + [step];
    if steps == [] {
      assert more[1..] == [];
      assert Possible(After(s, step), []);
    } else {
      assert more[0] == steps[0] && more[1..] == steps[1..] + [step];
      RunSnoc(After(s, steps[0]), steps[1..], step);
    }
  }

  // ---------- what one firing does to the tables ----------

  // How the calls of one firing turn out; next is None when the expression does not parse.
  datatype Firing = Firing(status: Io, next: Option<int>, nextIo: Io, run: RunId, insert: Io, sent: bool, mark: Io)

  datatype Tables = Tables(entries: map<EntryId, Entry>, runs: map<RunId, Run>, published: seq<Publication>)

  // How far the firing gets.
  predicate NextReached(item: Item, f: Firing)
  {
    if item.entry.kind == Once then f.status.Stored? else f.next.Some?
  }

  predicate InsertReached(item: Item, f: Firing) { NextReached(item, f) && f.nextIo.Stored? }

  predicate PublishReached(item: Item, f: Firing) { InsertReached(item, f) && f.insert.Stored? }

  function FiredEntry(e: Entry, item: Item, f: Firing): Entry
  {
    Entry(
      e.kind,
      if !NextReached(item, f) || !f.nextIo.Applied() then e.nextRun
      else if item.entry.kind == Once then None
      else f.next,
      if item.entry.kind == Once && f.status.Applied() then Completed else e.status)
  }

  function FiredRuns(runs: map<RunId, Run>, item: Item, f: Firing): map<RunId, Run>
  {
    if !InsertReached(item, f) || !f.insert.Applied() then runs
    else if !PublishReached(item, f) || !f.mark.Applied() then runs[f.run := Run(item.id, Running)]
    else runs[f.run := Run(item.id, if f.sent then Success else Failed)]
  }

  function Fired(t: Tables, item: Item, f: Firing): Tables
  {
    Tables(
      if item.id in t.entries then t.entries[item.id := FiredEntry(t.entries[item.id], item, f)] else t.entries,
      FiredRuns(t.runs, item, f),
      t.published + if PublishReached(item, f) then [Publication(item.id, f.run, f.sent)] else [])
  }

  // A tick fires the due entries of its listing, in order.
  function Ticked(t: Tables, listing: seq<Item>, now: int, env: nat -> Firing): Tables
  {
    if listing == [] then t else
      var n := |listing| - 1;
      var before := Ticked(t, listing[..n], now, env);
      if Due(listing[n].entry, now) then Fired(before, listing[n], env(n)) else before
  }

  ghost predicate FreshRuns(runs: map<RunId, Run>, env: nat -> Firing)
  {
    && (forall i :: env(i).run !in runs)
    && (forall i, j :: 0 <= i < j ==> env(i).run != env(j).run)
  }

  // ---------- what a tick means ----------

  // The comparison of the tick, written out.
  predicate HasCome(e: Entry, now: int) { e.nextRun.Some? && e.nextRun.value <= now }

  // Every call of the firing succeeds.
  predicate AllStored(item: Item, f: Firing)
  {
    && (if item.entry.kind == Once then f.status.Stored? else f.next.Some?)
    && f.nextIo.Stored? && f.insert.Stored? && f.mark.Stored?
  }

  // Published once, with its run record, and rescheduled or completed.
  ghost predicate FiredOnce(before: Tables, item: Item, f: Firing, after: Tables)
  {
    && (exists j :: PublishedAt(before, after, j) && after.published[j] == Publication(item.id, f.run, f.sent))
    && f.run in after.runs && after.runs[f.run] == Run(item.id, if f.sent then Success else Failed)
    && item.id in after.entries
    && (item.entry.kind == Once ==>
          after.entries[item.id].status == Completed && after.entries[item.id].nextRun == None)
    && (item.entry.kind == Recurring ==> after.entries[item.id].nextRun == f.next)
  }

  // j is a publication of this tick.
  predicate PublishedAt(before: Tables, after: Tables, j: int)
  {
    |before.published| <= j < |after.published|
  }

  // Publications of this tick: none twice, each of a listed entry whose time has come.
  ghost predicate FiresDue(before: Tables, items: seq<Item>, now: int, after: Tables)
  {
    && before.published <= after.published
    && (forall j :: PublishedAt(before, after, j) ==> IsListed(items, now, after.published[j].entry))
    && (forall j, k :: PublishedAt(before, after, j) && PublishedAt(before, after, k) && j != k ==>
          after.published[j].entry != after.published[k].entry)
    && (!(exists i :: 0 <= i < |items| && HasCome(items[i].entry, now)) ==> after == before)
  }

  ghost predicate IsListed(items: seq<Item>, now: int, id: EntryId)
  {
    exists i :: 0 <= i < |items| && items[i].id == id && HasCome(items[i].entry, now)
  }

  lemma {:induction false} TickedFiresDue(t: Tables, items: seq<Item>, now: int, env: nat -> Firing)
    requires Distinct(items)
    ensures FiresDue(t, items, now, Ticked(t, items, now, env))
  {
    if items == [] {
    } else {
      var n := |items| - 1;
      var before := Ticked(t, items[..n], now, env);
      TickedFiresDue(t, items[..n], now, env);
      DueStep(t, items, now, before, env(n));
    }
  }

  lemma DueStep(t: Tables, items: seq<Item>, now: int, before: Tables, f: Firing)
    requires items != [] && Distinct(items)
    requires FiresDue(t, items[..|items| - 1], now, before)
    ensures var item := items[|items| - 1];
            FiresDue(t, items, now, if Due(item.entry, now) then Fired(before, item, f) else before)
  {
    hide FiredRuns, FiredEntry;
    var n := |items| - 1;
    var item := items[n];
    var after := if Due(item.entry, now) then Fired(before, item, f) else before;
    assert after.published == before.published
        || after.published == before.published + [Publication(item.id, f.run, f.sent)];
    forall j | PublishedAt(t, after, j)
      ensures IsListed(items, now, after.published[j].entry)
      ensures j < |before.published| ==> after.published[j].entry != item.id
    {
      if j < |before.published| {
        assert PublishedAt(t, before, j);
        var i :| 0 <= i < n && items[..n][i].id == before.published[j].entry && HasCome(items[..n][i].entry, now);
        assert items[i].id == before.published[j].entry;
      } else {
        assert item.id == after.published[j].entry;
      }
    }
    forall j, k | PublishedAt(t, after, j) && PublishedAt(t, after, k) && j != k
      ensures after.published[j].entry != after.published[k].entry
    {
      if j < |before.published| && k < |before.published| {
        assert PublishedAt(t, before, j) && PublishedAt(t, before, k);
      }
    }
    if exists i :: 0 <= i < n && HasCome(items[..n][i].entry, now) {
      var i :| 0 <= i < n && HasCome(items[..n][i].entry, now);
      assert HasCome(items[i].entry, now);
    }
  }

  // A listed entry whose time has come, with every call succeeding.
  lemma {:induction false} TickedFires(t: Tables, items: seq<Item>, now: int, env: nat -> Firing, i: nat)
    requires Distinct(items) && FreshRuns(t.runs, env) && i < |items| && items[i].id in t.entries
    requires items[i].entry.nextRun.Some? && items[i].entry.nextRun.value <= now && AllStored(items[i], env(i))
    ensures FiredOnce(t, items[i], env(i), Ticked(t, items, now, env))
  {
    hide Distinct;
    var n := |items| - 1;
    var before := Ticked(t, items[..n], now, env);
    PrefixDistinct(items, n);
    TickedGrows(t, items[..n], now, env);
    if i == n {
      FiredFresh(t, before, items[n], env(n));
    } else {
      TickedFires(t, items[..n], now, env, i);
      if Due(items[n].entry, now) { FiredKeeps(t, before, items[i], env(i), items[n], env(n)); }
    }
  }

  lemma PrefixDistinct(items: seq<Item>, n: nat)
    requires Distinct(items) && n < |items|
    ensures Distinct(items[..n]) && forall i :: 0 <= i < n ==> items[i].id != items[n].id
  {}

  lemma {:induction false} TickedGrows(t: Tables, items: seq<Item>, now: int, env: nat -> Firing)
    ensures var after := Ticked(t, items, now, env);
            t.published <= after.published && t.entries.Keys <= after.entries.Keys
  {
    if items == [] {
    } else {
      TickedGrows(t, items[..|items| - 1], now, env);
    }
  }

  lemma FiredFresh(t: Tables, before: Tables, item: Item, f: Firing)
    requires t.published <= before.published && item.id in before.entries && AllStored(item, f)
    ensures FiredOnce(t, item, f, Fired(before, item, f))
  {
    var after := Fired(before, item, f);
    assert PublishedAt(t, after, |before.published|);
  }

  lemma FiredKeeps(t: Tables, before: Tables, item: Item, f: Firing, other: Item, g: Firing)
    requires FiredOnce(t, item, f, before) && other.id != item.id && g.run != f.run
    ensures FiredOnce(t, item, f, Fired(before, other, g))
  {
    hide FiredEntry;
    var after := Fired(before, other, g);
    var j :| PublishedAt(t, before, j) && before.published[j] == Publication(item.id, f.run, f.sent);
    assert PublishedAt(t, after, j) && after.published[j] == before.published[j];
    FiredOthers(before, other, g, f.run);
  }

  lemma FiredOthers(before: Tables, other: Item, g: Firing, run: RunId)
    requires g.run != run
    requires run in before.runs
    ensures var after := Fired(before, other, g); run in after.runs && after.runs[run] == before.runs[run]
  {}

  lemma TickStarts(s: State, items: seq<Item>, now: int)
    requires s.pc == Idle && Lists(items, s.entries)
    ensures Enabled(s, Step.Tick(items, now)) && After(s, Step.Tick(items, now)) == s.(pc := Scanning(items, now))
  {}

  lemma NextLooks(s: State, items: seq<Item>, i: nat, now: int)
    requires i <= |items| && s.pc == Scanning(items[i..], now)
    ensures Enabled(s, Next)
    ensures i == |items| ==> After(s, Next) == s.(pc := Idle)
    ensures i < |items| ==> After(s, Next) == s.(pc :=
      if !Due(items[i].entry, now) then Scanning(items[i + 1..], now)
      else Pc.Firing(items[i], if items[i].entry.kind == Once then Phase.SetStatus else SetNext, items[i + 1..], now))
  {
    assert i < |items| ==> items[i..][1..] == items[i + 1..];
  }

  lemma NothingTicked(t: Tables, now: int, env: nat -> Firing)
    ensures Ticked(t, [], now, env) == t
  {}

  lemma TickedStep(t: Tables, items: seq<Item>, now: int, env: nat -> Firing, i: nat)
    requires i < |items|
    ensures var before := Ticked(t, items[..i], now, env);
            Ticked(t, items[..i + 1], now, env)
            == if Due(items[i].entry, now) then Fired(before, items[i], env(i)) else before
  {
    assert items[..i + 1][..i] == items[..i];
  }

  // Listed, its time come, every call succeeding: fired.
  ghost predicate DueFired(before: Tables, items: seq<Item>, now: int, env: nat -> Firing, after: Tables)
  {
    forall i :: 0 <= i < |items| && HasCome(items[i].entry, now) && AllStored(items[i], env(i)) ==>
      FiredOnce(before, items[i], env(i), after)
  }

  lemma ListedFire(t: Tables, items: seq<Item>, now: int, env: nat -> Firing)
    requires Lists(items, t.entries) && FreshRuns(t.runs, env)
    ensures FiresDue(t, items, now, Ticked(t, items, now, env))
    ensures DueFired(t, items, now, env, Ticked(t, items, now, env))
  {
    hide Ticked, FiresDue, FiredOnce, AllStored;
    TickedFiresDue(t, items, now, env);
    forall i | 0 <= i < |items| && HasCome(items[i].entry, now) && AllStored(items[i], env(i))
      ensures FiredOnce(t, items[i], env(i), Ticked(t, items, now, env))
    {
      TickedFires(t, items, now, env, i);
    }
  }

  // A firing that fails before its publish publishes nothing; without its first update it leaves
  // the run records alone as well.
  lemma FiringStops(t: Tables, item: Item, f: Firing)
    requires !f.insert.Stored? || !f.nextIo.Stored? || (item.entry.kind == Once && !f.status.Stored?)
             || (item.entry.kind == Recurring && f.next.None?)
    ensures Fired(t, item, f).published == t.published
    ensures !f.nextIo.Stored? ==> Fired(t, item, f).runs == t.runs
  {}

  // ---------- the status tool ----------

  datatype Reply = Invalid | NotFound | NotAuthorized | StoreError | Updated

  datatype Change = Change(status: Io, next: Option<int>, nextIo: Io)

  // Only a deletion, and the resumption of a recurring entry that parses, touch the next run.
  predicate NextNeeded(e: Entry, status: Status, c: Change)
  {
    status == Deleted || (status == Active && e.kind == Recurring && c.next.Some?)
  }

  // The entry after cron_set_status got to its store calls.
  function Changed(e: Entry, status: Status, c: Change): Entry
  {
    Entry(
      e.kind,
      if !NextNeeded(e, status, c) || !c.status.Stored? || !c.nextIo.Applied() then e.nextRun
      else if status == Deleted then None
      else c.next,
      if c.status.Applied() then status else e.status)
  }

  // An accepted change: the status asked for; no next run after a deletion, the computed one after
  // resuming a recurring entry, otherwise the one it had.
  predicate AsAsked(e: Entry, status: Status, next: Option<int>, after: Entry)
  {
    && after.status == status && after.kind == e.kind
    && (status == Deleted ==> after.nextRun == None)
    && (status == Active && e.kind == Recurring && next.Some? ==> after.nextRun == next)
    && (status == Paused || (status == Active && e.kind == Once) ==> after.nextRun == e.nextRun)
  }

  lemma ChangedAsAsked(e: Entry, status: Status, c: Change)
    requires status != Completed && c.status.Stored? && (NextNeeded(e, status, c) ==> c.nextIo.Stored?)
    ensures AsAsked(e, status, c.next, Changed(e, status, c))
  {}

  lemma EntrySteps(s: State, id: EntryId, status: Status, next: int)
    requires id in s.entries && status != Completed
    ensures Enabled(s, ChangeStatus(id, status)) && After(s, ChangeStatus(id, status)) == WithStatus(s, id, status)
    ensures Enabled(s, ClearNext(id)) && After(s, ClearNext(id)) == WithNext(s, id, None)
    ensures s.entries[id].kind == Recurring ==>
      Enabled(s, Reschedule(id, next)) && After(s, Reschedule(id, next)) == WithNext(s, id, Some(next))
  {}

  // ---------- the service ----------

  class SchedulerService {
    var entries: map<EntryId, Entry>
    var runs: map<RunId, Run>
    var published: seq<Publication>
    ghost var pc: Pc
    ghost var trace: seq<Step>

    function Contents(): Tables
      reads this
    {
      Tables(entries, runs, published)
    }

    ghost function Here(): State
      reads this
    {
      State(entries, runs, published, pc)
    }

    // What the fields hold is where a run of the step system leads.
    ghost predicate Valid()
      reads this
    {
      Reached(Here())
    }

    ghost predicate Reached(s: State)
      reads this`trace
    {
      Possible(INITIAL, trace) && StateAfter(INITIAL, trace) == s
    }

    constructor ()
      ensures Valid() && pc == Idle && Contents() == Tables(map[], map[], [])
    {
      entries, runs, published, pc, trace := map[], map[], [], Idle, [];
    }

    // The fields have just been changed the way `step` changes them.
    ghost method Record(before: State, step: Step)
      requires Reached(before)
      requires Enabled(before, step)
      requires After(before, step) == Here().(pc := After(before, step).pc)
      modifies this`trace, this`pc
      ensures Valid() && pc == After(before, step).pc
    {
      hide Enabled, After, Possible, StateAfter;
      RunSnoc(INITIAL, trace, step);
      trace, pc := trace + [step], After(before, step).pc;
    }

    // ---------- the store and the transport ----------

    method UpdateCronStatus(id: EntryId, status: Status, io: Io) returns (ok: bool)
      modifies this`entries
      ensures ok == io.Stored? && Here() == if io.Applied() then WithStatus(old(Here()), id, status) else old(Here())
    {
      if io.Applied() && id in entries { entries := entries[id := entries[id].(status := status)]; }
      ok := io.Stored?;
    }

    method UpdateCronNextRun(id: EntryId, next: Option<int>, io: Io) returns (ok: bool)
      modifies this`entries
      ensures ok == io.Stored? && Here() == if io.Applied() then WithNext(old(Here()), id, next) else old(Here())
    {
      if io.Applied() && id in entries { entries := entries[id := entries[id].(nextRun := next)]; }
      ok := io.Stored?;
    }

    method InsertCronRun(id: EntryId, run: RunId, io: Io) returns (ok: bool)
      modifies this`runs
      ensures ok == io.Stored? && runs == if io.Applied() then old(runs)[run := Run(id, Running)] else old(runs)
    {
      if io.Applied() { runs := runs[run := Run(id, Running)]; }
      ok := io.Stored?;
    }

    method UpdateCronRun(run: RunId, status: RunStatus, io: Io)
      modifies this`runs
      ensures runs
           == if io.Applied() && run in old(runs) then old(runs)[run := old(runs)[run].(status := status)]
              else old(runs)
    {
      if io.Applied() && run in runs { runs := runs[run := runs[run].(status := status)]; }
    }

    // ---------- fireEntry ----------

    // Step 1: the entry's own state, before anything is published.
    method UpdateEntry(item: Item, f: Firing) returns (ok: bool)
      requires Valid() && pc.Firing? && pc.item == item
      requires pc.phase == if item.entry.kind == Once then Phase.SetStatus else SetNext
      modifies this`entries, this`trace, this`pc
      ensures Valid() && ok == InsertReached(item, f)
      ensures entries == Fired(old(Contents()), item, f).entries
      ensures pc == if ok then old(pc).(phase := InsertRun) else Scanning(old(pc).rest, old(pc).at)
    {
      hide Reached;
      ghost var s0 := Here();
      match item.entry.kind {
        case Once =>
          var stored := UpdateCronStatus(item.id, Completed, f.status);
          Record(s0, StatusStored(f.status));
          if !stored { return false; }
          ghost var s1 := Here();
          ok := UpdateCronNextRun(item.id, None, f.nextIo);
          Record(s1, NextStored(f.nextIo, 0));
        case Recurring =>
          if f.next.None? {
            Record(s0, NextStored(FailedLost, 0));
            return false;
          }
          ok := UpdateCronNextRun(item.id, f.next, f.nextIo);
          Record(s0, NextStored(f.nextIo, f.next.value));
      }
    }

    method FireEntry(item: Item, f: Firing)
      requires Valid() && pc.Firing? && pc.item == item && f.run !in runs
      requires pc.phase == if item.entry.kind == Once then Phase.SetStatus else SetNext
      modifies this
      ensures Valid() && pc == Scanning(old(pc).rest, old(pc).at)
      ensures Contents() == Fired(old(Contents()), item, f)
      ensures runs.Keys <= old(runs.Keys) + {f.run}
    {
      hide Reached, FiredEntry;
      var ok := UpdateEntry(item, f);
      if !ok { return; }
      ghost var s1 := Here();
      ok := InsertCronRun(item.id, f.run, f.insert);
      Record(s1, RunInserted(f.insert, f.run));
      if !ok { return; }
      PublishRun(item, f);
    }

    // Steps 4 and 5: publish, and mark the run.
    method PublishRun(item: Item, f: Firing)
      requires Valid() && pc.Firing? && pc.item == item && pc.phase == Publish(f.run)
      requires f.run in runs && runs[f.run] == Run(item.id, Running)
      modifies this
      ensures Valid() && pc == Scanning(old(pc).rest, old(pc).at) && entries == old(entries)
      ensures runs
           == if f.mark.Applied() then old(runs)[f.run := Run(item.id, if f.sent then Success else Failed)]
              else old(runs)
      ensures published == old(published) + [Publication(item.id, f.run, f.sent)]
    {
      hide Reached;
      ghost var s0 := Here();
      published := published + [Publication(item.id, f.run, f.sent)];
      Record(s0, Published(f.sent));
      ghost var s1 := Here();
      if !f.sent {
        UpdateCronRun(f.run, Failed, f.mark);
        Record(s1, RunMarked(f.mark));
        return;
      }
      UpdateCronRun(f.run, Success, f.mark);
      Record(s1, RunMarked(f.mark));
    }

    // ---------- tick ----------

    // One entry of the listing: fired if its time has come.
    method TickEntry(items: seq<Item>, i: nat, now: int, f: Firing)
      requires Valid() && i < |items| && pc == Scanning(items[i..], now) && f.run !in runs
      modifies this
      ensures Valid() && pc == Scanning(items[i + 1..], now)
      ensures Contents()
           == if Due(items[i].entry, now) then Fired(old(Contents()), items[i], f) else old(Contents())
      ensures runs.Keys <= old(runs.Keys) + {f.run}
    {
      hide Reached, Fired, After, Enabled;
      NextLooks(Here(), items, i, now);
      Record(Here(), Next);
      if items[i].entry.nextRun.None? || items[i].entry.nextRun.value > now { return; }
      FireEntry(items[i], f);
    }

    // listing: None when the store fails.
    method Tick(listing: Option<seq<Item>>, now: int, env: nat -> Firing)
      requires Valid() && pc == Idle && FreshRuns(runs, env)
      requires listing.Some? ==> Lists(listing.value, entries)
      modifies this
      ensures Valid() && pc == Idle
      ensures Contents() == if listing.None? then old(Contents()) else Ticked(old(Contents()), listing.value, now, env)
      ensures listing.Some? ==>
        && FiresDue(old(Contents()), listing.value, now, Contents())
        && DueFired(old(Contents()), listing.value, now, env, Contents())
    {
      if listing.Some? { ListedFire(old(Contents()), listing.value, now, env); }
      hide Reached, Fired, Lists, FiresDue, DueFired, Ticked, After, Enabled, Due;
      if listing.None? { return; }
      var items := listing.value;
      ghost var before := Contents();
      NothingTicked(before, now, env);
      assert items[..0] == [];
      TickStarts(Here(), items, now);
      Record(Here(), Step.Tick(items, now));
      assert items[0..] == items;
      for i := 0 to |items|
        invariant Valid() && pc == Scanning(items[i..], now)
        invariant Contents() == Ticked(before, items[..i], now, env)
        invariant forall k :: k >= i ==> env(k).run !in runs
      {
        TickedStep(before, items, now, env, i);
        TickEntry(items, i, now, env(i));
      }
      assert items[..|items|] == items;
      NextLooks(Here(), items, |items|, now);
      Record(Here(), Next);
    }

    // ---------- cron_set_status ----------

    // active, paused and deleted are the statuses a caller can ask for; owned: the entry belongs
    // to the caller; lookupFails: GetCronEntry fails.
    method SetCronStatus(id: EntryId, status: Option<Status>, lookupFails: bool, owned: bool, c: Change)
      returns (reply: Reply)
      requires Valid()
      modifies this`entries, this`trace, this`pc
      ensures Valid() && pc == old(pc)
      ensures reply == Invalid <==> status.None? || status == Some(Completed)
      ensures reply == NotFound <==> reply != Invalid && !lookupFails && id !in old(entries)
      ensures reply == NotAuthorized <==> reply != Invalid && !lookupFails && id in old(entries) && !owned
      ensures entries ==
        if status.None? || status == Some(Completed) || lookupFails || id !in old(entries) || !owned then old(entries)
        else old(entries)[id := Changed(old(entries)[id], status.value, c)]
      ensures reply == Updated <==>
        && status.Some? && status != Some(Completed) && !lookupFails && id in old(entries) && owned
        && c.status.Stored? && (NextNeeded(old(entries)[id], status.value, c) ==> c.nextIo.Stored?)
      ensures reply == Updated ==> id in entries && AsAsked(old(entries)[id], status.value, c.next, entries[id])
      ensures forall k :: k in old(entries) && k != id ==> k in entries && entries[k] == old(entries)[k]
    {
      hide Reached, AsAsked;
      if status.None? || status == Some(Completed) { return Invalid; }
      if lookupFails { return StoreError; }
      if id !in entries { return NotFound; }
      if !owned { return NotAuthorized; }
      var done := ChangeEntry(id, status.value, c);
      return if done then Updated else StoreError;
    }

    // The store calls, once the request is accepted.
    method ChangeEntry(id: EntryId, status: Status, c: Change) returns (done: bool)
      requires Valid() && id in entries && status != Completed
      modifies this`entries, this`trace, this`pc
      ensures Valid() && pc == old(pc)
      ensures entries == old(entries)[id := Changed(old(entries)[id], status, c)]
      ensures done <==> c.status.Stored? && (NextNeeded(old(entries)[id], status, c) ==> c.nextIo.Stored?)
      ensures done ==> AsAsked(old(entries)[id], status, c.next, entries[id])
    {
      hide Reached, After, Enabled, AsAsked;
      ghost var before := entries[id];
      if c.status.Stored? && (NextNeeded(before, status, c) ==> c.nextIo.Stored?) {
        ChangedAsAsked(before, status, c);
      }
      var kind := entries[id].kind;
      ghost var s0 := Here();
      EntrySteps(s0, id, status, 0);
      var ok := UpdateCronStatus(id, status, c.status);
      if c.status.Applied() { Record(s0, ChangeStatus(id, status)); }
      if !ok { return false; }
      ghost var s1 := Here();
      EntrySteps(s1, id, status, if c.next.Some? then c.next.value else 0);
      if status == Deleted {
        ok := UpdateCronNextRun(id, None, c.nextIo);
        if c.nextIo.Applied() { Record(s1, ClearNext(id)); }
        return ok;
      }
      if status == Active && kind == Recurring && c.next.Some? {
        ok := UpdateCronNextRun(id, c.next, c.nextIo);
        if c.nextIo.Applied() { Record(s1, Reschedule(id, c.next.value)); }
        return ok;
      }
      done := true;
    }

    method Create(id: EntryId, entry: Entry)
      requires Valid() && id !in entries
      modifies this`entries, this`trace, this`pc
      ensures Valid() && pc == old(pc) && entries == old(entries)[id := entry]
    {
      hide Reached;
      ghost var s0 := Here();
      entries := entries[id := entry];
      Record(s0, Step.Create(id, entry));
    }

    // No once entry is ever published twice, whatever calls were made.
    lemma AtMostOnce()
      requires Valid()
      ensures forall i, j :: 0 <= i < j < |published| && published[i].entry == published[j].entry ==>
        published[i].entry in entries && entries[published[i].entry].kind == Recurring
      ensures RunsOk(Here())
    {
      hide Possible, StateAfter, RunsOk;
      OncePublishedAtMostOnce(trace);
    }
  }
}
