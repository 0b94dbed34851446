/** The poll loop (internal/domain/service/scheduler/scheduler.go) as a step system: every store
    call and the publish are steps of their own, each may fail, and the status tool and restarts
    interleave anywhere. */
module Scheduler {
  import opened Messages

  type EntryId = nat
  type RunId = nat

  datatype Kind = Once | Recurring

  datatype Status = Active | Paused | Completed | Deleted

  // nextRun in seconds.
  datatype Entry = Entry(kind: Kind, nextRun: Option<int>, status: Status)

  datatype RunStatus = Running | Success | Failed

  datatype Run = Run(entry: EntryId, status: RunStatus)

  // One call of Publish, and whether it returned nil.
  datatype Publication = Publication(entry: EntryId, run: RunId, ok: bool)

  datatype Item = Item(id: EntryId, entry: Entry) // a row of the tick's listing

  // Where fireEntry stands.
  datatype Phase =
    | SetStatus             // once: about to mark completed
    | SetNext               // about to store the next run (once: none)
    | InsertRun
    | Publish(run: RunId)
    | MarkRun(run: RunId, ok: bool)

  datatype Pc =
    | Idle
    | Scanning(todo: seq<Item>, now: int)
    | Firing(item: Item, phase: Phase, rest: seq<Item>, at: int)

  datatype State = State(
    entries: map<EntryId, Entry>,
    runs: map<RunId, Run>,
    published: seq<Publication>,
    pc: Pc)

  // A store call that fails may still have taken effect.
  datatype Io = Stored | FailedApplied | FailedLost
  {
    predicate Applied() { !FailedLost? }
  }

  datatype Step =
    | Tick(listing: seq<Item>, now: int)
    | Next                                  // look at the head of the listing
    | StatusStored(io: Io)
    | NextStored(io: Io, next: int)         // next: what NextAfter gives a recurring entry
    | RunInserted(io: Io, run: RunId)
    | Published(ok: bool)
    | RunMarked(io: Io)
    | Restart
    | Create(id: EntryId, entry: Entry)     // cron_create
    | ChangeStatus(id: EntryId, status: Status) // cron_set_status: UpdateCronStatus
    | ClearNext(id: EntryId)                // cron_set_status: delete
    | Reschedule(id: EntryId, next: int)    // cron_set_status: resume, recurring entries only

  // ---------- steps ----------

  ghost predicate Distinct(items: seq<Item>)
  {
    forall i, j :: 0 <= i < j < |items| ==> items[i].id != items[j].id
  }

  // ListActiveCronEntries: every active entry once, in some order.
  ghost predicate Lists(items: seq<Item>, entries: map<EntryId, Entry>)
  {
    && Distinct(items)
    && (forall i :: 0 <= i < |items| ==>
          items[i].id in entries && items[i].entry == entries[items[i].id] && items[i].entry.status == Active)
    && (forall id :: id in entries && entries[id].status == Active ==>
          exists i :: 0 <= i < |items| && items[i].id == id)
  }

  predicate Due(e: Entry, now: int)
  {
    e.nextRun.Some? && e.nextRun.value <= now
  }

  predicate At(s: State, phase: Phase) { s.pc.Firing? && s.pc.phase == phase }

  ghost predicate Enabled(s: State, step: Step)
  {
    match step
    case Tick(listing, _) => s.pc.Idle? && Lists(listing, s.entries)
    case Next => s.pc.Scanning?
    case StatusStored(_) => At(s, SetStatus)
    case NextStored(_, _) => At(s, SetNext)
    case RunInserted(_, run) => At(s, InsertRun) && run !in s.runs
    case Published(_) => s.pc.Firing? && s.pc.phase.Publish?
    case RunMarked(_) => s.pc.Firing? && s.pc.phase.MarkRun?
    case Restart => true
    case Create(id, _) => id !in s.entries
    case ChangeStatus(id, status) => id in s.entries && status != Completed
    case ClearNext(id) => id in s.entries
    case Reschedule(id, _) => id in s.entries && s.entries[id].kind == Recurring
  }

  function WithStatus(s: State, id: EntryId, status: Status): State
  {
    if id in s.entries then s.(entries := s.entries[id := s.entries[id].(status := status)]) else s
  }

  function WithNext(s: State, id: EntryId, next: Option<int>): State
  {
    if id in s.entries then s.(entries := s.entries[id := s.entries[id].(nextRun := next)]) else s
  }

  // Done with this entry: on to the rest of the listing.
  function Resume(s: State): State
    requires s.pc.Firing?
  {
    s.(pc := Scanning(s.pc.rest, s.pc.at))
  }

  function Enter(s: State, phase: Phase): State
    requires s.pc.Firing?
  {
    s.(pc := s.pc.(phase := phase))
  }

  ghost function After(s: State, step: Step): State
    requires Enabled(s, step)
  {
    match step
    case Tick(listing, now) => s.(pc := Scanning(listing, now))
    case Next =>
      var todo, now := s.pc.todo, s.pc.now;
      if todo == [] then s.(pc := Idle)
      else if !Due(todo[0].entry, now) then s.(pc := Scanning(todo[1..], now))
      else s.(pc := Firing(todo[0], if todo[0].entry.kind == Once then SetStatus else SetNext, todo[1..], now))
    case StatusStored(io) =>
      var s1 := if io.Applied() then WithStatus(s, s.pc.item.id, Completed) else s;
      if io.Stored? then Enter(s1, SetNext) else Resume(s1)
    case NextStored(io, next) =>
      var stored := if s.pc.item.entry.kind == Once then None else Some(next);
      var s1 := if io.Applied() then WithNext(s, s.pc.item.id, stored) else s;
      if io.Stored? then Enter(s1, InsertRun) else Resume(s1)
    case RunInserted(io, run) =>
      var s1 := if io.Applied() then s.(runs := s.runs[run := Run(s.pc.item.id, Running)]) else s;
      if io.Stored? then Enter(s1, Publish(run)) else Resume(s1)
    case Published(ok) =>
      var run := s.pc.phase.run;
      Enter(s.(published := s.published + [Publication(s.pc.item.id, run, ok)]), MarkRun(run, ok))
    case RunMarked(io) =>
      var run := s.pc.phase.run;
      var status := if s.pc.phase.ok then Success else Failed;
      Resume(if io.Applied() && run in s.runs then s.(runs := s.runs[run := s.runs[run].(status := status)]) else s)
    case Restart => s.(pc := Idle)
    case Create(id, entry) => s.(entries := s.entries[id := entry])
    case ChangeStatus(id, status) => WithStatus(s, id, status)
    case ClearNext(id) => WithNext(s, id, None)
    case Reschedule(id, next) => WithNext(s, id, Some(next))
  }

  // ---------- once means at most once ----------

  ghost predicate WasPublished(s: State, id: EntryId)
  {
    exists i :: 0 <= i < |s.published| && s.published[i].entry == id
  }

  function Ahead(s: State): seq<Item>
  {
    match s.pc
    case Idle => []
    case Scanning(todo, _) => todo
    case Firing(_, _, rest, _) => rest
  }

  // The listing in hand: distinct known entries, of the kind the table has.
  ghost predicate ListingOk(s: State)
  {
    && Distinct(Ahead(s))
    && (forall i :: 0 <= i < |Ahead(s)| ==>
          Ahead(s)[i].id in s.entries && s.entries[Ahead(s)[i].id].kind == Ahead(s)[i].entry.kind)
    && (s.pc.Firing? ==>
          && s.pc.item.id in s.entries && s.entries[s.pc.item.id].kind == s.pc.item.entry.kind
          && forall i :: 0 <= i < |s.pc.rest| ==> s.pc.rest[i].id != s.pc.item.id)
  }

  // A once entry that is past its publish can never become due again.
  ghost predicate OnceOk(s: State, id: EntryId)
  {
    id in s.entries && s.entries[id].kind == Once ==>
      && (WasPublished(s, id) ==>
            && s.entries[id].nextRun == None
            && (forall i :: 0 <= i < |Ahead(s)| && Ahead(s)[i].id == id ==> Ahead(s)[i].entry.nextRun == None)
            && (s.pc.Firing? && s.pc.item.id == id ==> s.pc.phase.MarkRun?))
      && (s.pc.Firing? && s.pc.item.id == id && (s.pc.phase.InsertRun? || s.pc.phase.Publish?) ==>
            s.entries[id].nextRun == None)
      && (forall i, j :: 0 <= i < j < |s.published| ==> !(s.published[i].entry == id && s.published[j].entry == id))
  }

  ghost predicate PublishedKnown(s: State)
  {
    forall i :: 0 <= i < |s.published| ==> s.published[i].entry in s.entries
  }

  ghost predicate OnceInv(s: State)
  {
    ListingOk(s) && PublishedKnown(s) && forall id :: OnceOk(s, id)
  }

  lemma ListingKept(s: State, step: Step)
    requires ListingOk(s) && PublishedKnown(s) && Enabled(s, step)
    ensures ListingOk(After(s, step)) && PublishedKnown(After(s, step))
  {
    hide Lists;
    match step
    case Tick(_, _) => TickLists(s, step);
    case Next => NextLists(s, step);
    case _ =>
  }

  lemma TickLists(s: State, step: Step)
    requires PublishedKnown(s) && Enabled(s, step) && step.Tick?
    ensures ListingOk(After(s, step)) && PublishedKnown(After(s, step))
  {}

  lemma NextLists(s: State, step: Step)
    requires ListingOk(s) && PublishedKnown(s) && Enabled(s, step) && step.Next?
    ensures ListingOk(After(s, step)) && PublishedKnown(After(s, step))
  {}

  lemma OnceKept(s: State, step: Step, id: EntryId)
    requires OnceInv(s) && Enabled(s, step)
    ensures OnceOk(After(s, step), id)
  {
    hide Lists;
    assert OnceOk(s, id);
    match step
    case Tick(_, _) => TickKeepsOnce(s, step, id);
    case Published(_) => PublishKeepsOnce(s, step, id);
    case _ =>
      assert After(s, step).published == s.published;
      assert WasPublished(After(s, step), id) <==> WasPublished(s, id);
  }

  lemma TickKeepsOnce(s: State, step: Step, id: EntryId)
    requires OnceInv(s) && Enabled(s, step) && step.Tick?
    ensures OnceOk(After(s, step), id)
  {
    assert OnceOk(s, id);
  }

  lemma PublishKeepsOnce(s: State, step: Step, id: EntryId)
    requires OnceInv(s) && Enabled(s, step) && step.Published?
    ensures OnceOk(After(s, step), id)
  {
    var s' := After(s, step);
    var n := |s.published|;
    assert OnceOk(s, id);
    assert s'.published[n].entry == s.pc.item.id;
    assert forall i :: 0 <= i < n ==> s'.published[i] == s.published[i];
    assert id != s.pc.item.id && WasPublished(s', id) ==> WasPublished(s, id);
    if id == s.pc.item.id && id in s.entries && s.entries[id].kind == Once {
      assert !WasPublished(s, id);
    }
  }

  // ---------- run records ----------

  ghost predicate RunsOk(s: State)
  {
    // every publish has its own run record, of the same entry
    && (forall i :: 0 <= i < |s.published| ==>
          s.published[i].run in s.runs && s.runs[s.published[i].run].entry == s.published[i].entry)
    && (forall i, j :: 0 <= i < j < |s.published| ==> s.published[i].run != s.published[j].run)
    // success only after a publish that returned nil
    && (forall r :: r in s.runs && s.runs[r].status == Success ==>
          exists i :: 0 <= i < |s.published| && s.published[i].run == r && s.published[i].ok)
    // what fireEntry has in hand
    && (s.pc.Firing? && s.pc.phase.Publish? ==>
          && s.pc.phase.run in s.runs && s.runs[s.pc.phase.run] == Run(s.pc.item.id, Running)
          && forall i :: 0 <= i < |s.published| ==> s.published[i].run != s.pc.phase.run)
    && (s.pc.Firing? && s.pc.phase.MarkRun? ==>
          exists i :: 0 <= i < |s.published|
            && s.published[i] == Publication(s.pc.item.id, s.pc.phase.run, s.pc.phase.ok))
  }

  lemma RunsKept(s: State, step: Step)
    requires RunsOk(s) && Enabled(s, step)
    ensures RunsOk(After(s, step))
  {
    hide Lists;
    match step
    case Published(_) => PublishKeepsRuns(s, step);
    case RunMarked(_) => MarkKeepsRuns(s, step);
    case _ =>
      assert After(s, step).published == s.published;
  }

  lemma PublishKeepsRuns(s: State, step: Step)
    requires RunsOk(s) && Enabled(s, step) && step.Published?
    ensures RunsOk(After(s, step))
  {
    var s' := After(s, step);
    var n := |s.published|;
    assert forall i :: 0 <= i < n ==> s'.published[i] == s.published[i];
    assert s'.published[n] == Publication(s.pc.item.id, s.pc.phase.run, step.ok);
    forall r | r in s'.runs && s'.runs[r].status == Success
      ensures exists i :: 0 <= i < |s'.published| && s'.published[i].run == r && s'.published[i].ok
    {
      var i :| 0 <= i < n && s.published[i].run == r && s.published[i].ok;
      assert s'.published[i].run == r;
    }
  }

  lemma MarkKeepsRuns(s: State, step: Step)
    requires RunsOk(s) && Enabled(s, step) && step.RunMarked?
    ensures RunsOk(After(s, step))
  {
    var s' := After(s, step);
    assert s'.published == s.published;
  }

  // ---------- runs of the system ----------

  const INITIAL := State(map[], map[], [], Idle)

  ghost predicate Possible(s: State, steps: seq<Step>)
    decreases |steps|
  {
    steps == [] || (Enabled(s, steps[0]) && Possible(After(s, steps[0]), steps[1..]))
  }

  ghost function StateAfter(s: State, steps: seq<Step>): State
    requires Possible(s, steps)
    decreases |steps|
  {
    if steps == [] then s else StateAfter(After(s, steps[0]), steps[1..])
  }

  lemma {:induction false} RunKeeps(s: State, steps: seq<Step>)
    requires OnceInv(s) && RunsOk(s) && Possible(s, steps)
    ensures OnceInv(StateAfter(s, steps)) && RunsOk(StateAfter(s, steps))
    decreases |steps|
  {
    hide OnceOk, ListingOk, PublishedKnown, RunsOk, After, Enabled;
    if steps == [] {
    } else {
      var s1 := After(s, steps[0]);
      ListingKept(s, steps[0]);
      forall id ensures OnceOk(s1, id) { OnceKept(s, steps[0], id); }
      RunsKept(s, steps[0]);
      RunKeeps(s1, steps[1..]);
    }
  }

  // Over every interleaving of ticks, failing store calls, status changes and restarts: a once
  // entry is published at most once, and every publish has its run record.
  lemma OncePublishedAtMostOnce(steps: seq<Step>)
    requires Possible(INITIAL, steps)
    ensures var s := StateAfter(INITIAL, steps);
            && (forall i, j :: 0 <= i < j < |s.published| && s.published[i].entry == s.published[j].entry ==>
                  s.published[i].entry in s.entries && s.entries[s.published[i].entry].kind == Recurring)
            && RunsOk(s)
  {
    RunKeeps(INITIAL, steps);
    var s := StateAfter(INITIAL, steps);
    forall i, j | 0 <= i < j < |s.published| && s.published[i].entry == s.published[j].entry
      ensures s.published[i].entry in s.entries && s.entries[s.published[i].entry].kind == Recurring
    {
      assert OnceOk(s, s.published[i].entry);
    }
  }
}
