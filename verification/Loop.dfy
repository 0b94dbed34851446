/** Loop.Handle and Loop.Shutdown (internal/domain/service/loop/loop.go) as a step system: the
    draining flag, the counting semaphore and the mutex per chat, under any interleaving. */
module Loop {

  type HandlerId = nat
  type ChatId = nat

  datatype Pc =
    | Arrived   // Handle called
    | Admitted  // past the draining check, waiting for a slot
    | HasSlot   // waiting for the chat's mutex
    | Running   // in runTurn
    | Unlocked  // mutex released, slot still held
    | Gone

  datatype Handler = Handler(chat: ChatId, pc: Pc)

  datatype Shutdown =
    | NotCalled
    | Filling(held: nat)   // slots reclaimed so far
    | Drained(held: nat)   // returned nil
    | Abandoned(held: nat) // its context was cancelled

  datatype State = State(
    handlers: map<HandlerId, Handler>,
    slots: nat,                    // tokens in the semaphore channel
    locked: map<ChatId, HandlerId>, // session mutexes that are held
    draining: bool,
    shutdown: Shutdown)

  datatype Step =
    | Arrive(h: HandlerId, chat: ChatId)
    | CheckDraining(h: HandlerId)
    | TakeSlot(h: HandlerId)
    | GiveUp(h: HandlerId)      // context done while waiting for a slot
    | Lock(h: HandlerId)
    | EndTurn(h: HandlerId)     // runTurn returns, the mutex is unlocked
    | ReleaseSlot(h: HandlerId)
    | CallShutdown
    | FillSlot
    | ReturnNil
    | CancelShutdown

  predicate In(s: State, h: HandlerId, pc: Pc) { h in s.handlers && s.handlers[h].pc == pc }

  function Held(sd: Shutdown): nat { if sd.NotCalled? then 0 else sd.held }

  predicate Enabled(workers: nat, s: State, step: Step)
  {
    match step
    case Arrive(h, _) => h !in s.handlers
    case CheckDraining(h) => In(s, h, Arrived)
    case TakeSlot(h) => In(s, h, Admitted) && s.slots < workers
    case GiveUp(h) => In(s, h, Admitted)
    case Lock(h) => In(s, h, HasSlot) && s.handlers[h].chat !in s.locked
    case EndTurn(h) => In(s, h, Running)
    case ReleaseSlot(h) => In(s, h, Unlocked)
    case CallShutdown => s.shutdown.NotCalled?
    case FillSlot => s.shutdown.Filling? && s.shutdown.held < workers && s.slots < workers
    case ReturnNil => s.shutdown.Filling? && s.shutdown.held >= workers
    case CancelShutdown => s.shutdown.Filling? && s.shutdown.held < workers
  }

  function Move(s: State, h: HandlerId, pc: Pc): State
    requires h in s.handlers
  {
    s.(handlers := s.handlers[h := s.handlers[h].(pc := pc)])
  }

  function After(workers: nat, s: State, step: Step): State
    requires Enabled(workers, s, step)
  {
    match step
    case Arrive(h, chat) => s.(handlers := s.handlers[h := Handler(chat, Arrived)])
    case CheckDraining(h) => Move(s, h, if s.draining then Gone else Admitted)
    case TakeSlot(h) => Move(s, h, HasSlot).(slots := s.slots + 1)
    case GiveUp(h) => Move(s, h, Gone)
    case Lock(h) => Move(s, h, Running).(locked := s.locked[s.handlers[h].chat := h])
    case EndTurn(h) => Move(s, h, Unlocked).(locked := s.locked - {s.handlers[h].chat})
    case ReleaseSlot(h) => Move(s, h, Gone).(slots := if s.slots > 0 then s.slots - 1 else 0)
    case CallShutdown => s.(draining := true, shutdown := Filling(0))
    case FillSlot => s.(slots := s.slots + 1, shutdown := Filling(s.shutdown.held + 1))
    case ReturnNil => s.(shutdown := Drained(s.shutdown.held))
    case CancelShutdown => s.(shutdown := Abandoned(s.shutdown.held))
  }

  // ---------- the invariant ----------

  predicate HoldsSlot(pc: Pc) { pc.HasSlot? || pc.Running? || pc.Unlocked? }

  function Holders(s: State): set<HandlerId>
  {
    set h | h in s.handlers && HoldsSlot(s.handlers[h].pc)
  }

  ghost predicate SlotsOk(workers: nat, s: State)
  {
    && s.slots == |Holders(s)| + Held(s.shutdown)
    && s.slots <= workers
    && (s.shutdown.Drained? ==> s.shutdown.held == workers)
    && (!s.shutdown.NotCalled? ==> s.draining)
  }

  ghost predicate MutexOk(s: State)
  {
    && (forall h :: In(s, h, Running) ==> s.handlers[h].chat in s.locked && s.locked[s.handlers[h].chat] == h)
    && (forall c :: c in s.locked ==> In(s, s.locked[c], Running) && s.handlers[s.locked[c]].chat == c)
  }

  ghost predicate Inv(workers: nat, s: State) { SlotsOk(workers, s) && MutexOk(s) }

  // How a handler's move changes the number of slot holders, and nothing else does.
  lemma HoldersMove(s: State, s': State, h: HandlerId, pc: Pc)
    requires h in s.handlers && s'.handlers == Move(s, h, pc).handlers
    ensures |Holders(s')| == |Holders(s)| + (if HoldsSlot(pc) then 1 else 0)
                                          - (if HoldsSlot(s.handlers[h].pc) then 1 else 0)
  {
    forall k ensures k in Holders(s') <==> if k == h then HoldsSlot(pc) else k in Holders(s) {
      assert k in s'.handlers <==> k in s.handlers;
      assert k != h && k in s.handlers ==> s'.handlers[k] == s.handlers[k];
    }
    if HoldsSlot(pc) == HoldsSlot(s.handlers[h].pc) {
      assert Holders(s') == Holders(s);
    } else if HoldsSlot(pc) {
      assert Holders(s') == Holders(s) + {h};
    } else {
      assert Holders(s') == Holders(s) - {h};
    }
  }

  lemma HoldersSame(s: State, s': State)
    requires s'.handlers == s.handlers
             || exists h: HandlerId, chat: ChatId ::
                  h !in s.handlers && s'.handlers == s.handlers[h := Handler(chat, Arrived)]
    ensures Holders(s') == Holders(s)
  {}

  function SlotChange(step: Step): int
  {
    if step.TakeSlot? then 1 else if step.ReleaseSlot? then -1 else 0
  }

  lemma HoldersChange(workers: nat, s: State, step: Step)
    requires Enabled(workers, s, step)
    ensures |Holders(After(workers, s, step))| == |Holders(s)| + SlotChange(step)
  {
    hide Holders;
    var s' := After(workers, s, step);
    match step
    case CheckDraining(h) => HoldersMove(s, s', h, if s.draining then Gone else Admitted);
    case TakeSlot(h) => HoldersMove(s, s', h, HasSlot);
    case GiveUp(h) => HoldersMove(s, s', h, Gone);
    case Lock(h) => HoldersMove(s, s', h, Running);
    case EndTurn(h) => HoldersMove(s, s', h, Unlocked);
    case ReleaseSlot(h) => HoldersMove(s, s', h, Gone);
    case Arrive(h, chat) => HoldersSame(s, s');
    case _ => HoldersSame(s, s');
  }

  lemma SlotsKept(workers: nat, s: State, step: Step)
    requires SlotsOk(workers, s) && Enabled(workers, s, step)
    ensures SlotsOk(workers, After(workers, s, step))
  {
    hide Holders;
    HoldersChange(workers, s, step);
  }

  lemma MutexKept(workers: nat, s: State, step: Step)
    requires MutexOk(s) && Enabled(workers, s, step)
    ensures MutexOk(After(workers, s, step))
  {}

  // ---------- runs ----------

  const INITIAL := State(map[], 0, map[], false, NotCalled)

  predicate Possible(workers: nat, s: State, steps: seq<Step>)
    decreases |steps|
  {
    steps == [] || (Enabled(workers, s, steps[0]) && Possible(workers, After(workers, s, steps[0]), steps[1..]))
  }

  function StateAfter(workers: nat, s: State, steps: seq<Step>): State
    requires Possible(workers, s, steps)
    decreases |steps|
  {
    if steps == [] then s else StateAfter(workers, After(workers, s, steps[0]), steps[1..])
  }

  lemma {:induction false} RunKeeps(workers: nat, s: State, steps: seq<Step>)
    requires Inv(workers, s) && Possible(workers, s, steps)
    ensures Inv(workers, StateAfter(workers, s, steps))
    decreases |steps|
  {
    hide SlotsOk, MutexOk, After, Enabled;
    if steps == [] {
    } else {
      SlotsKept(workers, s, steps[0]);
      MutexKept(workers, s, steps[0]);
      RunKeeps(workers, After(workers, s, steps[0]), steps[1..]);
    }
  }

  // Bounded concurrency and one turn per chat, in every reachable state.
  lemma TurnsBounded(workers: nat, steps: seq<Step>)
    requires Possible(workers, INITIAL, steps)
    ensures var s := StateAfter(workers, INITIAL, steps);
            && |Holders(s)| + Held(s.shutdown) == s.slots <= workers
            && forall h, k ::
                 In(s, h, Running) && In(s, k, Running) && s.handlers[h].chat == s.handlers[k].chat ==> h == k
  {
    assert Holders(INITIAL) == {};
    RunKeeps(workers, INITIAL, steps);
  }

  // Whoever holds a slot can move, or waits for someone who can: slot-then-mutex cannot deadlock.
  lemma HolderCanStep(workers: nat, s: State, h: HandlerId) returns (step: Step)
    requires Inv(workers, s) && h in Holders(s)
    ensures Enabled(workers, s, step)
    ensures (step.Lock? || step.EndTurn? || step.ReleaseSlot?) && step.h in Holders(s)
    ensures step.h != h ==> In(s, step.h, Running) && s.handlers[step.h].chat == s.handlers[h].chat
  {
    match s.handlers[h].pc
    case HasSlot =>
      var chat := s.handlers[h].chat;
      if chat in s.locked {
        step := EndTurn(s.locked[chat]);
      } else {
        step := Lock(h);
      }
    case Running => step := EndTurn(h);
    case Unlocked => step := ReleaseSlot(h);
  }

  // A waiting Shutdown can take a slot, or some handler still holds one (and can move).
  lemma ShutdownNotStuck(workers: nat, s: State)
    requires Inv(workers, s) && s.shutdown.Filling? && s.shutdown.held < workers
    ensures Enabled(workers, s, FillSlot) || Holders(s) != {}
  {}

  // ---------- after Shutdown ----------

  // Once Shutdown has returned nil, no turn is running ...
  lemma DrainedIsIdle(workers: nat, s: State)
    requires Inv(workers, s) && s.shutdown.Drained?
    ensures Holders(s) == {} && forall h :: !In(s, h, Running)
  {
    hide MutexOk;
    assert |Holders(s)| == 0;
    assert forall h :: In(s, h, Running) ==> h in Holders(s);
  }

  // ... and none ever starts.
  lemma {:induction false} DrainedForever(workers: nat, s: State, steps: seq<Step>)
    requires Inv(workers, s) && s.shutdown.Drained? && Possible(workers, s, steps)
    ensures var s' := StateAfter(workers, s, steps);
            s'.shutdown.Drained? && Holders(s') == {} && forall h :: !In(s', h, Running)
    decreases |steps|
  {
    hide Inv, Holders;
    if steps == [] {
      DrainedIsIdle(workers, s);
    } else {
      var s1 := After(workers, s, steps[0]);
      OneStep(workers, s, steps[0]);
      DrainedForever(workers, s1, steps[1..]);
    }
  }

  lemma OneStep(workers: nat, s: State, step: Step)
    requires Inv(workers, s) && Enabled(workers, s, step)
    ensures Inv(workers, After(workers, s, step))
  {
    hide SlotsOk, MutexOk, After, Enabled;
    SlotsKept(workers, s, step);
    MutexKept(workers, s, step);
  }

  // A message that arrives once draining is set is dropped: its handler never gets anywhere.
  lemma {:induction false} DroppedWhileDraining(workers: nat, s: State, steps: seq<Step>, h: HandlerId)
    requires s.draining && Possible(workers, s, steps)
    requires h !in s.handlers || In(s, h, Arrived) || In(s, h, Gone)
    ensures var s' := StateAfter(workers, s, steps);
            s'.draining && (h !in s'.handlers || In(s', h, Arrived) || In(s', h, Gone))
    decreases |steps|
  {
    if steps == [] {
    } else {
      DroppedWhileDraining(workers, After(workers, s, steps[0]), steps[1..], h);
    }
  }

  // ---------- messages are handled ----------

  // A step of handler h alone.
  predicate Own(step: Step, h: HandlerId)
  {
    match step
    case Arrive(k, _) => k == h
    case CheckDraining(k) => k == h
    case TakeSlot(k) => k == h
    case GiveUp(k) => k == h
    case Lock(k) => k == h
    case EndTurn(k) => k == h
    case ReleaseSlot(k) => k == h
    case _ => false
  }

  ghost predicate OwnRun(workers: nat, s: State, steps: seq<Step>, h: HandlerId)
  {
    Possible(workers, s, steps) && forall i :: 0 <= i < |steps| ==> Own(steps[i], h)
  }

  // While not draining, the check lets every message through; while draining, none.
  lemma CheckAdmits(workers: nat, s: State, h: HandlerId)
    requires In(s, h, Arrived)
    ensures Enabled(workers, s, CheckDraining(h))
    ensures !s.draining ==> In(After(workers, s, CheckDraining(h)), h, Admitted)
    ensures s.draining ==> In(After(workers, s, CheckDraining(h)), h, Gone)
  {}

  lemma OneOwn(workers: nat, s: State, step: Step, h: HandlerId)
    requires Enabled(workers, s, step) && Own(step, h)
    ensures OwnRun(workers, s, [step], h) && StateAfter(workers, s, [step]) == After(workers, s, step)
  {
    hide After, Enabled;
    assert [step][1..] == [];
    assert Possible(workers, After(workers, s, step), []);
  }

  lemma MoreOwn(workers: nat, s: State, step: Step, rest: seq<Step>, h: HandlerId)
    requires Enabled(workers, s, step) && Own(step, h) && OwnRun(workers, After(workers, s, step), rest, h)
    ensures OwnRun(workers, s, [step] + rest, h)
    ensures StateAfter(workers, s, [step] + rest) == StateAfter(workers, After(workers, s, step), rest)
  {
    hide After, Enabled;
    assert ([step] + rest)[1..] == rest;
  }

  // A message that finds a free slot and its chat unlocked gets its turn by its own steps.
  lemma TurnStarts(workers: nat, s: State, h: HandlerId) returns (steps: seq<Step>)
    requires Inv(workers, s) && !s.draining && In(s, h, Arrived)
    requires s.slots < workers && s.handlers[h].chat !in s.locked
    ensures OwnRun(workers, s, steps, h)
    ensures var s' := StateAfter(workers, s, steps);
      && In(s', h, Running) && s'.handlers[h].chat == s.handlers[h].chat
      && s'.slots == s.slots + 1 && s'.locked == s.locked[s.handlers[h].chat := h]
  {
    hide OwnRun, Possible, StateAfter, Inv;
    var s1 := After(workers, s, CheckDraining(h));
    var s2 := After(workers, s1, TakeSlot(h));
    OneOwn(workers, s2, Lock(h), h);
    MoreOwn(workers, s1, TakeSlot(h), [Lock(h)], h);
    MoreOwn(workers, s, CheckDraining(h), [TakeSlot(h)] + [Lock(h)], h);
    steps := [CheckDraining(h)] + ([TakeSlot(h)] + [Lock(h)]);
  }

  // A running turn gives mutex and slot back by its own steps.
  lemma TurnEnds(workers: nat, s: State, h: HandlerId) returns (steps: seq<Step>)
    requires Inv(workers, s) && In(s, h, Running)
    ensures OwnRun(workers, s, steps, h)
    ensures var s' := StateAfter(workers, s, steps);
      && In(s', h, Gone) && s'.slots == s.slots - 1
      && s'.locked == s.locked - {s.handlers[h].chat} && s.handlers[h].chat in s.locked
  {
    hide OwnRun, Possible, StateAfter;
    assert h in Holders(s);
    var s1 := After(workers, s, EndTurn(h));
    OneOwn(workers, s1, ReleaseSlot(h), h);
    MoreOwn(workers, s, EndTurn(h), [ReleaseSlot(h)], h);
    steps := [EndTurn(h)] + [ReleaseSlot(h)];
  }

  // Once called, and with no slot held by a handler, Shutdown returns nil by its own steps.
  lemma {:induction false} ShutdownReturns(workers: nat, s: State) returns (steps: seq<Step>)
    requires Inv(workers, s) && s.shutdown.Filling? && Holders(s) == {} && s.shutdown.held <= workers
    ensures Possible(workers, s, steps) && StateAfter(workers, s, steps).shutdown.Drained?
    ensures forall i :: 0 <= i < |steps| ==> steps[i].FillSlot? || steps[i].ReturnNil?
    decreases workers - s.shutdown.held
  {
    hide MutexOk;
    if s.shutdown.held == workers {
      steps := [ReturnNil];
      assert steps[1..] == [];
      assert Possible(workers, After(workers, s, ReturnNil), []);
    } else {
      var s1 := After(workers, s, FillSlot);
      OneStep(workers, s, FillSlot);
      assert Holders(s1) == Holders(s);
      var rest := ShutdownReturns(workers, s1);
      steps := [FillSlot] + rest;
      assert steps[1..] == rest;
    }
  }
}
