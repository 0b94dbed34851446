/** The in-memory bus (pkg/plugins/transport/memory/plugin.go) as a step system. Publish checks
    `stopped` and sends in two steps; a send on a closed channel panics. A message is named by the
    call that publishes it. */
module Bus {

  type Topic = nat
  type CallId = nat

  datatype Outcome = Accepted | ErrStopped | ErrTopic | ErrContext | Panicked

  datatype PublishPc = Called | Checked | Returned(outcome: Outcome)

  datatype Call = Call(topic: Topic, pc: PublishPc)

  datatype Dispatcher =
    | NotStarted
    | Receiving
    | Delivering(msg: CallId, next: nat) // subscriber `next` is the next to be called
    | Exited

  datatype Queue = Queue(
    buffer: seq<CallId>,
    closed: bool,
    dispatcher: Dispatcher,
    accepted: seq<CallId>,        // messages of the calls that returned nil, in order
    delivered: seq<seq<CallId>>)  // per subscriber, the messages its handler was called with

  datatype Stopper = NotStopping | Closing(open: set<Topic>) | StopReturned

  datatype State = State(
    queues: map<Topic, Queue>,
    calls: map<CallId, Call>,
    started: bool,
    stopped: bool,
    stopper: Stopper,
    done: bool)

  datatype HandlerResult = NilError | SomeError | Panic

  datatype Step =
    | Subscribe(t: Topic)
    | Start
    | CallPublish(p: CallId, t: Topic)
    | CheckStopped(p: CallId)
    | Send(p: CallId)
    | CancelSend(p: CallId)
    | Receive(t: Topic)
    | Deliver(t: Topic, result: HandlerResult)
    | NextMessage(t: Topic)
    | ExitLoop(t: Topic)
    | CloseDone
    | CallStop
    | CloseQueue(t: Topic)
    | ReturnStop // done is closed, or the stop context is cancelled

  predicate Enabled(size: nat, s: State, step: Step)
  {
    match step
    case Subscribe(t) => true
    case Start => true
    case CallPublish(p, _) => p !in s.calls
    case CheckStopped(p) => p in s.calls && s.calls[p].pc.Called?
    case Send(p) =>
      p in s.calls && s.calls[p].pc.Checked? && s.calls[p].topic in s.queues
      && (s.queues[s.calls[p].topic].closed || |s.queues[s.calls[p].topic].buffer| < size)
    case CancelSend(p) => p in s.calls && s.calls[p].pc.Checked?
    case Receive(t) => t in s.queues && s.queues[t].dispatcher.Receiving? && s.queues[t].buffer != []
    case Deliver(t, _) =>
      t in s.queues && s.queues[t].dispatcher.Delivering? && s.queues[t].dispatcher.next < |s.queues[t].delivered|
    case NextMessage(t) =>
      t in s.queues && s.queues[t].dispatcher.Delivering? && s.queues[t].dispatcher.next >= |s.queues[t].delivered|
    case ExitLoop(t) =>
      t in s.queues && s.queues[t].dispatcher.Receiving? && s.queues[t].buffer == [] && s.queues[t].closed
    case CloseDone => s.started && !s.done && forall t :: t in s.queues ==> s.queues[t].dispatcher.Exited?
    case CallStop => true
    case CloseQueue(t) => s.stopper.Closing? && t in s.stopper.open && t in s.queues
    case ReturnStop => s.stopper.Closing? && s.stopper.open == {}
  }

  function WithQueue(s: State, t: Topic, q: Queue): State { s.(queues := s.queues[t := q]) }

  function WithOutcome(s: State, p: CallId, outcome: Outcome): State
    requires p in s.calls
  {
    s.(calls := s.calls[p := s.calls[p].(pc := Returned(outcome))])
  }

  function After(size: nat, s: State, step: Step): State
    requires Enabled(size, s, step)
  {
    match step
    case Subscribe(t) =>
      if s.started || t !in s.queues then s // an error
      else WithQueue(s, t, s.queues[t].(delivered := s.queues[t].delivered + [[]]))
    case Start =>
      if s.started then s // an error
      else s.(started := true, queues := map t | t in s.queues :: s.queues[t].(dispatcher := Receiving))
    case CallPublish(p, t) => s.(calls := s.calls[p := Call(t, Called)])
    case CheckStopped(p) =>
      if s.stopped then WithOutcome(s, p, ErrStopped)
      else if s.calls[p].topic !in s.queues then WithOutcome(s, p, ErrTopic)
      else s.(calls := s.calls[p := s.calls[p].(pc := Checked)])
    case Send(p) =>
      var t := s.calls[p].topic;
      var q := s.queues[t];
      if q.closed then WithOutcome(s, p, Panicked)
      else WithOutcome(WithQueue(s, t, q.(buffer := q.buffer + [p], accepted := q.accepted + [p])), p, Accepted)
    case CancelSend(p) => WithOutcome(s, p, ErrContext)
    case Receive(t) =>
      var q := s.queues[t];
      WithQueue(s, t, q.(buffer := q.buffer[1..], dispatcher := Delivering(q.buffer[0], 0)))
    case Deliver(t, _) => // errors are logged, panics recovered
      var q := s.queues[t];
      var Delivering(msg, k) := q.dispatcher;
      WithQueue(s, t, q.(delivered := q.delivered[k := q.delivered[k] + [msg]], dispatcher := Delivering(msg, k + 1)))
    case NextMessage(t) => WithQueue(s, t, s.queues[t].(dispatcher := Receiving))
    case ExitLoop(t) => WithQueue(s, t, s.queues[t].(dispatcher := Exited))
    case CloseDone => s.(done := true)
    case CallStop => if s.stopped then s else s.(stopped := true, stopper := Closing(s.queues.Keys))
    case CloseQueue(t) => WithQueue(s, t, s.queues[t].(closed := true)).(stopper := Closing(s.stopper.open - {t}))
    case ReturnStop => s.(stopper := StopReturned)
  }

  // ---------- the invariant of one queue ----------

  // Messages fully dispatched: all but the buffered ones and the one in hand.
  function DispatchedCount(q: Queue): int
  {
    |q.accepted| - |q.buffer| - if q.dispatcher.Delivering? then 1 else 0
  }

  // What subscriber k has been called with.
  function DeliveredCount(q: Queue, k: nat): int
  {
    DispatchedCount(q) + if q.dispatcher.Delivering? && k < q.dispatcher.next then 1 else 0
  }

  function InHand(q: Queue): seq<CallId>
  {
    if q.dispatcher.Delivering? then [q.dispatcher.msg] else []
  }

  ghost predicate QueueOk(size: nat, q: Queue)
  {
    && |q.buffer| <= size
    && 0 <= DispatchedCount(q)
    && q.accepted[DispatchedCount(q)..] == InHand(q) + q.buffer
    && (q.dispatcher.Delivering? ==> q.dispatcher.next <= |q.delivered|)
    && (forall k :: 0 <= k < |q.delivered| ==> q.delivered[k] == q.accepted[..DeliveredCount(q, k)])
    && (q.dispatcher.NotStarted? ==> DispatchedCount(q) == 0)
    && (q.dispatcher.Exited? ==> q.closed && q.buffer == [])
  }

  lemma SendKeepsQueue(size: nat, q: Queue, p: CallId)
    requires QueueOk(size, q) && !q.closed && |q.buffer| < size
    ensures QueueOk(size, q.(buffer := q.buffer + [p], accepted := q.accepted + [p]))
  {
    var q' := q.(buffer := q.buffer + [p], accepted := q.accepted + [p]);
    var d := DispatchedCount(q);
    assert q'.accepted[d..] == q.accepted[d..] + [p];
    assert InHand(q) + q.buffer + [p] == InHand(q) + (q.buffer + [p]);
    forall k | 0 <= k < |q.delivered| ensures q'.delivered[k] == q'.accepted[..DeliveredCount(q', k)] {
      assert q'.accepted[..DeliveredCount(q, k)] == q.accepted[..DeliveredCount(q, k)];
    }
  }

  lemma ReceiveKeepsQueue(size: nat, q: Queue)
    requires QueueOk(size, q) && q.dispatcher.Receiving? && q.buffer != []
    ensures QueueOk(size, q.(buffer := q.buffer[1..], dispatcher := Delivering(q.buffer[0], 0)))
  {
    var q' := q.(buffer := q.buffer[1..], dispatcher := Delivering(q.buffer[0], 0));
    assert DispatchedCount(q') == DispatchedCount(q);
    assert InHand(q') + q'.buffer == q.buffer == InHand(q) + q.buffer;
  }

  lemma DeliverKeepsQueue(size: nat, q: Queue)
    requires QueueOk(size, q) && q.dispatcher.Delivering? && q.dispatcher.next < |q.delivered|
    ensures var k := q.dispatcher.next;
            QueueOk(size, q.(delivered := q.delivered[k := q.delivered[k] + [q.dispatcher.msg]],
                             dispatcher := Delivering(q.dispatcher.msg, k + 1)))
  {
    var Delivering(msg, k) := q.dispatcher;
    var q' := q.(delivered := q.delivered[k := q.delivered[k] + [msg]], dispatcher := Delivering(msg, k + 1));
    var d := DispatchedCount(q);
    assert q.accepted[d..][0] == msg;
    assert q.accepted[..d + 1] == q.accepted[..d] + [msg];
    assert q'.delivered[k] == q'.accepted[..DeliveredCount(q', k)];
  }

  lemma NextKeepsQueue(size: nat, q: Queue)
    requires QueueOk(size, q) && q.dispatcher.Delivering? && q.dispatcher.next >= |q.delivered|
    ensures QueueOk(size, q.(dispatcher := Receiving))
  {
    var q' := q.(dispatcher := Receiving);
    TailAfter(q.accepted, DispatchedCount(q), q.dispatcher.msg, q.buffer);
    assert DispatchedCount(q') == DispatchedCount(q) + 1;
    assert InHand(q') + q'.buffer == q.buffer;
    forall k | 0 <= k < |q.delivered| ensures q'.delivered[k] == q'.accepted[..DeliveredCount(q', k)] {
      assert DeliveredCount(q', k) == DeliveredCount(q, k);
    }
  }

  lemma TailAfter(s: seq<CallId>, d: nat, x: CallId, t: seq<CallId>)
    requires d <= |s| && s[d..] == [x] + t
    ensures d < |s| && s[d + 1..] == t
  {
    assert |s| == d + 1 + |t|;
    forall i | 0 <= i < |t| ensures s[d + 1 + i] == t[i] {
      assert s[d + 1 + i] == s[d..][i + 1];
    }
  }

  lemma SubscribeKeepsQueue(size: nat, q: Queue)
    requires QueueOk(size, q) && q.dispatcher.NotStarted?
    ensures QueueOk(size, q.(delivered := q.delivered + [[]]))
  {
    assert q.accepted[..0] == [];
  }

  lemma FlagsKeepQueue(size: nat, q: Queue)
    requires QueueOk(size, q)
    ensures QueueOk(size, q.(closed := true))
    ensures q.dispatcher.NotStarted? ==> QueueOk(size, q.(dispatcher := Receiving))
    ensures q.dispatcher.Receiving? && q.buffer == [] && q.closed ==> QueueOk(size, q.(dispatcher := Exited))
  {}

  // ---------- the invariant of the bus ----------

  // accepted holds the calls that returned nil on this topic, once each.
  ghost predicate AcceptedOk(s: State, t: Topic)
    requires t in s.queues
  {
    var a := s.queues[t].accepted;
    && (forall p :: p in a <==> IsAccepted(s, p, t))
    && (forall i, j :: 0 <= i < j < |a| ==> a[i] != a[j])
  }

  ghost predicate FlagsOk(s: State)
  {
    && (forall t :: t in s.queues ==>
          && (!s.started <==> s.queues[t].dispatcher.NotStarted?)
          && (s.queues[t].closed ==> s.stopped)
          && (s.done ==> s.queues[t].dispatcher.Exited?))
    && (s.done ==> s.started)
    && (!s.stopper.NotStopping? ==> s.stopped)
    && (forall p :: p in s.calls && s.calls[p].pc == Returned(Panicked) ==> s.stopped)
    && (forall p :: p in s.calls && s.calls[p].pc.Checked? ==> s.calls[p].topic in s.queues)
  }

  ghost predicate Inv(size: nat, s: State)
  {
    && (forall t :: t in s.queues ==> QueueOk(size, s.queues[t]))
    && (forall t :: t in s.queues ==> AcceptedOk(s, t))
    && FlagsOk(s)
  }

  lemma PublisherQueuesKept(size: nat, s: State, step: Step, t: Topic)
    requires Enabled(size, s, step) && PublisherStep(step) && t in s.queues && QueueOk(size, s.queues[t])
    ensures t in After(size, s, step).queues && QueueOk(size, After(size, s, step).queues[t])
  {
    hide QueueOk, After;
    PublisherQueues(size, s, step);
    if step.Send? && s.calls[step.p].topic == t && !s.queues[t].closed {
      SendKeepsQueue(size, s.queues[t], step.p);
    }
  }

  lemma DispatchQueuesKept(size: nat, s: State, step: Step, t: Topic)
    requires Enabled(size, s, step) && DispatchStep(step) && t in s.queues && QueueOk(size, s.queues[t])
    ensures t in After(size, s, step).queues && QueueOk(size, After(size, s, step).queues[t])
  {
    hide QueueOk;
    var q := s.queues[t];
    FlagsKeepQueue(size, q);
    if step.t == t {
      match step
      case Receive(u) => ReceiveKeepsQueue(size, q);
      case Deliver(u, _) => DeliverKeepsQueue(size, q);
      case NextMessage(u) => NextKeepsQueue(size, q);
      case ExitLoop(_) =>
    }
  }

  lemma ControlQueuesKept(size: nat, s: State, step: Step, t: Topic)
    requires Enabled(size, s, step) && !PublisherStep(step) && !DispatchStep(step)
    requires t in s.queues && QueueOk(size, s.queues[t]) && (!s.started <==> s.queues[t].dispatcher.NotStarted?)
    ensures t in After(size, s, step).queues && QueueOk(size, After(size, s, step).queues[t])
  {
    hide QueueOk;
    FlagsKeepQueue(size, s.queues[t]);
    if !s.started { SubscribeKeepsQueue(size, s.queues[t]); }
  }

  lemma QueuesKept(size: nat, s: State, step: Step, t: Topic)
    requires Inv(size, s) && Enabled(size, s, step) && t in s.queues
    ensures t in After(size, s, step).queues && QueueOk(size, After(size, s, step).queues[t])
  {
    hide AcceptedOk, QueueOk, After, Enabled;
    if PublisherStep(step) {
      PublisherQueuesKept(size, s, step, t);
    } else if DispatchStep(step) {
      DispatchQueuesKept(size, s, step, t);
    } else {
      ControlQueuesKept(size, s, step, t);
    }
  }

  ghost predicate IsAccepted(s: State, p: CallId, t: Topic)
  {
    p in s.calls && s.calls[p] == Call(t, Returned(Accepted))
  }

  // Steps of a publisher, of a dispatch loop, and of the bus as a whole.
  predicate PublisherStep(step: Step) { step.CallPublish? || step.CheckStopped? || step.Send? || step.CancelSend? }

  predicate DispatchStep(step: Step) { step.Receive? || step.Deliver? || step.NextMessage? || step.ExitLoop? }

  lemma PublisherQueues(size: nat, s: State, step: Step)
    requires Enabled(size, s, step) && PublisherStep(step)
    ensures var s' := After(size, s, step);
            && s'.(queues := s.queues, calls := s.calls) == s
            && (if step.Send? && !s.queues[s.calls[step.p].topic].closed then
                  var t := s.calls[step.p].topic;
                  var q := s.queues[t];
                  && s'.queues == s.queues[t := q.(buffer := q.buffer + [step.p], accepted := q.accepted + [step.p])]
                  && s'.calls == s.calls[step.p := Call(t, Returned(Accepted))]
                else s'.queues == s.queues)
  {}

  lemma OtherCalls(size: nat, s: State, step: Step)
    requires Enabled(size, s, step) && !PublisherStep(step)
    ensures After(size, s, step).calls == s.calls
    ensures After(size, s, step).queues.Keys == s.queues.Keys
    ensures forall t :: t in s.queues ==> After(size, s, step).queues[t].accepted == s.queues[t].accepted
  {
    hide After, Enabled;
    if DispatchStep(step) { DispatchCalls(size, s, step); } else { ControlCalls(size, s, step); }
  }

  lemma DispatchCalls(size: nat, s: State, step: Step)
    requires Enabled(size, s, step) && DispatchStep(step)
    ensures After(size, s, step).calls == s.calls
    ensures After(size, s, step).queues.Keys == s.queues.Keys
    ensures forall t :: t in s.queues ==> After(size, s, step).queues[t].accepted == s.queues[t].accepted
  {}

  lemma ControlCalls(size: nat, s: State, step: Step)
    requires Enabled(size, s, step) && !PublisherStep(step) && !DispatchStep(step)
    ensures After(size, s, step).calls == s.calls
    ensures After(size, s, step).queues.Keys == s.queues.Keys
    ensures forall t :: t in s.queues ==> After(size, s, step).queues[t].accepted == s.queues[t].accepted
  {}

  // Only a send into an open channel makes a call accepted.
  lemma OthersAcceptNothing(size: nat, s: State, step: Step, t: Topic)
    requires Enabled(size, s, step) && t in After(size, s, step).queues && t in s.queues
    requires step.Send? ==> s.calls[step.p].topic != t || s.queues[t].closed
    ensures After(size, s, step).queues[t].accepted == s.queues[t].accepted
    ensures forall p :: IsAccepted(After(size, s, step), p, t) <==> IsAccepted(s, p, t)
  {
    if !PublisherStep(step) {
      hide After, Enabled;
      OtherCalls(size, s, step);
    }
  }

  lemma AcceptedKept(size: nat, s: State, step: Step, t: Topic)
    requires t in s.queues && AcceptedOk(s, t)
    requires Enabled(size, s, step) && t in After(size, s, step).queues
    ensures AcceptedOk(After(size, s, step), t)
  {
    var s' := After(size, s, step);
    if step.Send? && s.calls[step.p].topic == t && !s.queues[t].closed {
      SendAccepts(s, s', t, step.p);
    } else {
      hide After, Enabled;
      OthersAcceptNothing(size, s, step, t);
    }
  }

  lemma SendAccepts(s: State, s': State, t: Topic, p: CallId)
    requires t in s.queues && AcceptedOk(s, t) && t in s'.queues
    requires p in s.calls && s.calls[p] == Call(t, Checked)
    requires s'.queues[t].accepted == s.queues[t].accepted + [p]
    requires s'.calls == s.calls[p := Call(t, Returned(Accepted))]
    ensures AcceptedOk(s', t)
  {
    assert p !in s.queues[t].accepted;
    forall r ensures r in s'.queues[t].accepted <==> IsAccepted(s', r, t) {
      assert r in s.queues[t].accepted <==> IsAccepted(s, r, t);
    }
  }

  lemma FlagsKept(size: nat, s: State, step: Step)
    requires FlagsOk(s) && Enabled(size, s, step)
    ensures FlagsOk(After(size, s, step))
  {
    hide FlagsOk, After, Enabled;
    if PublisherStep(step) {
      PublisherFlags(size, s, step);
    } else if DispatchStep(step) {
      DispatchFlags(size, s, step);
    } else {
      ControlFlags(size, s, step);
    }
  }

  lemma PublisherFlags(size: nat, s: State, step: Step)
    requires FlagsOk(s) && Enabled(size, s, step) && PublisherStep(step)
    ensures FlagsOk(After(size, s, step))
  {}

  lemma DispatchFlags(size: nat, s: State, step: Step)
    requires FlagsOk(s) && Enabled(size, s, step) && DispatchStep(step)
    ensures FlagsOk(After(size, s, step))
  {}

  lemma ControlFlags(size: nat, s: State, step: Step)
    requires FlagsOk(s) && Enabled(size, s, step) && !PublisherStep(step) && !DispatchStep(step)
    ensures FlagsOk(After(size, s, step))
  {}

  lemma TopicsFixed(size: nat, s: State, step: Step)
    requires Enabled(size, s, step)
    ensures After(size, s, step).queues.Keys == s.queues.Keys
  {
    if !PublisherStep(step) {
      hide After, Enabled;
      OtherCalls(size, s, step);
    }
  }

  lemma StepKeeps(size: nat, s: State, step: Step)
    requires Inv(size, s) && Enabled(size, s, step)
    ensures Inv(size, After(size, s, step))
  {
    hide QueueOk, AcceptedOk, FlagsOk, After, Enabled;
    var s' := After(size, s, step);
    TopicsFixed(size, s, step);
    forall t | t in s'.queues ensures QueueOk(size, s'.queues[t]) && AcceptedOk(s', t) {
      assert t in s'.queues.Keys;
      QueuesKept(size, s, step, t);
      AcceptedKept(size, s, step, t);
    }
    FlagsKept(size, s, step);
  }

  // ---------- runs ----------

  // Init: empty channels for the given topics, no subscriber yet.
  function Initial(topics: set<Topic>): State
  {
    State(map t | t in topics :: Queue([], false, NotStarted, [], []), map[], false, false, NotStopping, false)
  }

  predicate Possible(size: nat, s: State, steps: seq<Step>)
    decreases |steps|
  {
    steps == [] || (Enabled(size, s, steps[0]) && Possible(size, After(size, s, steps[0]), steps[1..]))
  }

  function StateAfter(size: nat, s: State, steps: seq<Step>): State
    requires Possible(size, s, steps)
    decreases |steps|
  {
    if steps == [] then s else StateAfter(size, After(size, s, steps[0]), steps[1..])
  }

  lemma {:induction false} RunKeeps(size: nat, s: State, steps: seq<Step>)
    requires Inv(size, s) && Possible(size, s, steps)
    ensures Inv(size, StateAfter(size, s, steps))
    decreases |steps|
  {
    hide Inv, After, Enabled;
    if steps == [] {
    } else {
      StepKeeps(size, s, steps[0]);
      RunKeeps(size, After(size, s, steps[0]), steps[1..]);
    }
  }

  lemma InitialInv(size: nat, topics: set<Topic>)
    ensures Inv(size, Initial(topics))
  {}

  // What a queue promises in every reachable state: each subscriber has been called with a prefix
  // of the accepted messages, missing at most the buffered ones and the one in hand; with
  // everything, once done is closed.
  lemma DeliveredIsPrefix(size: nat, topics: set<Topic>, steps: seq<Step>, t: Topic, k: nat)
    requires Possible(size, Initial(topics), steps)
    requires t in StateAfter(size, Initial(topics), steps).queues
    requires k < |StateAfter(size, Initial(topics), steps).queues[t].delivered|
    ensures var s := StateAfter(size, Initial(topics), steps);
            var q := s.queues[t];
            && |q.buffer| <= size
            && q.delivered[k] <= q.accepted
            && |q.delivered[k]| >= |q.accepted| - |q.buffer| - 1
            && (s.done ==> q.delivered[k] == q.accepted)
  {
    hide Possible, AcceptedOk;
    InitialInv(size, topics);
    RunKeeps(size, Initial(topics), steps);
    var s := StateAfter(size, Initial(topics), steps);
    assert QueueOk(size, s.queues[t]);
  }

  // Accepted are exactly the calls that returned nil, once each; so no message reaches a
  // subscriber twice, and one whose publish failed or panicked reaches none.
  lemma DeliveredOnce(size: nat, topics: set<Topic>, steps: seq<Step>, t: Topic, k: nat)
    requires Possible(size, Initial(topics), steps)
    requires t in StateAfter(size, Initial(topics), steps).queues
    requires k < |StateAfter(size, Initial(topics), steps).queues[t].delivered|
    ensures var s := StateAfter(size, Initial(topics), steps);
            var seen := s.queues[t].delivered[k];
            && (forall i, j :: 0 <= i < j < |seen| ==> seen[i] != seen[j])
            && (forall p :: p in seen ==> IsAccepted(s, p, t))
  {
    hide Possible;
    InitialInv(size, topics);
    RunKeeps(size, Initial(topics), steps);
    var s := StateAfter(size, Initial(topics), steps);
    assert AcceptedOk(s, t) && QueueOk(size, s.queues[t]);
    var q := s.queues[t];
    assert forall p :: p in q.delivered[k] ==> p in q.accepted;
  }

  // A publish panics only once Stop has been called, ...
  lemma PanicMeansStopped(size: nat, topics: set<Topic>, steps: seq<Step>, p: CallId)
    requires Possible(size, Initial(topics), steps)
    requires var s := StateAfter(size, Initial(topics), steps);
             p in s.calls && s.calls[p].pc == Returned(Panicked)
    ensures StateAfter(size, Initial(topics), steps).stopped
  {
    hide Possible, QueueOk, AcceptedOk;
    InitialInv(size, topics);
    RunKeeps(size, Initial(topics), steps);
  }

  lemma Prepend(size: nat, s: State, step: Step, rest: seq<Step>)
    requires Enabled(size, s, step) && Possible(size, After(size, s, step), rest)
    ensures Possible(size, s, [step] + rest)
    ensures StateAfter(size, s, [step] + rest) == StateAfter(size, After(size, s, step), rest)
  {
    hide Enabled, After;
    assert ([step] + rest)[1..] == rest;
  }

  // ---------- which publishes can panic ----------

  // Once stopped, a queue is closed or about to be.
  ghost predicate StopOk(s: State)
  {
    s.stopped ==> forall t :: t in s.queues ==> s.queues[t].closed || (s.stopper.Closing? && t in s.stopper.open)
  }

  lemma StopKept(size: nat, s: State, step: Step)
    requires StopOk(s) && Enabled(size, s, step)
    ensures StopOk(After(size, s, step))
  {
    if PublisherStep(step) {
      hide After;
      PublisherQueues(size, s, step);
    }
  }

  lemma {:induction false} RunKeepsStop(size: nat, s: State, steps: seq<Step>)
    requires StopOk(s) && Possible(size, s, steps)
    ensures StopOk(StateAfter(size, s, steps))
    decreases |steps|
  {
    hide StopOk, After, Enabled;
    if steps == [] {
    } else {
      StopKept(size, s, steps[0]);
      RunKeepsStop(size, After(size, s, steps[0]), steps[1..]);
    }
  }

  predicate HasPanicked(s: State, p: CallId) { p in s.calls && s.calls[p].pc == Returned(Panicked) }

  // Past the stopped check, or still to reach it before Stop is called.
  predicate AtRisk(s: State, p: CallId)
  {
    if p in s.calls then
      match s.calls[p].pc
      case Called => !s.stopped && s.calls[p].topic in s.queues
      case Checked => true
      case Returned(outcome) => outcome == Panicked
    else !s.stopped && s.queues.Keys != {}
  }

  ghost predicate CanPanic(size: nat, s: State, p: CallId)
  {
    exists steps :: Possible(size, s, steps) && HasPanicked(StateAfter(size, s, steps), p)
  }

  lemma SafeKept(size: nat, s: State, step: Step, p: CallId)
    requires FlagsOk(s) && Enabled(size, s, step) && !AtRisk(s, p)
    ensures !AtRisk(After(size, s, step), p)
  {
    TopicsFixed(size, s, step);
    if !PublisherStep(step) {
      OtherCalls(size, s, step);
    }
  }

  lemma {:induction false} SafeForever(size: nat, s: State, steps: seq<Step>, p: CallId)
    requires FlagsOk(s) && !AtRisk(s, p) && Possible(size, s, steps)
    ensures !HasPanicked(StateAfter(size, s, steps), p)
    decreases |steps|
  {
    hide FlagsOk, After, Enabled;
    if steps == [] {
    } else {
      SafeKept(size, s, steps[0], p);
      FlagsKept(size, s, steps[0]);
      SafeForever(size, After(size, s, steps[0]), steps[1..], p);
    }
  }

  lemma CanPanicAfter(size: nat, s: State, step: Step, p: CallId)
    requires Enabled(size, s, step) && CanPanic(size, After(size, s, step), p)
    ensures CanPanic(size, s, p)
  {
    hide Enabled, After, Possible, StateAfter;
    var rest :| Possible(size, After(size, s, step), rest)
                && HasPanicked(StateAfter(size, After(size, s, step), rest), p);
    Prepend(size, s, step, rest);
  }

  lemma PanickedAlready(size: nat, s: State, p: CallId)
    requires HasPanicked(s, p)
    ensures CanPanic(size, s, p)
  {
    assert Possible(size, s, []) && StateAfter(size, s, []) == s;
  }

  // A send into a closed queue panics, and the others get closed.
  lemma CheckedCanPanic(size: nat, s: State, p: CallId)
    requires FlagsOk(s) && StopOk(s) && p in s.calls && s.calls[p].pc.Checked?
    ensures CanPanic(size, s, p)
  {
    hide CanPanic;
    var t := s.calls[p].topic;
    if s.queues[t].closed {
      PanickedAlready(size, After(size, s, Send(p)), p);
      CanPanicAfter(size, s, Send(p), p);
    } else {
      var s1 := if s.stopped then s else After(size, s, CallStop);
      var s2 := After(size, s1, CloseQueue(t));
      PanickedAlready(size, After(size, s2, Send(p)), p);
      CanPanicAfter(size, s2, Send(p), p);
      CanPanicAfter(size, s1, CloseQueue(t), p);
      if !s.stopped { CanPanicAfter(size, s, CallStop, p); }
    }
  }

  lemma AtRiskCanPanic(size: nat, s: State, p: CallId)
    requires FlagsOk(s) && StopOk(s) && AtRisk(s, p)
    ensures CanPanic(size, s, p)
  {
    hide CanPanic, FlagsOk, StopOk;
    if HasPanicked(s, p) {
      PanickedAlready(size, s, p);
    } else if p in s.calls {
      CalledCanPanic(size, s, p);
    } else {
      var t :| t in s.queues.Keys;
      var step := CallPublish(p, t);
      FlagsKept(size, s, step);
      StopKept(size, s, step);
      CalledCanPanic(size, After(size, s, step), p);
      CanPanicAfter(size, s, step, p);
    }
  }

  lemma CalledCanPanic(size: nat, s: State, p: CallId)
    requires FlagsOk(s) && StopOk(s) && AtRisk(s, p) && p in s.calls && !HasPanicked(s, p)
    ensures CanPanic(size, s, p)
  {
    hide CanPanic, FlagsOk, StopOk;
    if s.calls[p].pc.Checked? {
      CheckedCanPanic(size, s, p);
    } else {
      var step := CheckStopped(p);
      FlagsKept(size, s, step);
      StopKept(size, s, step);
      CheckedCanPanic(size, After(size, s, step), p);
      CanPanicAfter(size, s, step, p);
    }
  }

  // In every reachable state: a publish can still panic exactly if it is past the stopped check,
  // or Stop has not been called yet and it names, or will name, a topic of the bus. Once stopped,
  // a call that has not passed the check never panics.
  lemma PanicExactly(size: nat, topics: set<Topic>, steps: seq<Step>, p: CallId)
    requires Possible(size, Initial(topics), steps)
    ensures var s := StateAfter(size, Initial(topics), steps); CanPanic(size, s, p) <==> AtRisk(s, p)
  {
    hide Possible, QueueOk, AcceptedOk, FlagsOk, StopOk, AtRisk;
    var s := StateAfter(size, Initial(topics), steps);
    InitialInv(size, topics);
    assert StopOk(Initial(topics)) by { NotStopped(topics); }
    RunKeeps(size, Initial(topics), steps);
    RunKeepsStop(size, Initial(topics), steps);
    if AtRisk(s, p) {
      AtRiskCanPanic(size, s, p);
    } else if CanPanic(size, s, p) {
      var more :| Possible(size, s, more) && HasPanicked(StateAfter(size, s, more), p);
      SafeForever(size, s, more, p);
      assert false;
    }
  }

  lemma NotStopped(topics: set<Topic>)
    ensures StopOk(Initial(topics))
  {}

  // ... and then it can: the check comes before Stop, the send after the channel is closed.
  lemma PanicCanHappen(size: nat, t: Topic, p: CallId)
    ensures exists steps ::
              && Possible(size, Initial({t}), steps)
              && var s := StateAfter(size, Initial({t}), steps);
                 p in s.calls && s.calls[p].pc == Returned(Panicked)
  {
    hide QueueOk, AcceptedOk;
    var s := Initial({t});
    InitialInv(size, {t});
    NotStopped({t});
    assert t in s.queues.Keys;
    AtRiskCanPanic(size, s, p);
    var steps :| Possible(size, s, steps) && HasPanicked(StateAfter(size, s, steps), p);
  }

  // ---------- draining ----------

  // After its channel is closed, a dispatch loop can always go on until it has exited.
  lemma DrainNotStuck(size: nat, s: State, t: Topic) returns (step: Step)
    requires Inv(size, s) && s.started && t in s.queues && s.queues[t].closed && !s.queues[t].dispatcher.Exited?
    ensures Enabled(size, s, step) && DispatchStep(step) && step.t == t
  {
    hide QueueOk, AcceptedOk;
    var q := s.queues[t];
    match q.dispatcher
    case Receiving => step := if q.buffer == [] then ExitLoop(t) else Receive(t);
    case Delivering(_, k) => step := if k < |q.delivered| then Deliver(t, NilError) else NextMessage(t);
  }

  // Work left on a queue.
  function Backlog(q: Queue): nat
  {
    (|q.delivered| + 2) * |q.buffer| +
    match q.dispatcher
    case Delivering(_, k) => 2 + (if k < |q.delivered| then |q.delivered| - k else 0)
    case Exited => 0
    case _ => 1
  }

  // Every dispatch step leaves less of it, and nothing else adds to a closed queue: the drain ends.
  lemma DrainEnds(size: nat, s: State, step: Step, t: Topic)
    requires Inv(size, s) && Enabled(size, s, step) && s.started && t in s.queues && s.queues[t].closed
    ensures var q, q' := s.queues[t], After(size, s, step).queues[t];
            && q'.closed
            && (if DispatchStep(step) && step.t == t then Backlog(q') < Backlog(q) else q' == q)
  {
    hide QueueOk, AcceptedOk;
    if step == Receive(t) {
      var q := s.queues[t];
      assert (|q.delivered| + 2) * |q.buffer| == (|q.delivered| + 2) * (|q.buffer| - 1) + |q.delivered| + 2;
    }
  }

  // ---------- subscribers are called ----------

  // A subscription to a known topic before Start is recorded, behind the others; any other is an
  // error that changes nothing.
  lemma SubscribeRecorded(size: nat, s: State, t: Topic)
    ensures var s' := After(size, s, Subscribe(t));
      if !s.started && t in s.queues
      then t in s'.queues && s'.queues[t].delivered == s.queues[t].delivered + [[]]
      else s' == s
  {}

  // And no subscriber is ever lost.
  lemma {:induction false} SubscribersStay(size: nat, s: State, steps: seq<Step>, t: Topic)
    requires Possible(size, s, steps) && t in s.queues
    ensures var s' := StateAfter(size, s, steps);
            t in s'.queues && |s'.queues[t].delivered| >= |s.queues[t].delivered|
    decreases |steps|
  {
    hide After, Enabled;
    if steps == [] {
    } else {
      SubscribersKept(size, s, steps[0], t);
      SubscribersStay(size, After(size, s, steps[0]), steps[1..], t);
    }
  }

  lemma SubscribersKept(size: nat, s: State, step: Step, t: Topic)
    requires Enabled(size, s, step) && t in s.queues
    ensures var s' := After(size, s, step);
            t in s'.queues && |s'.queues[t].delivered| >= |s.queues[t].delivered|
  {
    if PublisherStep(step) {
      hide After;
      PublisherQueues(size, s, step);
    }
  }

  // So a handler subscribed before Start has been called with every accepted message, in order,
  // when done closes.
  lemma SubscriberGetsAll(size: nat, topics: set<Topic>, before: seq<Step>, after: seq<Step>, t: Topic)
    requires Possible(size, Initial(topics), before)
    requires var s := StateAfter(size, Initial(topics), before); !s.started && t in s.queues
    requires var s := StateAfter(size, Initial(topics), before);
             Possible(size, After(size, s, Subscribe(t)), after)
    ensures var s := StateAfter(size, Initial(topics), before);
            var end := StateAfter(size, After(size, s, Subscribe(t)), after);
            var k := |s.queues[t].delivered|;
            t in end.queues && k < |end.queues[t].delivered|
            && (end.done ==> end.queues[t].delivered[k] == end.queues[t].accepted)
  {
    hide Possible, StateAfter, After, QueueOk, AcceptedOk, FlagsOk;
    var s := StateAfter(size, Initial(topics), before);
    var s1 := After(size, s, Subscribe(t));
    SubscribeRecorded(size, s, t);
    InitialInv(size, topics);
    RunKeeps(size, Initial(topics), before);
    StepKeeps(size, s, Subscribe(t));
    RunKeeps(size, s1, after);
    SubscribersStay(size, s1, after, t);
    if StateAfter(size, s1, after).done {
      DoneMeansAll(size, StateAfter(size, s1, after), t, |s.queues[t].delivered|);
    }
  }

  lemma DoneMeansAll(size: nat, s: State, t: Topic, k: nat)
    requires Inv(size, s) && t in s.queues && k < |s.queues[t].delivered| && s.done
    ensures s.queues[t].delivered[k] == s.queues[t].accepted
  {
    hide AcceptedOk;
    assert QueueOk(size, s.queues[t]);
  }

  // ---------- messages get through ----------

  // A publish to an open topic with room is accepted by its own steps.
  lemma PublishGetsThrough(size: nat, s: State, p: CallId, t: Topic) returns (steps: seq<Step>)
    requires !s.stopped && p !in s.calls && t in s.queues && !s.queues[t].closed && |s.queues[t].buffer| < size
    ensures Possible(size, s, steps)
    ensures var s' := StateAfter(size, s, steps);
      && p in s'.calls && s'.calls[p] == Call(t, Returned(Accepted)) && t in s'.queues
      && s'.queues[t].accepted == s.queues[t].accepted + [p] && s'.queues[t].buffer == s.queues[t].buffer + [p]
  {
    hide Possible, StateAfter;
    var s1 := After(size, s, CallPublish(p, t));
    var s2 := After(size, s1, CheckStopped(p));
    var s3 := After(size, s2, Send(p));
    Nothing(size, s3);
    Prepend(size, s2, Send(p), []);
    Prepend(size, s1, CheckStopped(p), [Send(p)] + []);
    Prepend(size, s, CallPublish(p, t), [CheckStopped(p)] + ([Send(p)] + []));
    steps := [CallPublish(p, t)] + ([CheckStopped(p)] + ([Send(p)] + []));
  }

  lemma Nothing(size: nat, s: State)
    ensures Possible(size, s, []) && StateAfter(size, s, []) == s
  {}

  // Start lets every dispatch loop receive.
  lemma StartOpens(size: nat, s: State, t: Topic)
    requires !s.started && t in s.queues
    ensures var s' := After(size, s, Start); t in s'.queues && s'.started && s'.queues[t].dispatcher.Receiving?
  {}

  // A loop with the message in hand calls the remaining handlers one after the other.
  lemma {:induction false} HandlersCalled(size: nat, s: State, t: Topic) returns (steps: seq<Step>)
    requires t in s.queues && s.queues[t].dispatcher.Delivering?
    requires s.queues[t].dispatcher.next <= |s.queues[t].delivered|
    ensures Possible(size, s, steps)
    ensures var s' := StateAfter(size, s, steps);
            var q := s.queues[t];
            && t in s'.queues && s'.queues[t] == q.(dispatcher := Receiving, delivered := s'.queues[t].delivered)
            && CalledFrom(q.delivered, q.dispatcher.next, q.dispatcher.msg, s'.queues[t].delivered)
    decreases |s.queues[t].delivered| - s.queues[t].dispatcher.next
  {
    hide Possible, StateAfter;
    var q := s.queues[t];
    var Delivering(msg, k) := q.dispatcher;
    if k == |q.delivered| {
      Nothing(size, After(size, s, NextMessage(t)));
      Prepend(size, s, NextMessage(t), []);
      steps := [NextMessage(t)] + [];
    } else {
      var step := Deliver(t, NilError);
      var s1 := After(size, s, step);
      var rest := HandlersCalled(size, s1, t);
      Prepend(size, s, step, rest);
      steps := [step] + rest;
    }
  }

  // The handlers from k on have one message more.
  ghost predicate CalledFrom(before: seq<seq<CallId>>, k: nat, msg: CallId, after: seq<seq<CallId>>)
  {
    && |after| == |before|
    && forall i :: 0 <= i < |before| ==> after[i] == if i >= k then before[i] + [msg] else before[i]
  }

  // The next buffered message reaches every handler, by steps of the dispatch loop alone.
  lemma NextGetsDelivered(size: nat, s: State, t: Topic) returns (steps: seq<Step>)
    requires t in s.queues && s.queues[t].dispatcher.Receiving? && s.queues[t].buffer != []
    ensures Possible(size, s, steps)
    ensures var s' := StateAfter(size, s, steps);
            var q := s.queues[t];
            && t in s'.queues && s'.queues[t].dispatcher.Receiving? && s'.queues[t].buffer == q.buffer[1..]
            && CalledFrom(q.delivered, 0, q.buffer[0], s'.queues[t].delivered)
  {
    hide Possible, StateAfter, CalledFrom;
    var rest := HandlersCalled(size, After(size, s, Receive(t)), t);
    Prepend(size, s, Receive(t), rest);
    steps := [Receive(t)] + rest;
  }
}
