/** Background compaction as a step system: appends, single-flight launches, and jobs that read
    the summary, read the history and save in separate steps. */
module Conservation {
  import opened Messages
  import opened History
  import opened Compaction

  type ConvId = nat
  type JobId = nat

  // A stored summary, with the messages it was written from.
  datatype Saved = Saved(boundary: MessageId, batch: seq<Message>)

  datatype Phase =
    | Launched
    | SummaryRead(prior: MessageId)
    | HistoryRead(prior: MessageId, prefix: seq<Message>, batch: seq<Message>)
    | Done

  datatype Job = Job(conv: ConvId, latest: MessageId, phase: Phase)

  datatype State = State(
    logs: map<ConvId, seq<Message>>,       // messages in store order: created_at, then id
    summaries: map<ConvId, seq<Saved>>,    // oldest first
    inFlight: set<ConvId>,                 // Loop.compactions
    jobs: map<JobId, Job>)                 // running Compact goroutines

  function Log(s: State, c: ConvId): seq<Message> { if c in s.logs then s.logs[c] else [] }

  function Sums(s: State, c: ConvId): seq<Saved> { if c in s.summaries then s.summaries[c] else [] }

  function Boundary(s: State, c: ConvId): MessageId
  {
    var sums := Sums(s, c);
    if sums == [] then EMPTY_ID else sums[|sums| - 1].boundary
  }

  function Batches(sums: seq<Saved>): (b: seq<seq<Message>>)
    ensures |b| == |sums|
  {
    seq(|sums|, i requires 0 <= i < |sums| => sums[i].batch)
  }

  // All messages handed to a summary so far, in order.
  function Summarised(s: State, c: ConvId): seq<Message> { Flatten(Batches(Sums(s, c))) }

  // The live history the prompt builder works on.
  function Live(s: State, c: ConvId): seq<Message> { AfterBoundary(Log(s, c), Boundary(s, c)) }

  // No message lost, none summarised twice, order kept.
  ghost predicate Conserved(s: State, c: ConvId)
  {
    Summarised(s, c) + Live(s, c) == Log(s, c)
  }

  // ---------- steps ----------

  ghost predicate IsStored(log: seq<Message>, id: MessageId)
  {
    exists i :: 0 <= i < |log| && log[i].id == id
  }

  // The creation second, which for a message without one is that of Go's zero time.
  function Created(m: Message): int
  {
    if m.createdAt.Some? then m.createdAt.value else -62135596800
  }

  // ORDER BY created_at, id
  predicate StoredBefore(x: Message, m: Message)
  {
    Created(x) < Created(m) || (Created(x) == Created(m) && x.id < m.id)
  }

  function Earlier(log: seq<Message>, m: Message): seq<Message>
  {
    if log == [] then []
    else Earlier(log[..|log| - 1], m) + if StoredBefore(log[|log| - 1], m) then [log[|log| - 1]] else []
  }

  function Later(log: seq<Message>, m: Message): seq<Message>
  {
    if log == [] then []
    else Later(log[..|log| - 1], m) + if StoredBefore(log[|log| - 1], m) then [] else [log[|log| - 1]]
  }

  // SaveMessage: insert or ignore, read back in store order.
  ghost function Insert(log: seq<Message>, m: Message): seq<Message>
  {
    if IsStored(log, m.id) then log else Earlier(log, m) + [m] + Later(log, m)
  }

  datatype Step =
    | Append(conv: ConvId, m: Message)
    | Launch(job: JobId, conv: ConvId, latest: MessageId)
    | ReadSummary(job: JobId)
    | ReadHistory(job: JobId)
    | Save(job: JobId)
    | Finish(job: JobId) // return from Compact, after an error at any point or at the end

  predicate Enabled(s: State, step: Step)
  {
    match step
    case Append(_, m) => m.id != EMPTY_ID
    case Launch(j, _, _) => j !in s.jobs
    case ReadSummary(j) => j in s.jobs && s.jobs[j].phase.Launched?
    case ReadHistory(j) => j in s.jobs && s.jobs[j].phase.SummaryRead?
    case Save(j) => j in s.jobs && s.jobs[j].phase.HistoryRead? && s.jobs[j].phase.batch != []
    case Finish(j) => j in s.jobs
  }

  ghost function After(preserve: int, s: State, step: Step): State
    requires Enabled(s, step)
  {
    match step
    case Append(c, m) => s.(logs := s.logs[c := Insert(Log(s, c), m)])
    case Launch(j, c, latest) =>
      if c in s.inFlight then s // LoadOrStore finds a running compaction
      else s.(inFlight := s.inFlight + {c}, jobs := s.jobs[j := Job(c, latest, Launched)])
    case ReadSummary(j) =>
      var job := s.jobs[j];
      s.(jobs := s.jobs[j := job.(phase := SummaryRead(Boundary(s, job.conv)))])
    case ReadHistory(j) =>
      var job := s.jobs[j];
      var prior, log := job.phase.prior, Log(s, job.conv);
      s.(jobs := s.jobs[j := job.(phase :=
        HistoryRead(prior, UpTo(log, job.latest), Batch(log, job.latest, prior, preserve)))])
    case Save(j) =>
      var job := s.jobs[j];
      var batch := job.phase.batch;
      s.(summaries := s.summaries[job.conv := Sums(s, job.conv) + [Saved(LastId(batch), batch)]],
         jobs := s.jobs[j := job.(phase := Done)])
    case Finish(j) =>
      s.(inFlight := s.inFlight - {s.jobs[j].conv}, jobs := s.jobs - {j})
  }

  // The hypothesis: an appended ID lies above the boundary, stored or about to be stored.
  ghost predicate Pending(s: State, c: ConvId, j: JobId)
  {
    j in s.jobs && s.jobs[j].conv == c && s.jobs[j].phase.HistoryRead? && s.jobs[j].phase.batch != []
  }

  ghost predicate AboveBoundary(s: State, step: Step)
  {
    step.Append? && !IsStored(Log(s, step.conv), step.m.id) ==>
      && step.m.id > Boundary(s, step.conv)
      && forall j :: Pending(s, step.conv, j) ==> step.m.id > LastId(s.jobs[j].phase.batch)
  }

  // The other hypothesis: IDs and creation seconds do not disagree on the order of two messages.
  ghost predicate Agrees(log: seq<Message>, m: Message)
  {
    forall i :: 0 <= i < |log| ==>
      && (log[i].id < m.id ==> Created(log[i]) <= Created(m))
      && (log[i].id > m.id ==> Created(m) <= Created(log[i]))
  }

  ghost predicate InOrder(s: State, step: Step)
  {
    && AboveBoundary(s, step)
    && (step.Append? && !IsStored(Log(s, step.conv), step.m.id) ==> Agrees(Log(s, step.conv), step.m))
  }

  // ---------- single flight ----------

  // One job per conversation, and what it read as the latest boundary still is.
  ghost predicate SingleFlight(s: State)
  {
    && (forall j :: j in s.jobs ==> s.jobs[j].conv in s.inFlight)
    && (forall j, k :: j in s.jobs && k in s.jobs && s.jobs[j].conv == s.jobs[k].conv ==> j == k)
    && (forall j :: j in s.jobs && (s.jobs[j].phase.SummaryRead? || s.jobs[j].phase.HistoryRead?) ==>
          s.jobs[j].phase.prior == Boundary(s, s.jobs[j].conv))
  }

  lemma SingleFlightKept(preserve: int, s: State, step: Step)
    requires SingleFlight(s) && Enabled(s, step)
    ensures SingleFlight(After(preserve, s, step))
  {
    hide UpTo, Insert, Batch, LastId;
  }

  // ---------- conservation ----------

  ghost predicate Chained(sums: seq<Saved>)
  {
    && (forall i :: 0 <= i < |sums| ==> sums[i].batch != [] && sums[i].boundary == LastId(sums[i].batch))
    && (forall i, k :: 0 <= i < k < |sums| ==> sums[i].boundary < sums[k].boundary)
  }

  ghost predicate Dated(log: seq<Message>)
  {
    forall i, j :: 0 <= i < j < |log| ==> Created(log[i]) <= Created(log[j])
  }

  ghost predicate ConvInv(s: State, c: ConvId)
  {
    && Ordered(Log(s, c)) && Dated(Log(s, c))
    && Chained(Sums(s, c))
    && Summarised(s, c) == UpTo(Log(s, c), Boundary(s, c))
  }

  // A job's batch continues the summarised part and leaves `preserve` messages behind it.
  ghost predicate JobInv(preserve: int, s: State, j: JobId)
    requires j in s.jobs
  {
    var c, phase := s.jobs[j].conv, s.jobs[j].phase;
    phase.HistoryRead? && phase.batch != [] ==>
      var next := LastId(phase.batch);
      && next > phase.prior
      && UpTo(Log(s, c), next) == UpTo(Log(s, c), phase.prior) + phase.batch
      && |Newer(phase.prefix, next)| == preserve
  }

  ghost predicate Inv(preserve: int, s: State)
  {
    && SingleFlight(s)
    && (forall c :: ConvInv(s, c))
    && (forall j :: j in s.jobs ==> JobInv(preserve, s, j))
  }

  lemma ConservedFromInv(s: State, c: ConvId)
    requires ConvInv(s, c)
    ensures Conserved(s, c)
  {
    AfterIsNewer(Log(s, c), Boundary(s, c));
    var k := Cut(Log(s, c), Boundary(s, c));
    assert Log(s, c)[..k] + Log(s, c)[k..] == Log(s, c);
  }

  // ---------- where the store puts a message ----------

  ghost predicate PlaceAt(log: seq<Message>, m: Message, k: nat)
  {
    k <= |log| && forall i :: 0 <= i < |log| ==> (StoredBefore(log[i], m) <==> i < k)
  }

  lemma FindPlace(log: seq<Message>, m: Message) returns (k: nat)
    requires Ordered(log) && Dated(log)
    ensures PlaceAt(log, m, k)
  {
    k := 0;
    while k < |log| && StoredBefore(log[k], m)
      invariant k <= |log|
      invariant forall i :: 0 <= i < k ==> StoredBefore(log[i], m)
    {
      k := k + 1;
    }
    assert k < |log| ==> forall i :: k < i < |log| ==> log[k].id < log[i].id && Created(log[k]) <= Created(log[i]);
  }

  lemma {:induction false} SidesOfPlace(log: seq<Message>, m: Message, k: nat)
    requires PlaceAt(log, m, k)
    ensures Earlier(log, m) == log[..k] && Later(log, m) == log[k..]
  {
    if log == [] {
    } else {
      var n := |log| - 1;
      SidesOfPlace(log[..n], m, if k == |log| then n else k);
      PrefixSides(log, k);
    }
  }

  lemma Place(log: seq<Message>, m: Message) returns (k: nat)
    requires Ordered(log) && Dated(log) && !IsStored(log, m.id)
    ensures PlaceAt(log, m, k) && Insert(log, m) == log[..k] + [m] + log[k..]
  {
    hide StoredBefore, Earlier, Later;
    k := FindPlace(log, m);
    SidesOfPlace(log, m, k);
  }

  // Where IDs and seconds agree, that is its place by ID.
  lemma InsertSplits(log: seq<Message>, m: Message) returns (k: nat)
    requires Ordered(log) && Dated(log) && m.id != EMPTY_ID && !IsStored(log, m.id) && Agrees(log, m)
    ensures CutAt(log, m.id, k) && Insert(log, m) == log[..k] + [m] + log[k..]
    ensures Ordered(Insert(log, m)) && Dated(Insert(log, m))
  {
    hide Insert;
    k := Place(log, m);
    PlaceIsCut(log, m, k);
    OrderedInsert(log, m, k);
  }

  lemma PlaceIsCut(log: seq<Message>, m: Message, k: nat)
    requires PlaceAt(log, m, k) && !IsStored(log, m.id) && Agrees(log, m)
    ensures CutAt(log, m.id, k)
    ensures forall i :: 0 <= i < |log| ==>
      if i < k then log[i].id < m.id && Created(log[i]) <= Created(m)
      else m.id < log[i].id && Created(m) <= Created(log[i])
  {
    forall i | 0 <= i < |log|
      ensures if StoredBefore(log[i], m) then log[i].id < m.id else m.id < log[i].id
    {
      assert log[i].id != m.id;
    }
  }

  lemma OrderedInsert(log: seq<Message>, m: Message, k: nat)
    requires Ordered(log) && Dated(log) && m.id != EMPTY_ID && k <= |log|
    requires forall i :: 0 <= i < |log| ==>
      if i < k then log[i].id < m.id && Created(log[i]) <= Created(m)
      else m.id < log[i].id && Created(m) <= Created(log[i])
    ensures Ordered(log[..k] + [m] + log[k..]) && Dated(log[..k] + [m] + log[k..])
  {
    hide Created;
  }

  lemma InsertFacts(log: seq<Message>, m: Message, bound: MessageId)
    requires Ordered(log) && Dated(log) && m.id != EMPTY_ID && !IsStored(log, m.id) && Agrees(log, m)
    ensures Ordered(Insert(log, m)) && Dated(Insert(log, m)) && |Insert(log, m)| == |log| + 1
    ensures bound < m.id ==> UpTo(Insert(log, m), bound) == UpTo(log, bound)
    ensures m.id <= bound ==> Newer(Insert(log, m), bound) == Newer(log, bound)
  {
    hide UpTo, Newer, Insert, Ordered, Dated, Agrees;
    var k := InsertSplits(log, m);
    var b := Cut(log, bound);
    var log' := Insert(log, m);
    if bound < m.id {
      assert b > 0 ==> log[b - 1].id <= bound;
      assert b <= k;
      SidesOfCut(log', bound, b);
      assert log'[..b] == log[..b];
    } else {
      assert k > 0 ==> log[k - 1].id <= m.id;
      assert k <= b;
      SidesOfCut(log', bound, b + 1);
      assert log'[b + 1..] == log[b..];
    }
  }

  lemma AppendKeeps(preserve: int, s: State, c: ConvId, m: Message)
    requires Inv(preserve, s) && m.id != EMPTY_ID && InOrder(s, Append(c, m))
    ensures Inv(preserve, After(preserve, s, Append(c, m)))
  {
    hide UpTo, Newer, Insert, Ordered, Batches, Chained;
    var s' := After(preserve, s, Append(c, m));
    SingleFlightKept(preserve, s, Append(c, m));
    var log := Log(s, c);
    assert ConvInv(s, c);
    if IsStored(log, m.id) {
      InsertStored(log, m);
    } else {
      InsertFacts(log, m, Boundary(s, c));
    }
    forall d ensures ConvInv(s', d) { assert ConvInv(s, d); }
    forall j | j in s'.jobs ensures JobInv(preserve, s', j) {
      assert JobInv(preserve, s, j);
      if Pending(s, c, j) && !IsStored(log, m.id) {
        InsertFacts(log, m, LastId(s.jobs[j].phase.batch));
        InsertFacts(log, m, s.jobs[j].phase.prior);
      }
    }
  }

  lemma InsertStored(log: seq<Message>, m: Message)
    requires IsStored(log, m.id)
    ensures Insert(log, m) == log
  {}

  lemma ChainedSnoc(sums: seq<Saved>, batch: seq<Message>)
    requires Chained(sums) && batch != []
    requires sums != [] ==> sums[|sums| - 1].boundary < LastId(batch)
    ensures Chained(sums + [Saved(LastId(batch), batch)])
    ensures Flatten(Batches(sums + [Saved(LastId(batch), batch)])) == Flatten(Batches(sums)) + batch
  {
    assert Batches(sums + [Saved(LastId(batch), batch)]) == Batches(sums) + [batch];
    FlattenConcat(Batches(sums), [batch]);
    assert Flatten([batch]) == batch;
  }

  lemma SaveKeeps(preserve: int, s: State, j: JobId)
    requires Inv(preserve, s) && Enabled(s, Save(j))
    ensures Inv(preserve, After(preserve, s, Save(j)))
  {
    hide UpTo, Newer, Insert, Ordered, Batches, Chained, Flatten;
    var s' := After(preserve, s, Save(j));
    SingleFlightKept(preserve, s, Save(j));
    var c, batch := s.jobs[j].conv, s.jobs[j].phase.batch;
    assert JobInv(preserve, s, j) && ConvInv(s, c);
    ChainedSnoc(Sums(s, c), batch);
    forall d ensures ConvInv(s', d) { assert ConvInv(s, d); }
    forall k | k in s'.jobs ensures JobInv(preserve, s', k) { assert JobInv(preserve, s, k); }
  }

  lemma ReadHistoryKeeps(preserve: int, s: State, j: JobId)
    requires preserve > 0 && Inv(preserve, s) && Enabled(s, ReadHistory(j))
    ensures Inv(preserve, After(preserve, s, ReadHistory(j)))
  {
    hide UpTo, Newer, Ordered, Batches, Chained, Flatten, Batch, AfterBoundary;
    var s' := After(preserve, s, ReadHistory(j));
    SingleFlightKept(preserve, s, ReadHistory(j));
    var job := s.jobs[j];
    assert ConvInv(s, job.conv);
    BatchContinues(Log(s, job.conv), job.latest, job.phase.prior, preserve);
    forall d ensures ConvInv(s', d) { assert ConvInv(s, d); }
    forall k | k in s'.jobs ensures JobInv(preserve, s', k) {
      if k != j { assert JobInv(preserve, s, k); }
    }
  }

  // Steps that touch neither messages nor summaries, nor what a job has read of the history.
  lemma OtherKeeps(preserve: int, s: State, step: Step)
    requires Inv(preserve, s) && Enabled(s, step)
    requires step.Launch? || step.ReadSummary? || step.Finish?
    ensures Inv(preserve, After(preserve, s, step))
  {
    hide UpTo, Newer, Ordered, Batches, Chained, Flatten;
    var s' := After(preserve, s, step);
    SingleFlightKept(preserve, s, step);
    forall d ensures ConvInv(s', d) { assert ConvInv(s, d); }
    forall k | k in s'.jobs ensures JobInv(preserve, s', k) {
      if k in s.jobs { assert JobInv(preserve, s, k); }
    }
  }

  lemma StepKeeps(preserve: int, s: State, step: Step)
    requires preserve > 0 && Inv(preserve, s) && Enabled(s, step) && InOrder(s, step)
    ensures Inv(preserve, After(preserve, s, step))
  {
    hide Inv, After, InOrder;
    match step
    case Append(c, m) => AppendKeeps(preserve, s, c, m);
    case ReadHistory(j) => ReadHistoryKeeps(preserve, s, j);
    case Save(j) => SaveKeeps(preserve, s, j);
    case _ => OtherKeeps(preserve, s, step);
  }

  // ---------- runs ----------

  const INITIAL := State(map[], map[], {}, map[])

  // A run is a list of steps; StateAfter is where it leads.
  ghost predicate Possible(preserve: int, s: State, steps: seq<Step>)
    decreases |steps|
  {
    steps == [] || (Enabled(s, steps[0]) && Possible(preserve, After(preserve, s, steps[0]), steps[1..]))
  }

  ghost function StateAfter(preserve: int, s: State, steps: seq<Step>): State
    requires Possible(preserve, s, steps)
    decreases |steps|
  {
    if steps == [] then s else StateAfter(preserve, After(preserve, s, steps[0]), steps[1..])
  }

  ghost predicate AppendsInOrder(preserve: int, s: State, steps: seq<Step>)
    requires Possible(preserve, s, steps)
    decreases |steps|
  {
    steps == [] || (InOrder(s, steps[0]) && AppendsInOrder(preserve, After(preserve, s, steps[0]), steps[1..]))
  }

  lemma {:induction false} RunKeeps(preserve: int, s: State, steps: seq<Step>)
    requires preserve > 0 && Inv(preserve, s) && Possible(preserve, s, steps) && AppendsInOrder(preserve, s, steps)
    ensures Inv(preserve, StateAfter(preserve, s, steps))
    decreases |steps|
  {
    if steps == [] {
    } else {
      StepKeeps(preserve, s, steps[0]);
      RunKeeps(preserve, After(preserve, s, steps[0]), steps[1..]);
    }
  }

  // Conservation over every run from the empty store.
  lemma RunConserves(preserve: int, steps: seq<Step>, c: ConvId)
    requires preserve > 0 && Possible(preserve, INITIAL, steps) && AppendsInOrder(preserve, INITIAL, steps)
    ensures var s := StateAfter(preserve, INITIAL, steps);
            && Conserved(s, c)
            && Chained(Sums(s, c))
            && (forall j, k :: j in s.jobs && k in s.jobs && s.jobs[j].conv == s.jobs[k].conv ==> j == k)
  {
    assert forall d :: ConvInv(INITIAL, d);
    RunKeeps(preserve, INITIAL, steps);
    var s := StateAfter(preserve, INITIAL, steps);
    assert ConvInv(s, c);
    ConservedFromInv(s, c);
  }

  // ---------- the hypothesis on appended IDs is needed ----------

  lemma {:induction false} NewerConcat(a: seq<Message>, b: seq<Message>, bound: MessageId)
    ensures Newer(a + b, bound) == Newer(a, bound) + Newer(b, bound)
  {
    if b == [] {
      assert a + b == a;
    } else {
      var n := |b| - 1;
      assert (a + b)[..|a + b| - 1] == a + b[..n];
      NewerConcat(a, b[..n], bound);
    }
  }

  // A history cut at a boundary, and one message more: the part before the cut still continues
  // into what is live exactly if the message is above the boundary and stored behind that part.
  lemma CutKeptExactly(log: seq<Message>, m: Message, bound: MessageId, e: nat)
    requires Ordered(log) && Dated(log) && m.id != EMPTY_ID && !IsStored(log, m.id) && CutAt(log, bound, e)
    ensures log[..e] + AfterBoundary(Insert(log, m), bound) == Insert(log, m)
       <==> m.id > bound && forall x :: x in log[..e] ==> StoredBefore(x, m)
  {
    hide Insert, StoredBefore, Newer;
    var k := Place(log, m);
    var log' := Insert(log, m);
    assert (forall x :: x in log[..e] ==> StoredBefore(x, m)) <==> e <= k by { PrefixBefore(log, m, k, e); }
    if m.id <= bound {
      InsertedBelow(log, m, bound, k);
      NewerCut(log, bound, e);
    } else if e <= k {
      AfterCut(log, m, bound, k, e);
    } else {
      assert (log[..e] + AfterBoundary(log', bound))[k] == log[k];
      assert log'[k] == m;
    }
  }

  lemma PrefixBefore(log: seq<Message>, m: Message, k: nat, e: nat)
    requires PlaceAt(log, m, k) && e <= |log|
    ensures (forall x :: x in log[..e] ==> StoredBefore(x, m)) <==> e <= k
  {
    hide StoredBefore;
    if k < e { assert log[k] in log[..e]; }
  }

  lemma InsertedBelow(log: seq<Message>, m: Message, bound: MessageId, k: nat)
    requires m.id <= bound && k <= |log|
    ensures Newer(log[..k] + [m] + log[k..], bound) == Newer(log, bound)
  {
    NewerConcat(log[..k] + [m], log[k..], bound);
    NewerConcat(log[..k], [m], bound);
    NewerConcat(log[..k], log[k..], bound);
    assert log[..k] + log[k..] == log && [m][..0] == [];
    assert Newer([m], bound) == [];
  }

  lemma AfterCut(log: seq<Message>, m: Message, bound: MessageId, k: nat, e: nat)
    requires Ordered(log) && CutAt(log, bound, e) && m.id > bound && e <= k <= |log|
    ensures var log' := log[..k] + [m] + log[k..]; log[..e] + AfterBoundary(log', bound) == log'
  {
    hide Newer;
    var log' := log[..k] + [m] + log[k..];
    assert CutAt(log', bound, e);
    NewerCut(log', bound, e);
    assert log[..e] == log'[..e] && log'[..e] + log'[e..] == log';
    if bound == EMPTY_ID { AllAboveEmpty(log, e); }
  }

  lemma AllAboveEmpty(log: seq<Message>, e: nat)
    requires CutAt(log, EMPTY_ID, e) && Ordered(log)
    ensures e == 0
  {
    assert e > 0 ==> log[0].id <= EMPTY_ID;
  }

  // Appending a new message keeps conservation exactly when its ID is above the boundary and the
  // store orders it behind everything summarised.
  lemma AppendConservesIff(preserve: int, s: State, c: ConvId, m: Message)
    requires Inv(preserve, s) && m.id != EMPTY_ID && !IsStored(Log(s, c), m.id)
    ensures Conserved(After(preserve, s, Append(c, m)), c)
       <==> m.id > Boundary(s, c) && forall x :: x in Summarised(s, c) ==> StoredBefore(x, m)
  {
    hide UpTo, Newer, Insert, Ordered, Dated, Batches, Chained, Flatten, StoredBefore, SingleFlight, JobInv;
    assert ConvInv(s, c);
    var e := Cut(Log(s, c), Boundary(s, c));
    CutKeptExactly(Log(s, c), m, Boundary(s, c), e);
  }

  // While a batch waits to be saved, the bar is the end of that batch: an ID above the stored
  // boundary but not above the pending one is lost by the save.
  lemma AppendThenSaveConservesIff(preserve: int, s: State, c: ConvId, m: Message, j: JobId)
    requires Inv(preserve, s) && m.id != EMPTY_ID && !IsStored(Log(s, c), m.id)
    requires Pending(s, c, j)
    ensures Conserved(After(preserve, After(preserve, s, Append(c, m)), Save(j)), c)
       <==> && m.id > LastId(s.jobs[j].phase.batch)
            && forall x :: x in Summarised(s, c) + s.jobs[j].phase.batch ==> StoredBefore(x, m)
  {
    hide UpTo, Newer, Insert, Ordered, Dated, Batches, Chained, Flatten, StoredBefore;
    var batch := s.jobs[j].phase.batch;
    assert ConvInv(s, c) && JobInv(preserve, s, j);
    ChainedSnoc(Sums(s, c), batch);
    var e := Cut(Log(s, c), LastId(batch));
    CutKeptExactly(Log(s, c), m, LastId(batch), e);
  }

  // A message below the boundary that no batch has seen: no later step brings it back.
  ghost predicate Lost(s: State, c: ConvId, id: MessageId)
  {
    && SingleFlight(s)
    && EMPTY_ID < id <= Boundary(s, c)
    && (forall i, m :: 0 <= i < |Sums(s, c)| && m in Sums(s, c)[i].batch ==> m.id != id)
    && (forall j | j in s.jobs && s.jobs[j].conv == c && s.jobs[j].phase.HistoryRead? ::
          forall m | m in s.jobs[j].phase.batch :: m.id > id)
  }

  lemma BatchAbove(log: seq<Message>, latest: MessageId, boundary: MessageId, preserve: int, m: Message)
    requires boundary != EMPTY_ID && m in Batch(log, latest, boundary, preserve)
    ensures m.id > boundary
  {
    Members(UpTo(log, latest), boundary, m);
  }

  lemma LostStays(preserve: int, s: State, step: Step, c: ConvId, id: MessageId)
    requires Lost(s, c, id) && Enabled(s, step)
    ensures Lost(After(preserve, s, step), c, id)
  {
    hide UpTo, Newer, Insert, Batch;
    var s' := After(preserve, s, step);
    SingleFlightKept(preserve, s, step);
    match step
    case ReadHistory(j) =>
      var job := s.jobs[j];
      forall m | job.conv == c && m in s'.jobs[j].phase.batch ensures m.id > id {
        BatchAbove(Log(s, c), job.latest, job.phase.prior, preserve, m);
      }
    case Save(j) =>
      if s.jobs[j].conv == c {
        var batch := s.jobs[j].phase.batch;
        assert batch[|batch| - 1] in batch;
      }
    case _ =>
  }

  lemma {:induction false} LostForever(preserve: int, s: State, steps: seq<Step>, c: ConvId, m: Message)
    requires Lost(s, c, m.id) && Possible(preserve, s, steps)
    ensures var s' := StateAfter(preserve, s, steps);
            Lost(s', c, m.id) && m !in Live(s', c)
    decreases |steps|
  {
    if steps == [] {
      Members(Log(s, c), Boundary(s, c), m);
    } else {
      LostStays(preserve, s, steps[0], c, m.id);
      LostForever(preserve, After(preserve, s, steps[0]), steps[1..], c, m);
    }
  }

  // ---------- losing a message ----------

  lemma SummarisedStored(s: State, c: ConvId, id: MessageId)
    requires ConvInv(s, c) && !IsStored(Log(s, c), id)
    ensures forall i, m :: 0 <= i < |Sums(s, c)| && m in Sums(s, c)[i].batch ==> m.id != id
  {
    hide UpTo, Flatten, Chained, Ordered, Dated;
    forall i, m | 0 <= i < |Sums(s, c)| && m in Sums(s, c)[i].batch ensures m.id != id {
      BlockMember(Batches(Sums(s, c)), i, m);
      Members(Log(s, c), Boundary(s, c), m);
      assert m in Log(s, c);
    }
  }

  lemma {:induction false} BlockMember<T>(blocks: seq<seq<T>>, i: nat, x: T)
    requires i < |blocks| && x in blocks[i]
    ensures x in Flatten(blocks)
  {
    if i == 0 {
    } else {
      BlockMember(blocks[1..], i - 1, x);
    }
  }

  // What a running job is about to save lies above the boundary and is stored.
  lemma PendingAbove(preserve: int, s: State, j: JobId)
    requires Inv(preserve, s) && j in s.jobs && s.jobs[j].phase.HistoryRead?
    ensures forall x :: x in s.jobs[j].phase.batch ==> x.id > Boundary(s, s.jobs[j].conv) && x in Log(s, s.jobs[j].conv)
  {
    hide UpTo, Chained, Flatten, Dated;
    var log, phase := Log(s, s.jobs[j].conv), s.jobs[j].phase;
    assert ConvInv(s, s.jobs[j].conv) && JobInv(preserve, s, j);
    if phase.batch != [] {
      var k := Cut(log, phase.prior);
      var e := Cut(log, LastId(phase.batch));
      BatchPlaces(log, phase.batch, k, e);
    }
  }

  lemma BatchPlaces(log: seq<Message>, batch: seq<Message>, k: nat, e: nat)
    requires k <= |log| && e <= |log| && log[..e] == log[..k] + batch
    ensures forall x :: x in batch ==> exists i :: k <= i < |log| && log[i] == x
  {
    forall x | x in batch ensures exists i :: k <= i < |log| && log[i] == x {
      var i :| 0 <= i < |batch| && batch[i] == x;
      assert log[..e][k + i] == x;
    }
  }

  // An ID not above the boundary: the message is lost at once, and by the other lemma for good.
  lemma BelowIsLost(preserve: int, s: State, c: ConvId, m: Message)
    requires Inv(preserve, s) && !IsStored(Log(s, c), m.id) && EMPTY_ID < m.id <= Boundary(s, c)
    ensures Lost(After(preserve, s, Append(c, m)), c, m.id)
  {
    hide UpTo, Newer, Insert, ConvInv, JobInv;
    var s' := After(preserve, s, Append(c, m));
    assert ConvInv(s, c);
    SingleFlightKept(preserve, s, Append(c, m));
    SummarisedStored(s, c, m.id);
    forall j, x | j in s.jobs && s.jobs[j].conv == c && s.jobs[j].phase.HistoryRead? && x in s.jobs[j].phase.batch
      ensures x.id > m.id
    {
      PendingAbove(preserve, s, j);
    }
  }

  // An ID not above the end of a batch in hand: lost by the save.
  lemma BelowPendingIsLost(preserve: int, s: State, c: ConvId, m: Message, j: JobId)
    requires Inv(preserve, s) && !IsStored(Log(s, c), m.id) && Pending(s, c, j)
    requires EMPTY_ID < m.id <= LastId(s.jobs[j].phase.batch)
    ensures Lost(After(preserve, After(preserve, s, Append(c, m)), Save(j)), c, m.id)
  {
    hide UpTo, Newer, Insert, ConvInv, JobInv;
    var s1 := After(preserve, s, Append(c, m));
    var s2 := After(preserve, s1, Save(j));
    var batch := s.jobs[j].phase.batch;
    assert ConvInv(s, c);
    SingleFlightKept(preserve, s, Append(c, m));
    SingleFlightKept(preserve, s1, Save(j));
    SummarisedStored(s, c, m.id);
    PendingAbove(preserve, s, j);
    assert Sums(s2, c) == Sums(s, c) + [Saved(LastId(batch), batch)];
    assert forall x :: x in batch ==> x.id != m.id;
  }

  // ---------- a run that loses a message ----------

  ghost predicate Reached(preserve: int, s: State)
  {
    exists steps :: RunsTo(preserve, steps, s)
  }

  ghost predicate RunsTo(preserve: int, steps: seq<Step>, s: State)
  {
    Possible(preserve, INITIAL, steps) && AppendsInOrder(preserve, INITIAL, steps)
    && StateAfter(preserve, INITIAL, steps) == s
  }

  lemma {:induction false} RunSnoc(preserve: int, s: State, steps: seq<Step>, step: Step)
    requires Possible(preserve, s, steps) && AppendsInOrder(preserve, s, steps)
    requires Enabled(StateAfter(preserve, s, steps), step) && InOrder(StateAfter(preserve, s, steps), step)
    ensures Possible(preserve, s, steps + [step]) && AppendsInOrder(preserve, s, steps + [step])
    ensures StateAfter(preserve, s, steps + [step]) == After(preserve, StateAfter(preserve, s, steps), step)
    decreases |steps|
  {
    hide Enabled, After, InOrder;
    var more := steps + [step];
    if steps == [] {
      var s1 := After(preserve, s, step);
      assert more[1..] == [];
      assert Possible(preserve, s1, []) && AppendsInOrder(preserve, s1, []) && StateAfter(preserve, s1, []) == s1;
    } else {
      assert more[0] == steps[0] && more[1..] == steps[1..] + [step];
      RunSnoc(preserve, After(preserve, s, steps[0]), steps[1..], step);
    }
  }

  lemma ReachedStep(preserve: int, s: State, step: Step)
    requires Reached(preserve, s) && Enabled(s, step) && InOrder(s, step)
    ensures Reached(preserve, After(preserve, s, step))
  {
    hide Enabled, After, InOrder, Possible, AppendsInOrder, StateAfter;
    var steps :| RunsTo(preserve, steps, s);
    RunSnoc(preserve, INITIAL, steps, step);
    assert RunsTo(preserve, steps + [step], After(preserve, s, step));
  }

  lemma ReachedInv(preserve: int, s: State)
    requires preserve > 0 && Reached(preserve, s)
    ensures Inv(preserve, s)
  {
    var steps :| RunsTo(preserve, steps, s);
    assert forall d :: ConvInv(INITIAL, d);
    RunKeeps(preserve, INITIAL, steps);
  }

  lemma InitialReached(preserve: int)
    ensures Reached(preserve, INITIAL)
  {
    assert RunsTo(preserve, [], INITIAL);
  }

  function Filled(c: ConvId, log: seq<Message>): State { INITIAL.(logs := map[c := log]) }

  lemma InsertLast(log: seq<Message>)
    requires log != [] && Ordered(log) && Dated(log)
    ensures var n := |log| - 1;
            Ordered(log[..n]) && Dated(log[..n]) && !IsStored(log[..n], log[n].id) && Agrees(log[..n], log[n])
            && Insert(log[..n], log[n]) == log
  {
    hide Earlier, Later;
    var n := |log| - 1;
    SidesOfPlace(log[..n], log[n], n);
    assert log[..n][..n] + [log[n]] + log[..n][n..] == log;
  }

  // Every log in order can be built up.
  lemma {:induction false} FilledReached(preserve: int, c: ConvId, log: seq<Message>)
    requires log != [] && Ordered(log) && Dated(log)
    ensures Reached(preserve, Filled(c, log))
  {
    hide Insert, Reached, Ordered, Dated;
    var n := |log| - 1;
    InsertLast(log);
    var before := if n == 0 then INITIAL else Filled(c, log[..n]);
    if n == 0 {
      InitialReached(preserve);
    } else {
      FilledReached(preserve, c, log[..n]);
    }
    assert Log(before, c) == log[..n];
    assert log[n].id != EMPTY_ID by { OrderedMember(log, log[n]); }
    ReachedStep(preserve, before, Append(c, log[n]));
    assert After(preserve, before, Append(c, log[n])).logs == Filled(c, log).logs;
  }

  // One compaction of such a log: everything but the last `preserve` messages is summarised.
  lemma CompactionReached(preserve: int, c: ConvId, log: seq<Message>)
    returns (s3: State, s4: State)
    requires 0 < preserve < |log| && Ordered(log) && Dated(log)
    ensures var batch := log[..|log| - preserve];
      && Reached(preserve, s3) && Log(s3, c) == log && Boundary(s3, c) == EMPTY_ID
      && Pending(s3, c, 0) && s3.jobs[0].phase.batch == batch
      && Reached(preserve, s4) && Log(s4, c) == log && Boundary(s4, c) == LastId(batch)
  {
    hide Reached, Batch, UpTo, Ordered, Dated;
    var s, latest := Filled(c, log), log[|log| - 1].id;
    FilledReached(preserve, c, log);
    ReachedStep(preserve, s, Launch(0, c, latest));
    var s1 := After(preserve, s, Launch(0, c, latest));
    ReachedStep(preserve, s1, ReadSummary(0));
    var s2 := After(preserve, s1, ReadSummary(0));
    ReachedStep(preserve, s2, ReadHistory(0));
    s3 := After(preserve, s2, ReadHistory(0));
    FirstBatch(log, preserve);
    ReachedStep(preserve, s3, Save(0));
    s4 := After(preserve, s3, Save(0));
  }

  lemma FirstBatch(log: seq<Message>, preserve: int)
    requires 0 < preserve < |log| && Ordered(log)
    ensures Batch(log, log[|log| - 1].id, EMPTY_ID, preserve) == log[..|log| - preserve]
  {
    UpToCut(log, log[|log| - 1].id, |log|);
    assert log[..|log|] == log;
  }

  // Messages with IDs 2, 3, ... and ID 1 still to come.
  function Numbered(n: nat): (log: seq<Message>)
    ensures |log| == n
    ensures Ordered(log) && Dated(log) && !IsStored(log, 1)
  {
    seq(n, i requires 0 <= i < n => Text(i + 2))
  }

  function Text(id: MessageId): Message { Message(id, "", User, "", [], "", [], EMPTY_ID, None, false) }

  // For every number of preserved messages there are runs that lose one: an ID below the boundary
  // that is appended after the save, or between the reading of the history and the save.
  lemma LossHappens(preserve: int, c: ConvId)
    requires preserve > 0
    ensures exists s: State, m: Message ::
      && Reached(preserve, s) && EMPTY_ID < m.id <= Boundary(s, c)
      && !Conserved(After(preserve, s, Append(c, m)), c)
      && Lost(After(preserve, s, Append(c, m)), c, m.id)
    ensures exists s: State, m: Message, j: JobId ::
      && Reached(preserve, s) && Pending(s, c, j) && m.id > Boundary(s, c)
      && var s' := After(preserve, After(preserve, s, Append(c, m)), Save(j));
         !Conserved(s', c) && Lost(s', c, m.id)
  {
    hide Reached, Inv, After, Conserved, Lost, Insert, Numbered;
    var log, m := Numbered(preserve + 1), Text(1);
    var s3, s4 := CompactionReached(preserve, c, log);
    assert LastId(log[..1]) != EMPTY_ID by { OrderedMember(log, log[0]); }
    assert LastId(log[..1]) != 1 by { assert IsStored(log, log[0].id); }
    ReachedInv(preserve, s3);
    ReachedInv(preserve, s4);
    AppendConservesIff(preserve, s4, c, m);
    BelowIsLost(preserve, s4, c, m);
    AppendThenSaveConservesIff(preserve, s3, c, m, 0);
    BelowPendingIsLost(preserve, s3, c, m, 0);
  }

  // ---------- what the prompt builder sees ----------

  lemma {:induction false} Stays(log: seq<Message>, added: Message, m: Message)
    requires m in log
    ensures m in Earlier(log, added) || m in Later(log, added)
    ensures m in Insert(log, added)
  {
    var n := |log| - 1;
    assert log == log[..n] + [log[n]];
    if m in log[..n] { Stays(log[..n], added, m); }
  }

  lemma {:induction false} LogGrows(preserve: int, s: State, steps: seq<Step>, c: ConvId, m: Message)
    requires Possible(preserve, s, steps) && m in Log(s, c)
    ensures m in Log(StateAfter(preserve, s, steps), c)
    decreases |steps|
  {
    if steps == [] {
    } else {
      var s1 := After(preserve, s, steps[0]);
      if steps[0].Append? && steps[0].conv == c {
        Stays(Log(s, c), steps[0].m, m);
      }
      LogGrows(preserve, s1, steps[1..], c, m);
    }
  }

  // Build reads the history first and the latest summary later, with any steps in between:
  // each message it read is then either covered by that summary chain or still in the view.
  lemma PromptViewExact(preserve: int, s: State, steps: seq<Step>, c: ConvId, upTo: MessageId, m: Message)
    requires preserve > 0 && Inv(preserve, s)
    requires Possible(preserve, s, steps) && AppendsInOrder(preserve, s, steps)
    requires m in UpTo(Log(s, c), upTo)
    ensures var s' := StateAfter(preserve, s, steps);
            m in AfterBoundary(UpTo(Log(s, c), upTo), Boundary(s', c)) <==> m !in Summarised(s', c)
  {
    hide UpTo, Newer, Possible, AppendsInOrder, StateAfter, Flatten, Batches, Ordered, Chained;
    var s' := StateAfter(preserve, s, steps);
    RunKeeps(preserve, s, steps);
    assert ConvInv(s', c) && ConvInv(s, c);
    Members(Log(s, c), upTo, m);
    LogGrows(preserve, s, steps, c, m);
    Members(Log(s', c), Boundary(s', c), m);
    Members(UpTo(Log(s, c), upTo), Boundary(s', c), m);
    OrderedMember(Log(s, c), m);
  }

  lemma OrderedMember(log: seq<Message>, m: Message)
    requires Ordered(log) && m in log
    ensures m.id != EMPTY_ID
  {}
}
