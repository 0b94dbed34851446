/** Model routing and failover with cool-downs (internal/domain/service/llm/router.go and
    completion.go), for requests served one after another on a clock that never goes back. */
module Failover {
  import opened Messages

  // ---------- routes: "endpoint_id:model_name" ----------

  datatype Route = Route(endpoint: string, model: string)
  {
    predicate Valid() { endpoint != "" && model != "" && ':' !in endpoint }
  }

  function Key(endpoint: string, model: string): string { endpoint + ":" + model }

  // The index of the first colon, or |s|.
  function FirstColon(s: string): (k: nat)
    ensures k <= |s| && ':' !in s[..k] && (k < |s| ==> s[k] == ':')
  {
    if s == [] || s[0] == ':' then 0 else
      var k := 1 + FirstColon(s[1..]);
      assert s[..k] == [s[0]] + s[1..][..k - 1];
      k
  }

  function ParseRoute(s: string): (r: Option<Route>)
  {
    var k := FirstColon(s);
    if k == 0 || k + 1 >= |s| then None else Some(Route(s[..k], s[k + 1..]))
  }

  lemma {:induction false} FirstColonOf(a: string, b: string)
    requires ':' !in a
    ensures FirstColon(a + ":" + b) == |a|
  {
    var s := a + ":" + b;
    if a == [] {
      assert s[0] == ':';
    } else {
      assert s[0] == a[0] && s[1..] == a[1..] + ":" + b;
      FirstColonOf(a[1..], b);
    }
  }

  // A valid route is read back from its key, and nothing else parses.
  lemma RouteRoundTrip(s: string, r: Route)
    ensures ParseRoute(s) == Some(r) <==> r.Valid() && s == Key(r.endpoint, r.model)
  {
    if ParseRoute(s) == Some(r) {
      var k := FirstColon(s);
      assert s == s[..k] + ":" + s[k + 1..];
    }
    if r.Valid() && s == Key(r.endpoint, r.model) {
      FirstColonOf(r.endpoint, r.model);
      var n := |r.endpoint|;
      assert s[..n] == r.endpoint && s[n + 1..] == r.model;
    }
  }

  // Cool-downs of different endpoint and model pairs are kept apart.
  lemma KeyInjective(r: Route, t: Route)
    requires ':' !in r.endpoint && ':' !in t.endpoint
    requires Key(r.endpoint, r.model) == Key(t.endpoint, t.model)
    ensures r == t
  {
    FirstColonOf(r.endpoint, r.model);
    FirstColonOf(t.endpoint, t.model);
    var s, n := Key(r.endpoint, r.model), |r.endpoint|;
    assert s[..n] == r.endpoint && s[n + 1..] == r.model;
    assert s[..n] == t.endpoint && s[n + 1..] == t.model;
  }

  // The entries that parse, in order.
  function Parsed(entries: seq<string>): (chain: seq<Route>)
    ensures forall r :: r in chain <==> exists i :: 0 <= i < |entries| && ParseRoute(entries[i]) == Some(r)
  {
    if entries == [] then [] else
      var n := |entries| - 1;
      assert entries == entries[..n] + [entries[n]];
      match ParseRoute(entries[n])
      case None => Parsed(entries[..n])
      case Some(route) => Parsed(entries[..n]) + [route]
  }

  // NewRouter: one entry that does not parse is an error.
  method NewRouter(primary: string, fallbacks: seq<string>) returns (chain: Option<seq<Route>>)
    ensures chain.None? <==> exists s :: s in [primary] + fallbacks && ParseRoute(s).None?
    ensures chain.Some? ==>
      |chain.value| == 1 + |fallbacks| && ParseRoute(primary) == Some(chain.value[0])
      && (forall i :: 0 <= i < |fallbacks| ==> ParseRoute(fallbacks[i]) == Some(chain.value[i + 1]))
  {
    var sel := ParseRoute(primary);
    if sel.None? {
      assert primary in [primary] + fallbacks;
      return None;
    }
    var routes := [sel.value];
    for i := 0 to |fallbacks|
      invariant |routes| == 1 + i && ParseRoute(primary) == Some(routes[0])
      invariant forall j :: 0 <= j < i ==> ParseRoute(fallbacks[j]) == Some(routes[j + 1])
    {
      var next := ParseRoute(fallbacks[i]);
      if next.None? {
        assert fallbacks[i] in [primary] + fallbacks;
        return None;
      }
      routes := routes + [next.value];
    }
    return Some(routes);
  }

  // at: which of the first n entries parse, in order; found: the routes they give.
  ghost predicate InPlace(entries: seq<string>, n: nat, at: seq<nat>, found: seq<Route>)
  {
    && n <= |entries| && |at| == |found|
    && (forall j :: 0 <= j < |at| ==> at[j] < n && ParseRoute(entries[at[j]]) == Some(found[j]))
    && (forall j, k :: 0 <= j < k < |at| ==> at[j] < at[k])
    && (forall i :: 0 <= i < n && ParseRoute(entries[i]).Some? ==> i in at)
  }

  // Those routes first, then the chain.
  ghost predicate Prepended(chain: seq<Route>, entries: seq<string>, at: seq<nat>, result: seq<Route>)
  {
    |at| <= |result| && InPlace(entries, |entries|, at, result[..|at|]) && result[|at|..] == chain
  }

  lemma PlaceNone(entries: seq<string>)
    ensures InPlace(entries, 0, [], [])
  {}

  lemma PlaceOne(entries: seq<string>, i: nat, at: seq<nat>, found: seq<Route>)
    requires InPlace(entries, i, at, found) && i < |entries|
    ensures ParseRoute(entries[i]).None? ==> InPlace(entries, i + 1, at, found)
    ensures ParseRoute(entries[i]).Some? ==>
      InPlace(entries, i + 1, at + [i], found + [ParseRoute(entries[i]).value])
  {
    hide ParseRoute;
    forall k | 0 <= k < |at| ensures (at + [i])[k] == at[k] {}
    forall x | x in at ensures x in at + [i] {}
  }

  lemma PlaceChain(chain: seq<Route>, entries: seq<string>, at: seq<nat>, found: seq<Route>)
    requires InPlace(entries, |entries|, at, found)
    ensures Prepended(chain, entries, at, found + chain)
  {
    hide ParseRoute;
    assert (found + chain)[..|at|] == found && (found + chain)[|at|..] == chain;
  }

  // Select: the overrides that parse go before the chain.
  method Select(chain: seq<Route>, overrides: Option<seq<string>>) returns (result: seq<Route>)
    ensures result == Selected(chain, overrides)
    ensures overrides.None? ==> result == chain
    ensures overrides.Some? ==> exists at :: Prepended(chain, overrides.value, at, result)
  {
    hide InPlace, Prepended;
    if overrides.None? { return chain; }
    result := [];
    PlaceNone(overrides.value);
    ghost var at: seq<nat> := [];
    for i := 0 to |overrides.value|
      invariant result == Parsed(overrides.value[..i])
      invariant InPlace(overrides.value, i, at, result)
    {
      var sel := ParseRoute(overrides.value[i]);
      assert overrides.value[..i + 1][..i] == overrides.value[..i];
      PlaceOne(overrides.value, i, at, result);
      if sel.None? { continue; }
      result := result + [sel.value];
      at := at + [i];
    }
    assert overrides.value[..|overrides.value|] == overrides.value;
    PlaceChain(chain, overrides.value, at, result);
    result := result + chain;
  }

  function Selected(chain: seq<Route>, overrides: Option<seq<string>>): seq<Route>
  {
    match overrides case None => chain case Some(entries) => Parsed(entries) + chain
  }

  // ---------- what one request meets, and what it leaves ----------

  datatype Reply = Answer(text: string) | ProviderError(retryAfter: int) | OtherError

  // What the i-th chain entry would meet: when its cool-down is looked up, when its call returns,
  // what the call returns, and whether the context is still live then.
  datatype Moment = Moment(asked: int, answered: int, reply: Reply, live: bool)

  type Environment = nat -> Moment

  ghost predicate Forward(env: Environment, from: int)
  {
    && (forall i :: from <= env(i).asked <= env(i).answered)
    && (forall i, j :: 0 <= i < j ==> env(i).answered <= env(j).asked)
  }

  datatype Verdict = Cooling | Unregistered | Called

  datatype Attempt = Attempt(model: string, verdict: Verdict)

  datatype Event = Call(key: string, at: int) | Cooldown(key: string, until: int)

  datatype Result = Completed(endpoint: string, model: string, text: string) | Cancelled | Exhausted(tried: nat)

  // Only a provider's own error, under a live context, starts a cool-down.
  function EventsOf(key: string, verdict: Verdict, moment: Moment, defaultCD: int): seq<Event>
  {
    if !verdict.Called? then []
    else if moment.live && moment.reply.ProviderError? then
      var wait := if moment.reply.retryAfter <= 0 then defaultCD else moment.reply.retryAfter;
      [Call(key, moment.asked), Cooldown(key, moment.answered + wait)]
    else [Call(key, moment.asked)]
  }

  // Everything a log of attempts did, in order.
  function Trace(chain: seq<Route>, env: Environment, defaultCD: int, log: seq<Attempt>): seq<Event>
    requires |log| <= |chain|
  {
    if log == [] then [] else
      var n := |log| - 1;
      Trace(chain, env, defaultCD, log[..n])
      + EventsOf(Key(chain[n].endpoint, log[n].model), log[n].verdict, env(n), defaultCD)
  }

  // Some earlier cool-down of this key is not over.
  predicate Blocked(history: seq<Event>, key: string, at: int)
  {
    exists e :: e in history && e.Cooldown? && e.key == key && at <= e.until
  }

  function Judge(history: seq<Event>, plugins: set<string>, endpoint: string, key: string, at: int): Verdict
  {
    if Blocked(history, key, at) then Cooling
    else if endpoint !in plugins then Unregistered
    else Called
  }

  // The first attempt that reached a plugin, or |log|.
  function FirstCalled(log: seq<Attempt>): (k: nat)
    ensures k <= |log| && (k < |log| ==> log[k].verdict.Called?)
    ensures forall i :: 0 <= i < k ==> !log[i].verdict.Called?
  {
    if log == [] || log[0].verdict.Called? then 0 else 1 + FirstCalled(log[1..])
  }

  // The model name of attempt i: the requested one; otherwise that of the first entry called.
  function ModelAt(requested: string, chain: seq<Route>, log: seq<Attempt>, i: nat): string
    requires i <= |log| && i < |chain|
  {
    if requested != "" then requested
    else if FirstCalled(log) < i then chain[FirstCalled(log)].model
    else chain[i].model
  }

  ghost predicate Explained(
    chain: seq<Route>, requested: string, plugins: set<string>, defaultCD: int, before: seq<Event>,
    env: Environment, log: seq<Attempt>, i: nat)
    requires i < |log| <= |chain|
  {
    var key := Key(chain[i].endpoint, log[i].model);
    && log[i].model == ModelAt(requested, chain, log, i)
    && log[i].verdict
       == Judge(before + Trace(chain, env, defaultCD, log[..i]), plugins, chain[i].endpoint, key, env(i).asked)
  }

  // The log is what the history so far dictates, and nothing before its end stopped it.
  ghost predicate IsLog(
    chain: seq<Route>, requested: string, plugins: set<string>, defaultCD: int, before: seq<Event>,
    env: Environment, log: seq<Attempt>)
  {
    && |log| <= |chain|
    && forall i :: 0 <= i < |log| ==> Explained(chain, requested, plugins, defaultCD, before, env, log, i)
  }

  // A call whose reply ends the request.
  predicate Final(attempt: Attempt, moment: Moment)
  {
    attempt.verdict.Called? && (moment.reply.Answer? || !moment.live)
  }

  ghost predicate Outcome(chain: seq<Route>, env: Environment, log: seq<Attempt>, result: Result)
    requires |log| <= |chain|
  {
    && (forall i :: 0 <= i < |log| - 1 ==> !Final(log[i], env(i)))
    && var n := |log| - 1;
       match result
       case Completed(endpoint, model, text) =>
         n >= 0 && log[n].verdict.Called? && env(n).reply == Answer(text)
         && endpoint == chain[n].endpoint && model == log[n].model
       case Cancelled =>
         n >= 0 && log[n].verdict.Called? && !env(n).reply.Answer? && !env(n).live
       case Exhausted(tried) =>
         |log| == |chain| == tried && (n >= 0 ==> !Final(log[n], env(n)))
  }

  // ---------- cool-down safety ----------

  // No call to a key before every earlier cool-down of that key is over.
  ghost predicate Respected(history: seq<Event>)
  {
    forall i, j ::
      0 <= i < j < |history| && history[i].Cooldown? && history[j].Call? && history[i].key == history[j].key
      ==> history[i].until < history[j].at
  }

  // The map holds exactly the cool-downs that may still matter at `now`.
  ghost predicate Tracked(cooldown: map<string, int>, history: seq<Event>, now: int)
  {
    && (forall e :: e in history && e.Cooldown? ==>
          e.until < now || (e.key in cooldown && cooldown[e.key] == e.until))
    && (forall k :: k in cooldown ==> Cooldown(k, cooldown[k]) in history)
  }

  // isCooledDown with its lazy deletion answers what the whole history says.
  lemma LookupIsExact(cooldown: map<string, int>, history: seq<Event>, now: int, key: string, at: int)
    requires Tracked(cooldown, history, now) && now <= at
    ensures Blocked(history, key, at) <==> key in cooldown && at <= cooldown[key]
    ensures Tracked(if key in cooldown && cooldown[key] < at then cooldown - {key} else cooldown, history, at)
  {
  }

  lemma CallRespects(history: seq<Event>, key: string, at: int)
    requires Respected(history) && !Blocked(history, key, at)
    ensures Respected(history + [Call(key, at)])
  {
    var after := history + [Call(key, at)];
    forall i, j | 0 <= i < j < |after| && after[i].Cooldown? && after[j].Call? && after[i].key == after[j].key
      ensures after[i].until < after[j].at
    {
      if j == |history| { assert history[i] in history; }
    }
  }

  lemma CooldownRespects(history: seq<Event>, key: string, until: int)
    requires Respected(history)
    ensures Respected(history + [Cooldown(key, until)])
  {
  }

  lemma CallTracked(cooldown: map<string, int>, history: seq<Event>, now: int, key: string, at: int, later: int)
    requires Tracked(cooldown, history, now) && now <= later
    ensures Tracked(cooldown, history + [Call(key, at)], later)
  {
  }

  lemma CooldownTracked(cooldown: map<string, int>, history: seq<Event>, now: int, key: string, until: int)
    requires Tracked(cooldown, history, now) && key !in cooldown
    ensures Tracked(cooldown[key := until], history + [Cooldown(key, until)], now)
  {
  }

  // ---------- growing a log by one attempt ----------

  lemma {:induction false} FirstCalledSnoc(log: seq<Attempt>, a: Attempt)
    ensures FirstCalled(log + [a])
         == if FirstCalled(log) < |log| || a.verdict.Called? then FirstCalled(log) else |log| + 1
  {
    if log == [] {
    } else {
      assert (log + [a])[1..] == log[1..] + [a];
      FirstCalledSnoc(log[1..], a);
    }
  }

  lemma LogGrows(
    chain: seq<Route>, requested: string, plugins: set<string>, defaultCD: int, before: seq<Event>,
    env: Environment, log: seq<Attempt>, a: Attempt)
    requires IsLog(chain, requested, plugins, defaultCD, before, env, log) && |log| < |chain|
    requires a.model == ModelAt(requested, chain, log, |log|)
    requires a.verdict == Judge(before + Trace(chain, env, defaultCD, log), plugins, chain[|log|].endpoint,
                                Key(chain[|log|].endpoint, a.model), env(|log|).asked)
    ensures IsLog(chain, requested, plugins, defaultCD, before, env, log + [a])
  {
    hide Trace, Judge, Key, FirstCalled;
    var grown := log + [a];
    FirstCalledSnoc(log, a);
    forall i | 0 <= i < |grown|
      ensures Explained(chain, requested, plugins, defaultCD, before, env, grown, i)
    {
      assert grown[..i] == log[..i];
      if i < |log| {
        assert Explained(chain, requested, plugins, defaultCD, before, env, log, i);
      } else {
        assert log[..i] == log;
      }
    }
  }

  lemma TraceSnoc(chain: seq<Route>, env: Environment, defaultCD: int, log: seq<Attempt>, a: Attempt)
    requires |log| < |chain|
    ensures Trace(chain, env, defaultCD, log + [a])
         == Trace(chain, env, defaultCD, log)
            + EventsOf(Key(chain[|log|].endpoint, a.model), a.verdict, env(|log|), defaultCD)
  {
    assert (log + [a])[..|log|] == log;
  }

  // ---------- what a request asks for ----------

  // An explicit "endpoint_id:model_name" replaces the chain.
  function Routes(chain: seq<Route>, overrides: Option<seq<string>>, model: string): seq<Route>
  {
    if ParseRoute(model).Some? then [ParseRoute(model).value] else Selected(chain, overrides)
  }

  function Requested(model: string): string
  {
    if ParseRoute(model).Some? then ParseRoute(model).value.model else model
  }

  lemma RoutesValid(chain: seq<Route>, overrides: Option<seq<string>>, model: string)
    requires forall r :: r in chain ==> r.Valid()
    ensures forall r :: r in Routes(chain, overrides, model) ==> r.Valid()
    ensures ParseRoute(model).Some? ==> model != ""
  {
    hide ParseRoute;
    forall r | r in Routes(chain, overrides, model) && r !in chain
      ensures r.Valid()
    {
      var s := if ParseRoute(model).Some? then model
               else var i :| 0 <= i < |overrides.value| && ParseRoute(overrides.value[i]) == Some(r);
                    overrides.value[i];
      RouteRoundTrip(s, r);
    }
    if ParseRoute(model).Some? { RouteRoundTrip(model, ParseRoute(model).value); }
  }

  // req.Model as the loop carries it.
  function Carried(requested: string, chain: seq<Route>, log: seq<Attempt>): string
    requires |log| <= |chain|
  {
    if requested != "" then requested
    else if FirstCalled(log) < |log| then chain[FirstCalled(log)].model
    else ""
  }

  lemma CarriedSteps(requested: string, chain: seq<Route>, log: seq<Attempt>)
    requires |log| <= |chain| && forall r :: r in chain ==> r.Valid()
    ensures log == [] ==> Carried(requested, chain, log) == requested
    ensures |log| < |chain| ==>
      var c := Carried(requested, chain, log);
      var used := if c != "" then c else chain[|log|].model;
      && used == ModelAt(requested, chain, log, |log|)
      && forall v :: Carried(requested, chain, log + [Attempt(used, v)]) == if v.Called? then used else c
  {
    hide FirstCalled;
    if |log| < |chain| {
      assert chain[|log|] in chain;
      assert FirstCalled(log) < |log| ==> chain[FirstCalled(log)] in chain;
      var c := Carried(requested, chain, log);
      var used := if c != "" then c else chain[|log|].model;
      forall v ensures Carried(requested, chain, log + [Attempt(used, v)]) == if v.Called? then used else c {
        FirstCalledSnoc(log, Attempt(used, v));
      }
    }
  }

  lemma ForwardAt(env: Environment, from: int, i: nat)
    requires Forward(env, from)
    ensures from <= env(i).asked <= env(i).answered <= env(i + 1).asked
  {
  }

  lemma EventsAre(key: string, verdict: Verdict, moment: Moment, defaultCD: int)
    ensures !verdict.Called? ==> EventsOf(key, verdict, moment, defaultCD) == []
    ensures verdict.Called? && moment.live && moment.reply.ProviderError? ==>
      EventsOf(key, verdict, moment, defaultCD)
      == [Call(key, moment.asked)]
         + [Cooldown(key, moment.answered
                          + if moment.reply.retryAfter <= 0 then defaultCD else moment.reply.retryAfter)]
    ensures verdict.Called? && !(moment.live && moment.reply.ProviderError?) ==>
      EventsOf(key, verdict, moment, defaultCD) == [Call(key, moment.asked)]
  {
  }

  // ---------- a request under way ----------

  ghost predicate Progress(
    chain: seq<Route>, requested: string, plugins: set<string>, defaultCD: int, before: seq<Event>,
    history: seq<Event>, env: Environment, log: seq<Attempt>, reqModel: string)
  {
    && (forall r :: r in chain ==> r.Valid())
    && IsLog(chain, requested, plugins, defaultCD, before, env, log)
    && history == before + Trace(chain, env, defaultCD, log)
    && (forall j :: 0 <= j < |log| ==> !Final(log[j], env(j)))
    && reqModel == Carried(requested, chain, log)
  }

  lemma ProgressStarts(
    chain: seq<Route>, requested: string, plugins: set<string>, defaultCD: int, before: seq<Event>, env: Environment)
    requires forall r :: r in chain ==> r.Valid()
    ensures Progress(chain, requested, plugins, defaultCD, before, before, env, [], requested)
  {
    CarriedSteps(requested, chain, []);
  }

  lemma ProgressEnds(
    chain: seq<Route>, requested: string, plugins: set<string>, defaultCD: int, before: seq<Event>,
    history: seq<Event>, env: Environment, log: seq<Attempt>, reqModel: string)
    requires Progress(chain, requested, plugins, defaultCD, before, history, env, log, reqModel)
    requires |log| == |chain|
    ensures IsLog(chain, requested, plugins, defaultCD, before, env, log)
    ensures Outcome(chain, env, log, Exhausted(|chain|))
    ensures history == before + Trace(chain, env, defaultCD, log)
  {
  }

  // What the next attempt leaves, whichever way the request goes on.
  lemma ProgressSteps(
    chain: seq<Route>, requested: string, plugins: set<string>, defaultCD: int, before: seq<Event>,
    history: seq<Event>, env: Environment, log: seq<Attempt>, reqModel: string, verdict: Verdict)
    requires Progress(chain, requested, plugins, defaultCD, before, history, env, log, reqModel)
    requires |log| < |chain|
    requires verdict == Judge(history, plugins, chain[|log|].endpoint,
      Key(chain[|log|].endpoint, if reqModel != "" then reqModel else chain[|log|].model), env(|log|).asked)
    ensures
      var i := |log|;
      var used := if reqModel != "" then reqModel else chain[i].model;
      var next := log + [Attempt(used, verdict)];
      var after := history + EventsOf(Key(chain[i].endpoint, used), verdict, env(i), defaultCD);
      && IsLog(chain, requested, plugins, defaultCD, before, env, next)
      && after == before + Trace(chain, env, defaultCD, next)
      && (verdict.Called? && env(i).reply.Answer? ==>
            Outcome(chain, env, next, Completed(chain[i].endpoint, used, env(i).reply.text)))
      && (verdict.Called? && !env(i).reply.Answer? && !env(i).live ==> Outcome(chain, env, next, Cancelled))
      && (!(verdict.Called? && (env(i).reply.Answer? || !env(i).live)) ==>
            Progress(chain, requested, plugins, defaultCD, before, after, env, next,
                     if verdict.Called? then used else reqModel))
  {
    hide Trace, Judge, Key, Explained, FirstCalled, ModelAt, EventsOf, Carried;
    var i := |log|;
    CarriedSteps(requested, chain, log);
    var used := if reqModel != "" then reqModel else chain[i].model;
    LogGrows(chain, requested, plugins, defaultCD, before, env, log, Attempt(used, verdict));
    TraceSnoc(chain, env, defaultCD, log, Attempt(used, verdict));
  }

  // ---------- what a finished request means ----------

  // The first entry in order whose call answers is the one returned.
  lemma FirstAnswerWins(
    chain: seq<Route>, requested: string, plugins: set<string>, defaultCD: int, before: seq<Event>,
    env: Environment, log: seq<Attempt>, result: Result)
    requires IsLog(chain, requested, plugins, defaultCD, before, env, log) && Outcome(chain, env, log, result)
    ensures result.Completed? <==>
      exists n :: 0 <= n < |log| && log[n].verdict.Called? && env(n).reply.Answer?
    ensures result.Completed? ==>
      forall i :: 0 <= i < |log| && log[i].verdict.Called? && env(i).reply.Answer? ==>
        i == |log| - 1 && result == Completed(chain[i].endpoint, log[i].model, env(i).reply.text)
  {
    hide IsLog, Explained;
    forall i | 0 <= i < |log| && log[i].verdict.Called? && env(i).reply.Answer?
      ensures i == |log| - 1 && result.Completed?
    {
      assert Final(log[i], env(i));
    }
  }

  // An error under a live context: every entry was cooling down, unknown, or called and failed.
  lemma ExhaustedMeans(
    chain: seq<Route>, requested: string, plugins: set<string>, defaultCD: int, before: seq<Event>,
    env: Environment, log: seq<Attempt>, result: Result)
    requires IsLog(chain, requested, plugins, defaultCD, before, env, log) && Outcome(chain, env, log, result)
    requires !result.Completed? && forall i :: 0 <= i < |log| ==> env(i).live
    ensures |log| == |chain| && result == Exhausted(|chain|)
    ensures forall i :: 0 <= i < |chain| ==>
      || Blocked(before + Trace(chain, env, defaultCD, log[..i]), Key(chain[i].endpoint, log[i].model), env(i).asked)
      || chain[i].endpoint !in plugins
      || (log[i].verdict.Called? && !env(i).reply.Answer?)
  {
    hide Blocked, Trace, Key, ModelAt;
    forall i | 0 <= i < |chain|
      ensures log[i].verdict.Called? ==> !env(i).reply.Answer?
      ensures Explained(chain, requested, plugins, defaultCD, before, env, log, i)
    {
      assert i < |log| - 1 ==> !Final(log[i], env(i));
    }
  }

  // A request starts a cool-down exactly for its provider errors, under the model it used.
  lemma {:induction false} CooldownsAreProviderErrors(
    chain: seq<Route>, env: Environment, defaultCD: int, log: seq<Attempt>, key: string, until: int)
    requires |log| <= |chain|
    ensures Cooldown(key, until) in Trace(chain, env, defaultCD, log) <==>
      exists i :: 0 <= i < |log| && Starts(chain, env, defaultCD, log, i, key, until)
  {
    hide Key;
    if log == [] {
    } else {
      var n := |log| - 1;
      CooldownsAreProviderErrors(chain, env, defaultCD, log[..n], key, until);
      assert forall i :: 0 <= i < n ==>
        (Starts(chain, env, defaultCD, log[..n], i, key, until) <==> Starts(chain, env, defaultCD, log, i, key, until));
      assert Cooldown(key, until) in EventsOf(Key(chain[n].endpoint, log[n].model), log[n].verdict, env(n), defaultCD)
        <==> Starts(chain, env, defaultCD, log, n, key, until);
    }
  }

  // And it records exactly the calls it made.
  lemma {:induction false} CallsAreTraced(
    chain: seq<Route>, env: Environment, defaultCD: int, log: seq<Attempt>, key: string, at: int)
    requires |log| <= |chain|
    ensures Call(key, at) in Trace(chain, env, defaultCD, log) <==>
      exists i :: 0 <= i < |log| && CalledAt(chain, env, log, i, key, at)
  {
    hide Key;
    if log == [] {
    } else {
      var n := |log| - 1;
      CallsAreTraced(chain, env, defaultCD, log[..n], key, at);
      assert forall i :: 0 <= i < n ==>
        (CalledAt(chain, env, log[..n], i, key, at) <==> CalledAt(chain, env, log, i, key, at));
      assert Call(key, at) in EventsOf(Key(chain[n].endpoint, log[n].model), log[n].verdict, env(n), defaultCD)
        <==> CalledAt(chain, env, log, n, key, at);
    }
  }

  predicate CalledAt(chain: seq<Route>, env: Environment, log: seq<Attempt>, i: nat, key: string, at: int)
    requires i < |log| <= |chain|
  {
    log[i].verdict.Called? && key == Key(chain[i].endpoint, log[i].model) && at == env(i).asked
  }

  predicate Starts(
    chain: seq<Route>, env: Environment, defaultCD: int, log: seq<Attempt>, i: nat, key: string, until: int)
    requires i < |log| <= |chain|
  {
    && log[i].verdict.Called? && env(i).live && env(i).reply.ProviderError?
    && key == Key(chain[i].endpoint, log[i].model)
    && until == env(i).answered + if env(i).reply.retryAfter > 0 then env(i).reply.retryAfter else defaultCD
  }

  ghost predicate SameModels(chain: seq<Route>)
  {
    forall i, j :: 0 <= i < j < |chain| ==> chain[i].model == chain[j].model
  }

  // Every entry called is called with the model configured for it.
  ghost predicate OwnModels(chain: seq<Route>, log: seq<Attempt>)
  {
    |log| <= |chain| && forall i :: 0 <= i < |log| && log[i].verdict.Called? ==> log[i].model == chain[i].model
  }

  ghost predicate Possible(chain: seq<Route>, defaultCD: int, log: seq<Attempt>)
  {
    exists plugins, env, result :: Ran(chain, defaultCD, plugins, env, log, result)
  }

  // A run of a request that names no model, on a service with no past.
  ghost predicate Ran(
    chain: seq<Route>, defaultCD: int, plugins: set<string>, env: Environment, log: seq<Attempt>, result: Result)
  {
    Forward(env, 0) && IsLog(chain, "", plugins, defaultCD, [], env, log) && Outcome(chain, env, log, result)
  }

  // Without a requested model, every later call carries the model of the first one, so a chain
  // is served with its own models exactly if they are all the same.
  lemma OwnModelsExactly(chain: seq<Route>, defaultCD: int)
    ensures SameModels(chain) <==> forall log :: Possible(chain, defaultCD, log) ==> OwnModels(chain, log)
  {
    if SameModels(chain) {
      forall log | Possible(chain, defaultCD, log) ensures OwnModels(chain, log) {
        var plugins, env, result :| Ran(chain, defaultCD, plugins, env, log, result);
        SameModelsServed(chain, plugins, defaultCD, env, log);
      }
    } else {
      var i, j :| 0 <= i < j < |chain| && chain[i].model != chain[j].model;
      var log := AllFail(chain);
      AllFailRuns(chain, defaultCD);
      assert log[i].model == log[j].model;
      assert !OwnModels(chain, log);
    }
  }

  lemma SameModelsServed(chain: seq<Route>, plugins: set<string>, defaultCD: int, env: Environment, log: seq<Attempt>)
    requires SameModels(chain) && IsLog(chain, "", plugins, defaultCD, [], env, log)
    ensures OwnModels(chain, log)
  {
    hide Judge, Trace, Key;
    forall i | 0 <= i < |log| ensures log[i].model == chain[i].model {
      assert Explained(chain, "", plugins, defaultCD, [], env, log, i);
    }
  }

  // Every entry registered, every call failing without a provider error.
  function AllFail(chain: seq<Route>): (log: seq<Attempt>)
    ensures |log| == |chain|
  {
    seq(|chain|, i requires 0 <= i < |chain| => Attempt(chain[0].model, Called))
  }

  const FAILING: Environment := (i: nat) => Moment(0, 0, OtherError, true)

  lemma {:induction false} FailingCoolsNothing(chain: seq<Route>, defaultCD: int, log: seq<Attempt>)
    requires |log| <= |chain|
    ensures forall e :: e in Trace(chain, FAILING, defaultCD, log) ==> e.Call?
  {
    if log == [] {
    } else {
      FailingCoolsNothing(chain, defaultCD, log[..|log| - 1]);
    }
  }

  lemma AllFailRuns(chain: seq<Route>, defaultCD: int)
    ensures Possible(chain, defaultCD, AllFail(chain))
  {
    hide Trace, Key;
    var log, env := AllFail(chain), FAILING;
    var plugins := set r | r in chain :: r.endpoint;
    forall i | 0 <= i < |log|
      ensures Explained(chain, "", plugins, defaultCD, [], env, log, i)
    {
      FailingCoolsNothing(chain, defaultCD, log[..i]);
      assert chain[i] in chain;
      assert log[0].verdict.Called?;
      assert FirstCalled(log) == 0;
    }
    assert Ran(chain, defaultCD, plugins, env, log, Exhausted(|chain|));
  }

  // ---------- the rules of a request, written out ----------

  lemma ColonNeeded(s: string)
    ensures ParseRoute(s).Some? ==> ':' in s
  {
    var k := FirstColon(s);
    assert k < |s| ==> s[k] in s;
  }

  // A model named with its endpoint is the only route; any other name goes to the whole chain.
  lemma NamedModel(chain: seq<Route>, overrides: Option<seq<string>>, model: string, r: Route)
    requires r.Valid()
    ensures model == r.endpoint + ":" + r.model ==>
      Routes(chain, overrides, model) == [r] && Requested(model) == r.model
    ensures ':' !in model ==> Requested(model) == model
    ensures ':' !in model && overrides.None? ==> Routes(chain, overrides, model) == chain
  {
    hide ParseRoute;
    RouteRoundTrip(model, r);
    ColonNeeded(model);
  }

  // An entry is called exactly if its endpoint is known and no cool-down of its key runs.
  lemma CalledExactly(
    chain: seq<Route>, requested: string, plugins: set<string>, defaultCD: int, before: seq<Event>,
    env: Environment, log: seq<Attempt>, i: nat)
    requires IsLog(chain, requested, plugins, defaultCD, before, env, log) && i < |log|
    ensures log[i].verdict.Called? <==>
      && chain[i].endpoint in plugins
      && forall until ::
           Cooldown(chain[i].endpoint + ":" + log[i].model, until) in before + Trace(chain, env, defaultCD, log[..i])
           ==> until < env(i).asked
  {
    hide Trace, ModelAt;
    assert Explained(chain, requested, plugins, defaultCD, before, env, log, i);
  }

  // Which model an entry is called with: the requested one, else that of the first call.
  lemma ModelRule(
    chain: seq<Route>, requested: string, plugins: set<string>, defaultCD: int, before: seq<Event>,
    env: Environment, log: seq<Attempt>, i: nat, first: nat)
    requires IsLog(chain, requested, plugins, defaultCD, before, env, log) && i < |log|
    requires first <= i && forall k :: 0 <= k < first ==> !log[k].verdict.Called?
    requires first < i ==> log[first].verdict.Called?
    ensures log[i].model == if requested != "" then requested else chain[first].model
  {
    hide Trace, Judge, Key;
    assert Explained(chain, requested, plugins, defaultCD, before, env, log, i);
  }

  // ---------- the service ----------

  class CompletionService {
    const chain: seq<Route>
    const plugins: set<string>
    const defaultCD: int
    var cooldown: map<string, int>
    ghost var history: seq<Event>
    ghost var now: int

    ghost predicate Valid()
      reads this
    {
      && (forall r :: r in chain ==> r.Valid())
      && Tracked(cooldown, history, now)
      && Respected(history)
    }

    constructor (chain: seq<Route>, plugins: set<string>, defaultCD: int)
      requires forall r :: r in chain ==> r.Valid()
      ensures Valid() && history == [] && cooldown == map[] && now == 0
      ensures this.chain == chain && this.plugins == plugins && this.defaultCD == defaultCD
    {
      this.chain, this.plugins, this.defaultCD := chain, plugins, defaultCD;
      cooldown, history, now := map[], [], 0;
    }

    method IsCooledDown(key: string, at: int) returns (cooled: bool)
      requires Valid() && now <= at
      modifies this
      ensures Valid() && history == old(history) && now == at
      ensures cooled <==> Blocked(history, key, at)
      ensures cooled <==> key in cooldown
    {
      hide Respected, Blocked, Tracked;
      LookupIsExact(cooldown, history, now, key, at);
      now := at;
      if key !in cooldown { return false; }
      if at > cooldown[key] {
        cooldown := cooldown - {key};
        return false;
      }
      return true;
    }

    method SetCoolDown(key: string, retryAfter: int, at: int)
      requires Valid() && now <= at && key !in cooldown
      modifies this
      ensures Valid() && now == at
      ensures history == old(history) + [Cooldown(key, at + if retryAfter <= 0 then defaultCD else retryAfter)]
    {
      hide Respected;
      var wait := if retryAfter <= 0 then defaultCD else retryAfter;
      CooldownRespects(history, key, at + wait);
      assert Tracked(cooldown, history, at);
      CooldownTracked(cooldown, history, at, key, at + wait);
      cooldown := cooldown[key := at + wait];
      history := history + [Cooldown(key, at + wait)];
      now := at;
    }

    // The call is made at `asked` and returns at `answered`.
    ghost method RecordCall(key: string, asked: int, answered: int)
      requires Valid() && now == asked <= answered && !Blocked(history, key, asked)
      modifies this`history, this`now
      ensures Valid() && now == answered && history == old(history) + [Call(key, asked)]
    {
      hide Tracked, Respected;
      CallRespects(history, key, asked);
      CallTracked(cooldown, history, now, key, asked, answered);
      history, now := history + [Call(key, asked)], answered;
    }

    // One entry of the chain: skip it while it cools down or is unknown, else call it, and cool it
    // down on a provider error.
    method Try(endpoint: string, used: string, moment: Moment) returns (verdict: Verdict)
      requires Valid() && now <= moment.asked <= moment.answered
      modifies this
      ensures Valid() && now <= moment.answered
      ensures verdict == Judge(old(history), plugins, endpoint, Key(endpoint, used), moment.asked)
      ensures history == old(history) + EventsOf(Key(endpoint, used), verdict, moment, defaultCD)
    {
      hide Blocked, Tracked, Respected, Key, EventsOf;
      var key := Key(endpoint, used);
      var cooled := IsCooledDown(key, moment.asked);
      if cooled {
        verdict := Cooling;
      } else if endpoint !in plugins {
        verdict := Unregistered;
      } else {
        verdict := Called;
        RecordCall(key, moment.asked, moment.answered);
        if moment.live && moment.reply.ProviderError? {
          SetCoolDown(key, moment.reply.retryAfter, moment.answered);
        }
      }
      EventsAre(key, verdict, moment, defaultCD);
    }

    // Complete: walk the routes until an answer or a dead context.
    method Complete(overrides: Option<seq<string>>, model: string, env: Environment)
      returns (result: Result, log: seq<Attempt>)
      requires Valid() && Forward(env, now)
      modifies this
      ensures Valid()
      ensures |log| <= |Routes(chain, overrides, model)|
      ensures IsLog(Routes(chain, overrides, model), Requested(model), plugins, defaultCD, old(history), env, log)
      ensures Outcome(Routes(chain, overrides, model), env, log, result)
      ensures history == old(history) + Trace(Routes(chain, overrides, model), env, defaultCD, log)
    {
      hide Trace, Key, Explained, Judge, Forward, ParseRoute, Selected, Tracked, Respected, Progress, IsLog, Outcome;
      ghost var asked := Requested(model);
      RoutesValid(chain, overrides, model);
      var routes := Select(chain, overrides);
      var reqModel := model;
      if reqModel != "" && ParseRoute(reqModel).Some? {
        routes := [ParseRoute(reqModel).value];
        reqModel := ParseRoute(reqModel).value.model;
      }
      log := [];
      ForwardAt(env, now, 0);
      ProgressStarts(routes, asked, plugins, defaultCD, history, env);
      for i := 0 to |routes|
        invariant Valid() && |log| == i
        invariant i < |routes| ==> now <= env(i).asked
        invariant Progress(routes, asked, plugins, defaultCD, old(history), history, env, log, reqModel)
      {
        ghost var soFar, start := log, history;
        ForwardAt(env, old(now), i);
        var used := if reqModel != "" then reqModel else routes[i].model;
        var verdict := Try(routes[i].endpoint, used, env(i));
        log := log + [Attempt(used, verdict)];
        ProgressSteps(routes, asked, plugins, defaultCD, old(history), start, env, soFar, reqModel, verdict);
        if !verdict.Called? { continue; }
        reqModel := used;
        if env(i).reply.Answer? {
          return Completed(routes[i].endpoint, used, env(i).reply.text), log;
        }
        if !env(i).live { return Cancelled, log; }
      }
      ProgressEnds(routes, asked, plugins, defaultCD, old(history), history, env, log, reqModel);
      result := Exhausted(|routes|);
    }
  }
}
