/** History grouping and token windowing (internal/domain/service/prompt/render.go). */
module Window {
  import opened Messages
  import opened Token
  import opened Render

  datatype MessageGroup = MessageGroup(messages: seq<Message>, tokens: nat)

  function Bodies(groups: seq<MessageGroup>): (bodies: seq<seq<Message>>)
    ensures |bodies| == |groups|
  {
    seq(|groups|, i requires 0 <= i < |groups| => groups[i].messages)
  }

  // ---------- groupMessages ----------

  // Leading tool results that answer distinct expected calls.
  function ResultRun(msgs: seq<Message>, expected: set<string>): (n: nat)
    ensures n <= |msgs|
  {
    if msgs != [] && msgs[0].role == Tool && msgs[0].toolCallId in expected
    then 1 + ResultRun(msgs[1..], expected - {msgs[0].toolCallId})
    else 0
  }

  function GroupLength(msgs: seq<Message>): (n: nat)
    requires msgs != []
    ensures 1 <= n <= |msgs|
  {
    1 + if msgs[0].HasCalls() then ResultRun(msgs[1..], msgs[0].CallIds()) else 0
  }

  function Groups(msgs: seq<Message>): seq<seq<Message>>
    decreases |msgs|
  {
    if msgs == [] then []
    else var n := GroupLength(msgs); [msgs[..n]] + Groups(msgs[n..])
  }

  lemma GroupsStep(msgs: seq<Message>, i: nat)
    requires i < |msgs|
    ensures var j := i + GroupLength(msgs[i..]);
            Groups(msgs[i..]) == [msgs[i..j]] + Groups(msgs[j..])
  {
    var n := GroupLength(msgs[i..]);
    assert msgs[i..][..n] == msgs[i..i + n];
    assert msgs[i..][n..] == msgs[i + n..];
  }

  // The inner loop: the group opened by the assistant turn at i, and where it ends.
  method CollectResults(msgs: seq<Message>, i: nat) returns (group: seq<Message>, j: nat)
    requires i < |msgs| && msgs[i].HasCalls()
    ensures j == i + GroupLength(msgs[i..]) && group == msgs[i..j]
  {
    var expected := set c | c in msgs[i].toolCalls :: c.id;
    group := [msgs[i]];
    j := i + 1;
    assert msgs[i..][1..] == msgs[i + 1..];
    while j < |msgs| && msgs[j].role == Tool
      invariant i < j <= |msgs|
      invariant group == msgs[i..j]
      invariant GroupLength(msgs[i..]) == j - i + ResultRun(msgs[j..], expected)
    {
      assert msgs[j..][1..] == msgs[j + 1..];
      if msgs[j].toolCallId in expected {
        group := group + [msgs[j]];
        expected := expected - {msgs[j].toolCallId};
        j := j + 1;
      } else {
        break;
      }
    }
  }

  // The group that starts at i.
  method NextGroup(msgs: seq<Message>, i: nat) returns (group: seq<Message>, j: nat)
    requires i < |msgs|
    ensures i < j <= |msgs| && group == msgs[i..j]
    ensures Groups(msgs[i..]) == [group] + Groups(msgs[j..])
  {
    hide Groups, ResultRun;
    GroupsStep(msgs, i);
    var m := msgs[i];
    if m.role == Assistant && |m.toolCalls| > 0 {
      group, j := CollectResults(msgs, i);
    } else {
      group, j := [m], i + 1;
      assert GroupLength(msgs[i..]) == 1;
    }
  }

  method GroupMessages(msgs: seq<Message>) returns (groups: seq<MessageGroup>)
    ensures Bodies(groups) == Groups(msgs)
    ensures forall g | g in groups :: g.tokens == 0
  {
    groups := [];
    var i := 0;
    ghost var done: seq<seq<Message>> := [];
    while i < |msgs|
      invariant i <= |msgs|
      invariant done + Groups(msgs[i..]) == Groups(msgs)
      invariant |done| == |groups|
      invariant forall k :: 0 <= k < |groups| ==> groups[k] == MessageGroup(done[k], 0)
    {
      hide Groups;
      var group, j := NextGroup(msgs, i);
      Regroup(done, group, Groups(msgs[j..]));
      groups := groups + [MessageGroup(group, 0)];
      done := done + [group];
      i := j;
    }
    assert msgs[i..] == [];
    assert Bodies(groups) == done;
  }

  lemma Regroup<T>(a: seq<T>, x: T, b: seq<T>)
    ensures a + ([x] + b) == a + [x] + b
  {}

  // Grouping neither loses, adds nor reorders a message.
  lemma {:induction false} GroupsFlatten(h: seq<Message>)
    ensures Flatten(Groups(h)) == h
    decreases |h|
  {
    if h == [] {
    } else {
      var n := GroupLength(h);
      GroupsFlatten(h[n..]);
      assert h[..n] + h[n..] == h;
    }
  }

  ghost predicate Standalone(b: seq<Message>)
  {
    |b| == 1 && !b[0].HasCalls()
  }

  function ResultIds(results: seq<Message>): set<string>
  {
    set m | m in results :: m.toolCallId
  }

  ghost predicate DistinctResults(results: seq<Message>)
  {
    && (forall m | m in results :: m.role == Tool)
    && (forall i, j :: 0 <= i < j < |results| ==> results[i].toolCallId != results[j].toolCallId)
  }

  // An assistant turn with exactly one result per call ID, in any order.
  ghost predicate ToolBlock(b: seq<Message>)
  {
    && b != [] && b[0].HasCalls()
    && DistinctResults(b[1..])
    && ResultIds(b[1..]) == b[0].CallIds()
  }

  ghost predicate Blocks(blocks: seq<seq<Message>>)
  {
    forall b | b in blocks :: Standalone(b) || ToolBlock(b)
  }

  lemma {:induction false} CompleteRun(results: seq<Message>, rest: seq<Message>)
    requires DistinctResults(results)
    ensures ResultRun(results + rest, ResultIds(results)) == |results|
  {
    var all := results + rest;
    if results == [] {
      assert ResultIds(results) == {};
    } else {
      assert all[1..] == results[1..] + rest;
      assert results[0] in results;
      assert ResultIds(results) - {results[0].toolCallId} == ResultIds(results[1..]) by {
        forall m | m in results[1..] ensures m.toolCallId != results[0].toolCallId {
          var k :| 0 <= k < |results[1..]| && results[1..][k] == m;
          assert results[k + 1] == m;
        }
        assert forall m :: m in results <==> m == results[0] || m in results[1..];
      }
      CompleteRun(results[1..], rest);
    }
  }

  // On a history made of standalone messages and complete tool blocks, the groups are the blocks.
  lemma {:induction false} GroupsAreBlocks(blocks: seq<seq<Message>>)
    requires Blocks(blocks)
    ensures Groups(Flatten(blocks)) == blocks
  {
    if blocks == [] {
    } else {
      var b, rest := blocks[0], Flatten(blocks[1..]);
      var h := Flatten(blocks);
      assert b in blocks;
      assert b != [] && h == b + rest && h[0] == b[0];
      assert h[1..] == b[1..] + rest;
      if ToolBlock(b) { CompleteRun(b[1..], rest); }
      assert GroupLength(h) == |b|;
      assert h[..|b|] == b && h[|b|..] == rest;
      GroupsAreBlocks(blocks[1..]);
    }
  }

  // ---------- countGroupTokens ----------

  function MessageCost(r: Renderer, m: Message): nat
  {
    if Omitted(m) then 0
    else if m.evicted then Count(ContextBlock(r, m, map[], DEFAULT_PATH))
    else Count(ContextBlock(r, m, map[], DEFAULT_PATH) + m.content + CallsText(r, m))
  }

  function Cost(r: Renderer, msgs: seq<Message>): nat
  {
    if msgs == [] then 0 else Cost(r, msgs[..|msgs| - 1]) + MessageCost(r, msgs[|msgs| - 1])
  }

  lemma {:induction false} CostConcat(r: Renderer, a: seq<Message>, b: seq<Message>)
    ensures Cost(r, a + b) == Cost(r, a) + Cost(r, b)
  {
    if b == [] {
      assert a + b == a;
    } else {
      var n := |b| - 1;
      assert (a + b)[..|a + b| - 1] == a + b[..n];
      CostConcat(r, a, b[..n]);
    }
  }

  lemma CostStep(r: Renderer, msgs: seq<Message>, i: nat)
    requires i < |msgs|
    ensures Cost(r, msgs[..i + 1]) == Cost(r, msgs[..i]) + MessageCost(r, msgs[i])
  {
    assert msgs[..i + 1][..i] == msgs[..i];
  }

  // One round of the loop.
  method CountMessage(r: Renderer, m: Message) returns (t: nat)
    ensures t == MessageCost(r, m)
  {
    hide ContextBlock, Count;
    var block := ContextBlock(r, m, map[], DEFAULT_PATH);
    if m.evicted {
      if m.role == Tool {
        return 0;
      }
      if m.role == Assistant && m.content == "" && |m.toolCalls| == 0 {
        return 0;
      }
      return Count(block);
    }
    var rendered := block + m.content;
    if m.role == Assistant && |m.toolCalls| > 0 && r.callsJson(m.toolCalls).Some? {
      rendered := rendered + r.callsJson(m.toolCalls).value;
    } else {
      assert rendered == rendered + "";
    }
    t := Count(rendered);
  }

  method CountGroupTokens(r: Renderer, g: MessageGroup) returns (total: nat)
    ensures total == Cost(r, g.messages)
  {
    hide MessageCost;
    total := 0;
    for i := 0 to |g.messages|
      invariant total == Cost(r, g.messages[..i])
    {
      CostStep(r, g.messages, i);
      var t := CountMessage(r, g.messages[i]);
      total := total + t;
    }
    assert g.messages[..|g.messages|] == g.messages;
  }

  // ---------- windowMessages ----------

  function TokenSum(groups: seq<MessageGroup>): nat
  {
    if groups == [] then 0 else groups[0].tokens + TokenSum(groups[1..])
  }

  // groups[start..] is the longest suffix within the budget (or nothing fits).
  ghost predicate LongestSuffix(groups: seq<MessageGroup>, budget: int, start: nat)
  {
    && start <= |groups|
    && (start < |groups| ==> TokenSum(groups[start..]) <= budget)
    && (forall k :: 0 <= k < start ==> TokenSum(groups[k..]) > budget)
  }

  ghost predicate Suffix(groups: seq<MessageGroup>, budget: int, start: nat, result: seq<Message>)
  {
    LongestSuffix(groups, budget, start) && result == Flatten(Bodies(groups[start..]))
  }

  lemma {:induction false} TokenSumAntitone(groups: seq<MessageGroup>, j: nat, k: nat)
    requires j <= k <= |groups|
    ensures TokenSum(groups[j..]) >= TokenSum(groups[k..])
    decreases k - j
  {
    if j == k {
    } else {
      assert groups[j..][1..] == groups[j + 1..];
      TokenSumAntitone(groups, j + 1, k);
    }
  }

  // First loop: walk from the newest group to the oldest.
  method FirstIncluded(groups: seq<MessageGroup>, budget: int) returns (firstIncluded: nat)
    ensures LongestSuffix(groups, budget, firstIncluded)
  {
    var remaining := budget;
    firstIncluded := |groups|;
    var i := |groups| - 1;
    while i >= 0
      invariant -1 <= i == firstIncluded - 1 < |groups|
      invariant remaining == budget - TokenSum(groups[firstIncluded..])
      invariant firstIncluded < |groups| ==> remaining >= 0
    {
      assert groups[i..][1..] == groups[i + 1..];
      if groups[i].tokens <= remaining {
        remaining := remaining - groups[i].tokens;
        firstIncluded := i;
      } else {
        break;
      }
      i := i - 1;
    }
    forall k | 0 <= k < firstIncluded ensures TokenSum(groups[k..]) > budget {
      TokenSumAntitone(groups, k, firstIncluded - 1);
      assert groups[firstIncluded - 1..][1..] == groups[firstIncluded..];
    }
  }

  lemma BodiesStep(groups: seq<MessageGroup>, first: nat, n: nat)
    requires first <= n < |groups|
    ensures Flatten(Bodies(groups[first..n + 1])) == Flatten(Bodies(groups[first..n])) + groups[n].messages
  {
    var done := groups[first..n];
    assert groups[first..n + 1] == done + [groups[n]];
    assert Bodies(done + [groups[n]]) == Bodies(done) + [groups[n].messages];
    FlattenConcat(Bodies(done), [groups[n].messages]);
    assert Flatten([groups[n].messages]) == groups[n].messages;
  }

  method WindowMessages(groups: seq<MessageGroup>, budget: int)
    returns (result: seq<Message>)
    ensures exists start: nat :: Suffix(groups, budget, start, result)
  {
    hide LongestSuffix, Flatten, Bodies;
    var firstIncluded := FirstIncluded(groups, budget);
    assert firstIncluded <= |groups| by { LongestSuffixBound(groups, budget, firstIncluded); }
    // Second loop: flatten in chronological order.
    result := [];
    assert groups[firstIncluded..firstIncluded] == [];
    NothingFlat();
    for n := firstIncluded to |groups|
      invariant result == Flatten(Bodies(groups[firstIncluded..n]))
    {
      BodiesStep(groups, firstIncluded, n);
      result := result + groups[n].messages;
    }
    assert groups[firstIncluded..|groups|] == groups[firstIncluded..];
    assert Suffix(groups, budget, firstIncluded, result);
  }

  lemma LongestSuffixBound(groups: seq<MessageGroup>, budget: int, start: nat)
    requires LongestSuffix(groups, budget, start)
    ensures start <= |groups|
  {}

  lemma NothingFlat()
    ensures Flatten(Bodies([])) == []
  {}

  // ---------- windowHistoryWithBudget ----------

  // What the groups of a history cost, as a function of their bodies.
  ghost predicate Priced(r: Renderer, groups: seq<MessageGroup>)
  {
    forall i :: 0 <= i < |groups| ==> groups[i].tokens == Cost(r, groups[i].messages)
  }

  // w is the longest run of whole groups at the end of the history that costs at most the budget.
  ghost predicate IsWindow(r: Renderer, history: seq<Message>, budget: int, start: nat, w: seq<Message>)
  {
    && start <= |Groups(history)|
    && w == Flatten(Groups(history)[start..])
    && (start < |Groups(history)| ==> Cost(r, w) <= budget)
    && (forall k :: 0 <= k < start ==> Cost(r, Flatten(Groups(history)[k..])) > budget)
  }

  lemma {:induction false} TokenSumIsCost(r: Renderer, groups: seq<MessageGroup>)
    requires Priced(r, groups)
    ensures TokenSum(groups) == Cost(r, Flatten(Bodies(groups)))
  {
    if groups == [] {
    } else {
      TokenSumIsCost(r, groups[1..]);
      assert Bodies(groups)[1..] == Bodies(groups[1..]);
      CostConcat(r, groups[0].messages, Flatten(Bodies(groups[1..])));
    }
  }

  ghost predicate Windowed(r: Renderer, history: seq<Message>, budget: int, w: seq<Message>)
  {
    exists start: nat :: IsWindow(r, history, budget, start, w)
  }

  // Windowing priced groups windows the history.
  lemma PricedWindow(r: Renderer, history: seq<Message>, groups: seq<MessageGroup>, budget: int, w: seq<Message>)
    requires Bodies(groups) == Groups(history) && Priced(r, groups)
    requires exists start: nat :: Suffix(groups, budget, start, w)
    ensures Windowed(r, history, budget, w)
  {
    hide Bodies, Groups, Flatten, TokenSum, Cost;
    var start: nat :| Suffix(groups, budget, start, w);
    forall k | 0 <= k <= |groups|
      ensures TokenSum(groups[k..]) == Cost(r, Flatten(Groups(history)[k..]))
    {
      BodiesFrom(groups, k);
      TokenSumIsCost(r, groups[k..]);
    }
    BodiesFrom(groups, start);
    assert IsWindow(r, history, budget, start, w);
  }

  lemma BodiesFrom(groups: seq<MessageGroup>, k: nat)
    requires k <= |groups|
    ensures Bodies(groups[k..]) == Bodies(groups)[k..]
  {}

  lemma NoHistory(r: Renderer, budget: int)
    ensures Windowed(r, [], budget, [])
  {
    assert IsWindow(r, [], budget, 0, []);
  }

  lemma PriceKeepsBodies(groups: seq<MessageGroup>, i: nat, t: nat)
    requires i < |groups|
    ensures Bodies(groups[i := groups[i].(tokens := t)]) == Bodies(groups)
  {}

  method WindowHistoryWithBudget(r: Renderer, history: seq<Message>, budget: int)
    returns (w: seq<Message>)
    ensures budget <= 0 ==> w == []
    ensures budget > 0 ==> Windowed(r, history, budget, w)
  {
    hide Bodies, Groups, Windowed, Cost;
    if |history| == 0 || budget <= 0 {
      NoHistory(r, budget);
      return [];
    }
    var groups := GroupMessages(history);
    for i := 0 to |groups|
      invariant Bodies(groups) == Groups(history)
      invariant forall k :: 0 <= k < i ==> groups[k].tokens == Cost(r, groups[k].messages)
    {
      var t := CountGroupTokens(r, groups[i]);
      PriceKeepsBodies(groups, i, t);
      groups := groups[i := groups[i].(tokens := t)];
    }
    w := WindowMessages(groups, budget);
    PricedWindow(r, history, groups, budget, w);
  }

  lemma ResultInBlock(block: seq<Message>, k: nat)
    requires ToolBlock(block) && 0 < k < |block|
    ensures block[k].toolCallId in block[0].CallIds()
  {
    assert block[1..][k - 1] == block[k];
    assert block[k].toolCallId in ResultIds(block[1..]);
  }

  lemma SliceAt<T>(s: seq<T>, from: nat, to: nat, k: nat)
    requires from <= k < to <= |s|
    ensures s[from..to][k - from] == s[k]
  {}

  // Every result in a window sits behind the assistant turn that asked for it.
  lemma ResultsKeepTheirCall(r: Renderer, blocks: seq<seq<Message>>, budget: int, start: nat, w: seq<Message>, k: nat)
    returns (caller: nat)
    requires Blocks(blocks)
    requires forall b: seq<Message> | b in blocks && Standalone(b) :: b[0].role != Tool
    requires IsWindow(r, Flatten(blocks), budget, start, w)
    requires k < |w| && w[k].role == Tool
    ensures caller < k && w[caller].HasCalls() && w[k].toolCallId in w[caller].CallIds()
  {
    hide Flatten, Groups, Cost, ResultIds, DistinctResults;
    GroupsAreBlocks(blocks);
    var b, first := FlattenMember(blocks[start..], k);
    var block := blocks[start + b];
    assert block == blocks[start..][b] && block in blocks;
    SliceAt(w, first, first + |block|, k);
    SliceAt(w, first, first + |block|, first);
    caller := first;
    ToolInBlock(block, k - first);
  }

  lemma ToolInBlock(block: seq<Message>, k: nat)
    requires (Standalone(block) && block[0].role != Tool) || ToolBlock(block)
    requires k < |block| && block[k].role == Tool
    ensures k > 0 && block[0].HasCalls() && block[k].toolCallId in block[0].CallIds()
  {
    if ToolBlock(block) { ResultInBlock(block, k); }
  }
}
