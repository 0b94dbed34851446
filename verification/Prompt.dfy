/** The budget side of PromptBuilder.Build (internal/domain/service/prompt/prompt.go). */
module Prompt {
  import opened Messages
  import opened Token
  import opened Render
  import opened Window
  import opened History

  // ---------- what the estimate misses ----------

  // Upper bound on what one message may cost beyond its estimate: a longer context block
  // (user name, other attachment path), and the tool calls of an evicted turn, which the
  // estimate leaves out and the prompt still carries.
  function Slack(r: Renderer, m: Message, names: Names, path: string): nat
  {
    CountLength(Growth(r, m, names, path)) + if m.evicted then Count(CallsText(r, m)) else 0
  }

  function TotalSlack(r: Renderer, msgs: seq<Message>, names: Names, path: string): nat
  {
    if msgs == [] then 0
    else TotalSlack(r, msgs[..|msgs| - 1], names, path) + Slack(r, msgs[|msgs| - 1], names, path)
  }

  lemma LengthFits(sent: nat, counted: nat, grown: nat, rest: nat)
    requires sent <= counted + grown
    ensures CountLength(sent + rest) <= CountLength(counted + rest) + CountLength(grown)
    ensures CountLength(sent + rest) <= CountLength(counted) + CountLength(grown) + CountLength(rest)
  {
    CountSubadditive(sent + rest, counted + grown - sent);
    CountSubadditive(counted + rest, grown);
    CountSubadditive(counted, rest);
  }

  function SentLength(r: Renderer, m: Message, names: Names, path: string): nat
  {
    |Enriched(r, m, names, path).content| + |CallsText(r, m)|
  }

  lemma FootprintIsLength(r: Renderer, m: Message, names: Names, path: string)
    ensures MessageFootprint(r, Enriched(r, m, names, path)) == CountLength(SentLength(r, m, names, path))
  {
    assert CallsText(r, Enriched(r, m, names, path)) == CallsText(r, m);
  }

  lemma MessageFits(r: Renderer, m: Message, names: Names, path: string)
    ensures MessageFootprint(r, Enriched(r, m, names, path)) <= MessageCost(r, m) + Slack(r, m, names, path)
  {
    var sent, counted := |ContextBlock(r, m, names, path)|, |ContextBlock(r, m, map[], DEFAULT_PATH)|;
    var grown, calls := Growth(r, m, names, path), |CallsText(r, m)|;
    FootprintIsLength(r, m, names, path);
    if m.evicted {
      LengthFits(sent, counted, grown, calls);
    } else {
      LengthFits(sent, counted, grown, |m.content| + calls);
      CountSubadditive(|m.content| + calls, counted);
    }
  }

  lemma EnrichedPrefix(r: Renderer, w: seq<Message>, n: nat, names: Names, path: string)
    requires n <= |w|
    ensures EnrichedAll(r, w, names, path)[..n] == EnrichedAll(r, w[..n], names, path)
  {
    hide Enriched;
  }

  lemma {:induction false} WindowFits(r: Renderer, w: seq<Message>, names: Names, path: string)
    ensures Footprint(r, EnrichedAll(r, w, names, path)) <= Cost(r, w) + TotalSlack(r, w, names, path)
  {
    hide Enriched, MessageFootprint, MessageCost, Slack;
    if w == [] {
    } else {
      var n := |w| - 1;
      WindowFits(r, w[..n], names, path);
      MessageFits(r, w[n], names, path);
      EnrichedPrefix(r, w, n, names, path);
    }
  }

  // With the default path and no evicted tool calls the slack is the price of the user names ...
  function NamesPrice(r: Renderer, msgs: seq<Message>, names: Names): nat
  {
    if msgs == [] then 0
    else NamesPrice(r, msgs[..|msgs| - 1], names) + Count(NameAttr(r, msgs[|msgs| - 1], names))
  }

  ghost predicate NoEvictedCalls(msgs: seq<Message>)
  {
    forall m | m in msgs :: !(m.evicted && m.HasCalls())
  }

  lemma {:induction false} SlackIsNames(r: Renderer, w: seq<Message>, names: Names)
    requires NoEvictedCalls(w)
    ensures TotalSlack(r, w, names, DEFAULT_PATH) <= NamesPrice(r, w, names)
    ensures (forall m | m in w :: NameAttr(r, m, names) == "") ==> NamesPrice(r, w, names) == 0
  {
    if w == [] {
    } else {
      var m := w[|w| - 1];
      SlackIsNames(r, w[..|w| - 1], names);
      GrowthIsName(r, m, names);
      assert m in w;
    }
  }

  // ... and without names there is none: the estimate is sound as it stands.
  lemma CleanWindowFits(r: Renderer, w: seq<Message>, names: Names)
    requires NoEvictedCalls(w)
    requires forall m | m in w :: NameAttr(r, m, names) == ""
    ensures Footprint(r, EnrichedAll(r, w, names, DEFAULT_PATH)) <= Cost(r, w)
  {
    WindowFits(r, w, names, DEFAULT_PATH);
    SlackIsNames(r, w, names);
  }

  // ---------- trimHistoryAfterSummary ----------

  method TrimHistoryAfterSummary(history: seq<Message>, latestSummaryMessageId: MessageId)
    returns (trimmed: seq<Message>)
    ensures trimmed == AfterBoundary(history, latestSummaryMessageId)
  {
    if latestSummaryMessageId == EMPTY_ID {
      return history;
    }
    trimmed := [];
    for i := 0 to |history|
      invariant trimmed == Newer(history[..i], latestSummaryMessageId)
    {
      assert history[..i + 1][..i] == history[..i];
      var msg := history[i];
      if msg.id == EMPTY_ID || msg.id <= latestSummaryMessageId {
        continue;
      }
      trimmed := trimmed + [msg];
    }
    assert history[..|history|] == history;
  }

  // ---------- Build ----------

  // The latest summary: its boundary and the block it renders to.
  datatype SummaryBlock = SummaryBlock(boundary: MessageId, block: string)

  function SummaryTokens(summary: Option<SummaryBlock>): nat
  {
    if summary.Some? then Count(summary.value.block) else 0
  }

  function SystemMessage(content: string): Message
  {
    Message(EMPTY_ID, "", System, content, [], "", [], EMPTY_ID, None, false)
  }

  function SummaryBoundary(summary: Option<SummaryBlock>): MessageId
  {
    if summary.Some? then summary.value.boundary else EMPTY_ID
  }

  // The head of every prompt: system prompt, then the compacted context if there is one.
  function Head(systemPrompt: string, summary: Option<SummaryBlock>): seq<Message>
  {
    [SystemMessage(systemPrompt)]
    + if summary.Some? then [SystemMessage(summary.value.block)] else []
  }

  method BuildCompactionSignal(
    pressure: nat, tokenBudget: int, threshold: Option<real>,
    current: MessageId, w: seq<Message>, upTo: Option<MessageId>)
    returns (signal: Option<MessageId>)
    ensures signal.Some? <==>
              && threshold.Some? && tokenBudget > 0
              && pressure as real >= threshold.value * tokenBudget as real
              && (if upTo.Some? && upTo.value != EMPTY_ID then upTo.value
                  else if w != [] then w[|w| - 1].id else current) != EMPTY_ID
    ensures signal.Some? ==>
      signal.value == if upTo.Some? && upTo.value != EMPTY_ID then upTo.value
                      else if w != [] then w[|w| - 1].id else current
  {
    if threshold.None? || tokenBudget <= 0 {
      return None;
    }
    var ratio := pressure as real / tokenBudget as real;
    assert ratio * tokenBudget as real == pressure as real;
    RatioCompare(ratio, threshold.value, tokenBudget as real);
    if ratio < threshold.value {
      return None;
    }
    var latest := current;
    if upTo.Some? && upTo.value != EMPTY_ID {
      latest := upTo.value;
    } else if |w| > 0 {
      latest := w[|w| - 1].id;
    }
    signal := if latest == EMPTY_ID then None else Some(latest);
  }

  lemma RatioCompare(a: real, b: real, d: real)
    requires d > 0.0
    ensures a < b <==> a * d < b * d
  {
    if a < b {
      assert (b - a) * d > 0.0;
    } else {
      assert (a - b) * d >= 0.0;
    }
  }

  // Tokens spent before any history.
  function Fixed(systemPrompt: string, summary: Option<SummaryBlock>): nat
  {
    Count(systemPrompt) + SummaryTokens(summary)
  }

  // Which part of the live history is sent.
  ghost predicate Chosen(
    r: Renderer, live: seq<Message>, fixed: nat, tokenBudget: int, w: seq<Message>)
  {
    && (tokenBudget <= 0 ==> w == live)
    && (0 < tokenBudget <= fixed ==> w == [])
    && (0 < tokenBudget && fixed < tokenBudget ==> Windowed(r, live, tokenBudget - fixed, w))
  }

  // All that is sent, around the history w.
  ghost predicate SentAround(
    r: Renderer, systemPrompt: string, summary: Option<SummaryBlock>, names: Names, path: string,
    w: seq<Message>, messages: seq<Message>)
  {
    messages == Head(systemPrompt, summary) + EnrichedAll(r, w, names, path)
  }

  // What is sent of the history: nothing that a summary covers; without a budget, all the rest.
  ghost predicate LiveOnly(
    fullHistory: seq<Message>, summary: Option<SummaryBlock>, tokenBudget: int, w: seq<Message>)
  {
    && (forall m :: m in w ==> m in fullHistory)
    && (if summary.Some? && summary.value.boundary != EMPTY_ID then
          var bound := summary.value.boundary;
          && (forall m :: m in w ==> m.id > bound)
          && (tokenBudget <= 0 ==> forall m :: m in fullHistory && m.id > bound ==> m in w)
          && (tokenBudget <= 0 && Ordered(fullHistory) ==> exists k: nat :: IsTail(fullHistory, bound, k, w))
        else
          tokenBudget <= 0 ==> w == fullHistory)
  }

  ghost predicate IsTail(h: seq<Message>, bound: MessageId, k: nat, w: seq<Message>)
  {
    k <= |h| && w == h[k..] && forall i :: 0 <= i < |h| ==> (h[i].id > bound <==> i >= k)
  }

  lemma ChosenIsLive(
    r: Renderer, fullHistory: seq<Message>, summary: Option<SummaryBlock>, fixed: nat, tokenBudget: int,
    w: seq<Message>)
    requires Chosen(r, AfterBoundary(fullHistory, SummaryBoundary(summary)), fixed, tokenBudget, w)
    ensures LiveOnly(fullHistory, summary, tokenBudget, w)
  {
    hide Windowed, Newer, UpTo, Ordered;
    var bound := SummaryBoundary(summary);
    var live := AfterBoundary(fullHistory, bound);
    assert forall m :: m in w ==> m in live by {
      if 0 < tokenBudget && fixed < tokenBudget { WindowedIsLive(r, live, tokenBudget - fixed, w); }
    }
    forall m ensures bound != EMPTY_ID ==> (m in live <==> m in fullHistory && m.id > bound) {
      Members(fullHistory, bound, m);
    }
    if Ordered(fullHistory) && bound != EMPTY_ID && tokenBudget <= 0 {
      var k := Cut(fullHistory, bound);
      assert IsTail(fullHistory, bound, k, w);
    }
  }

  lemma WindowedIsLive(r: Renderer, live: seq<Message>, budget: int, w: seq<Message>)
    requires Windowed(r, live, budget, w)
    ensures |w| <= |live| && w == live[|live| - |w|..]
    ensures forall m :: m in w ==> m in live
  {
    hide Groups, Flatten, Cost;
    var start: nat :| IsWindow(r, live, budget, start, w);
    GroupsFlatten(live);
    FlattenConcat(Groups(live)[..start], Groups(live)[start..]);
    assert Groups(live)[..start] + Groups(live)[start..] == Groups(live);
    assert live == Flatten(Groups(live)[..start]) + w;
  }

  ghost predicate EndsWith(s: string, tail: string)
  {
    |tail| <= |s| && s[|s| - |tail|..] == tail
  }

  // The system prompt, the summary block if there is one, then the history message by message:
  // only contents are rewritten, and a live message keeps its own at the end.
  ghost predicate Layout(
    systemPrompt: string, summary: Option<SummaryBlock>, w: seq<Message>, messages: seq<Message>)
  {
    var n := if summary.Some? then 2 else 1;
    && |messages| == n + |w|
    && messages[0].role == System && messages[0].content == systemPrompt
    && (summary.Some? ==> messages[1].role == System && messages[1].content == summary.value.block)
    && (forall i :: 0 <= i < |w| ==> Carries(messages[n + i], w[i]))
  }

  // Only the content is rewritten, and a live message keeps its own at the end.
  ghost predicate Carries(sent: Message, m: Message)
  {
    sent == m.(content := sent.content) && (!m.evicted ==> EndsWith(sent.content, m.content))
  }

  lemma SentLayout(
    r: Renderer, systemPrompt: string, summary: Option<SummaryBlock>, names: Names, path: string, w: seq<Message>)
    ensures Layout(systemPrompt, summary, w, Head(systemPrompt, summary) + EnrichedAll(r, w, names, path))
  {
    hide Carries, EnrichedAll, Head;
    var head, e := Head(systemPrompt, summary), EnrichedAll(r, w, names, path);
    EnrichedByOne(r, w, names, path);
    Behind(head, e);
    HeadFirst(systemPrompt, summary);
  }

  lemma EnrichedByOne(r: Renderer, w: seq<Message>, names: Names, path: string)
    ensures var e := EnrichedAll(r, w, names, path);
      && |e| == |w|
      && forall i :: 0 <= i < |w| ==> Carries(e[i], w[i])
  {
    hide Enriched, Carries;
    forall i | 0 <= i < |w| ensures Carries(Enriched(r, w[i], names, path), w[i]) {
      EnrichedCarries(r, w[i], names, path);
    }
  }

  lemma EnrichedCarries(r: Renderer, m: Message, names: Names, path: string)
    ensures Carries(Enriched(r, m, names, path), m)
  {
    hide Enriched, EndsWith;
    EnrichedKeeps(r, m, names, path);
  }

  lemma Behind(head: seq<Message>, e: seq<Message>)
    ensures |head + e| == |head| + |e|
    ensures forall j :: 0 <= j < |head| ==> (head + e)[j] == head[j]
    ensures forall i :: 0 <= i < |e| ==> (head + e)[|head| + i] == e[i]
  {}

  lemma HeadFirst(systemPrompt: string, summary: Option<SummaryBlock>)
    ensures var head := Head(systemPrompt, summary);
      && |head| == (if summary.Some? then 2 else 1)
      && head[0] == SystemMessage(systemPrompt)
      && (summary.Some? ==> head[1] == SystemMessage(summary.value.block))
  {}

  // An evicted message is sent without its content, a live one with it.
  lemma EnrichedKeeps(r: Renderer, m: Message, names: Names, path: string)
    ensures var e := Enriched(r, m, names, path);
      && e == m.(content := e.content)
      && (!m.evicted ==> EndsWith(e.content, m.content))
      && (m.evicted ==>
            e.content == if m.role == Tool || (m.role == Assistant && m.content == "" && m.toolCalls == []) then ""
                         else ContextBlock(r, m, names, path))
      && (!m.evicted ==>
            e.content == if m.role == System || (m.role == Assistant && m.content == "") then m.content
                         else ContextBlock(r, m, names, path) + m.content)
  {
    hide ContextBlock;
  }

  // A signal goes out exactly under pressure, and names the latest message.
  ghost predicate Signals(
    r: Renderer, tokenBudget: int, threshold: Option<real>, current: MessageId, upTo: Option<MessageId>,
    w: seq<Message>, messages: seq<Message>, signal: Option<MessageId>)
  {
    var latest := if upTo.Some? && upTo.value != EMPTY_ID then upTo.value
                  else if w != [] then w[|w| - 1].id else current;
    signal ==
      if threshold.Some? && tokenBudget > 0 && latest != EMPTY_ID
         && Footprint(r, messages) as real >= threshold.value * tokenBudget as real
      then Some(latest) else None
  }

  // Budget soundness: all that is sent, against the budget.
  ghost predicate WithinBudget(
    r: Renderer, names: Names, path: string, tokenBudget: int, w: seq<Message>, messages: seq<Message>)
  {
    && Footprint(r, messages) <= tokenBudget + TotalSlack(r, w, names, path)
    && (path == DEFAULT_PATH && NoEvictedCalls(w) ==> Footprint(r, messages) <= tokenBudget + NamesPrice(r, w, names))
  }

  // First half of Build: cut, then window against what the fixed part leaves.
  method ChooseHistory(
    r: Renderer, systemPrompt: string, fullHistory: seq<Message>, summary: Option<SummaryBlock>, tokenBudget: int)
    returns (history: seq<Message>, fixed: nat)
    ensures fixed == Fixed(systemPrompt, summary)
    ensures Chosen(r, AfterBoundary(fullHistory, SummaryBoundary(summary)), fixed, tokenBudget, history)
    ensures LiveOnly(fullHistory, summary, tokenBudget, history)
  {
    var systemTokens := Count(systemPrompt);
    history := TrimHistoryAfterSummary(fullHistory, SummaryBoundary(summary));
    var summaryTokens := 0;
    if summary.Some? {
      summaryTokens := CountPromptFootprint(r, [SystemMessage(summary.value.block)]);
      SystemFootprint(r, summary.value.block);
    }
    fixed := systemTokens + summaryTokens;
    if tokenBudget > 0 {
      history := WindowHistoryWithBudget(r, history, tokenBudget - systemTokens - summaryTokens);
    }
    ChosenIsLive(r, fullHistory, summary, fixed, tokenBudget, history);
  }

  method Build(
    r: Renderer, systemPrompt: string, fullHistory: seq<Message>, summary: Option<SummaryBlock>,
    names: Names, path: string, tokenBudget: int, threshold: Option<real>,
    current: MessageId, upTo: Option<MessageId>)
    returns (messages: seq<Message>, signal: Option<MessageId>)
    ensures exists w ::
              && SentAround(r, systemPrompt, summary, names, path, w, messages)
              && Layout(systemPrompt, summary, w, messages)
              && LiveOnly(fullHistory, summary, tokenBudget, w)
              && Chosen(r, AfterBoundary(fullHistory, SummaryBoundary(summary)), Fixed(systemPrompt, summary),
                        tokenBudget, w)
              && (Fixed(systemPrompt, summary) < tokenBudget ==>
                    WithinBudget(r, names, path, tokenBudget, w, messages))
              && Signals(r, tokenBudget, threshold, current, upTo, w, messages, signal)
  {
    hide Layout, LiveOnly, AfterBoundary, Windowed, Head, EnrichedAll, Footprint, Fixed, TotalSlack, NamesPrice, Cost;
    hide NoEvictedCalls;
    var history, fixed := ChooseHistory(r, systemPrompt, fullHistory, summary, tokenBudget);
    var enriched := EnrichMessages(r, history, names, path);
    messages := Head(systemPrompt, summary) + enriched;
    var historyTokens := CountPromptFootprint(r, enriched);
    assert SentAround(r, systemPrompt, summary, names, path, history, messages);
    SentLayout(r, systemPrompt, summary, names, path, history);
    SentFits(r, systemPrompt, summary, history, names, path);
    if fixed < tokenBudget {
      BudgetHolds(r, systemPrompt, summary, AfterBoundary(fullHistory, SummaryBoundary(summary)), names, path,
                  tokenBudget, history);
    }
    signal := BuildCompactionSignal(fixed + historyTokens, tokenBudget, threshold, current, history, upTo);
  }

  lemma {:induction false} FootprintConcat(r: Renderer, a: seq<Message>, b: seq<Message>)
    ensures Footprint(r, a + b) == Footprint(r, a) + Footprint(r, b)
  {
    if b == [] {
      assert a + b == a;
    } else {
      var n := |b| - 1;
      assert (a + b)[..|a + b| - 1] == a + b[..n];
      FootprintConcat(r, a, b[..n]);
    }
  }

  lemma SystemFootprint(r: Renderer, content: string)
    ensures Footprint(r, [SystemMessage(content)]) == Count(content)
  {
    var m := SystemMessage(content);
    assert [m][..0] == [] && content + "" == content;
    assert CallsText(r, m) == "";
  }

  lemma HeadFootprint(r: Renderer, systemPrompt: string, summary: Option<SummaryBlock>)
    ensures Footprint(r, Head(systemPrompt, summary)) == Fixed(systemPrompt, summary)
  {
    SystemFootprint(r, systemPrompt);
    if summary.Some? {
      SystemFootprint(r, summary.value.block);
      FootprintConcat(r, [SystemMessage(systemPrompt)], [SystemMessage(summary.value.block)]);
    }
  }

  lemma WindowCost(r: Renderer, h: seq<Message>, budget: nat, w: seq<Message>)
    requires Windowed(r, h, budget, w)
    ensures Cost(r, w) <= budget
  {}

  lemma BudgetHolds(
    r: Renderer, systemPrompt: string, summary: Option<SummaryBlock>, live: seq<Message>, names: Names, path: string,
    tokenBudget: int, w: seq<Message>)
    requires Fixed(systemPrompt, summary) < tokenBudget
    requires Chosen(r, live, Fixed(systemPrompt, summary), tokenBudget, w)
    ensures WithinBudget(r, names, path, tokenBudget, w,
                         Head(systemPrompt, summary) + EnrichedAll(r, w, names, path))
  {
    hide Windowed, Head, EnrichedAll, Footprint, Fixed, TotalSlack, NamesPrice, Cost, NoEvictedCalls;
    SentFits(r, systemPrompt, summary, w, names, path);
    WindowCost(r, live, tokenBudget - Fixed(systemPrompt, summary), w);
    if NoEvictedCalls(w) { SlackIsNames(r, w, names); }
  }

  // ---------- when the budget holds ----------

  lemma OneGroup(m: Message)
    ensures Groups([m]) == [[m]] && Flatten(Groups([m])) == [m] && Flatten(Groups([m])[1..]) == []
  {
    assert [m][1..] == [] && [m][..1] == [m];
    assert GroupLength([m]) == 1;
    assert Groups([m]) == [[m]];
    assert [[m]][1..] == [] && [m] + Flatten([]) == [m];
  }

  lemma OneMessage(r: Renderer, m: Message, names: Names)
    ensures Cost(r, [m]) == MessageCost(r, m)
    ensures Footprint(r, EnrichedAll(r, [m], names, DEFAULT_PATH))
         == MessageFootprint(r, Enriched(r, m, names, DEFAULT_PATH))
  {
    hide Enriched, MessageFootprint, MessageCost;
    assert [m][..0] == [];
    var e := EnrichedAll(r, [m], names, DEFAULT_PATH);
    assert e[..0] == [] && e[0] == Enriched(r, m, names, DEFAULT_PATH);
  }

  // A single message is in the window exactly if its estimate fits.
  lemma OneWindow(r: Renderer, m: Message, budget: int)
    ensures Windowed(r, [m], budget, [m]) <==> MessageCost(r, m) <= budget
  {
    hide Groups, Flatten, MessageCost;
    OneGroup(m);
    OneMessage(r, m, map[]);
    assert Groups([m])[0..] == Groups([m]);
    if MessageCost(r, m) <= budget { assert IsWindow(r, [m], budget, 0, [m]); }
    if start: nat :| IsWindow(r, [m], budget, start, [m]) {
      assert start != 1;
    }
  }

  // What the sent message may have on top of what was counted: its name attribute and, for an
  // evicted turn, its encoded calls.
  function Uncounted(r: Renderer, m: Message, names: Names): nat
  {
    (if HasBlock(m) then |NameAttr(r, m, names)| else 0) + if m.evicted then |CallsText(r, m)| else 0
  }

  // A live message resolves no name; for an evicted one the rest costs no further token.
  predicate Covered(r: Renderer, m: Message, names: Names)
  {
    if m.evicted
    then var block := |ContextBlock(r, m, map[], DEFAULT_PATH)|;
         CountLength(block + Uncounted(r, m, names)) == CountLength(block)
    else Uncounted(r, m, names) == 0
  }

  ghost predicate WithinEstimate(r: Renderer, m: Message, names: Names)
  {
    MessageFootprint(r, Enriched(r, m, names, DEFAULT_PATH)) <= MessageCost(r, m)
  }

  lemma NamedBlock(r: Renderer, m: Message, names: Names)
    ensures |ContextBlock(r, m, names, DEFAULT_PATH)|
         == |ContextBlock(r, m, map[], DEFAULT_PATH)| + if HasBlock(m) then |NameAttr(r, m, names)| else 0
    ensures m.role != User ==> NameAttr(r, m, names) == ""
    ensures m.role != Assistant ==> CallsText(r, m) == ""
  {
    assert NameAttr(r, m, map[]) == "";
  }

  // An evicted message: what is sent and what is counted, by length.
  lemma EvictedLengths(r: Renderer, m: Message, names: Names)
    requires m.evicted
    ensures !Omitted(m) ==>
      var block := |ContextBlock(r, m, map[], DEFAULT_PATH)|;
      && MessageCost(r, m) == CountLength(block)
      && MessageFootprint(r, Enriched(r, m, names, DEFAULT_PATH)) == CountLength(block + Uncounted(r, m, names))
    ensures Omitted(m) ==>
      && MessageCost(r, m) == 0 && Uncounted(r, m, names) == 0
      && MessageFootprint(r, Enriched(r, m, names, DEFAULT_PATH)) == 0
  {
    hide ContextBlock, NameAttr;
    NamedBlock(r, m, names);
    FootprintIsLength(r, m, names, DEFAULT_PATH);
  }

  // A live message whose block carries a name.
  lemma NamedLengths(r: Renderer, m: Message, names: Names)
    requires !m.evicted && Uncounted(r, m, names) > 0
    ensures var block := |ContextBlock(r, m, map[], DEFAULT_PATH)|;
      && MessageCost(r, m) == CountLength(block + |m.content|)
      && MessageFootprint(r, Enriched(r, m, names, DEFAULT_PATH))
         == CountLength(block + |m.content| + Uncounted(r, m, names))
  {
    hide ContextBlock, NameAttr;
    NamedBlock(r, m, names);
    FootprintIsLength(r, m, names, DEFAULT_PATH);
  }

  lemma CoveredFits(r: Renderer, m: Message, names: Names)
    requires Covered(r, m, names)
    ensures WithinEstimate(r, m, names)
  {
    hide ContextBlock, NameAttr, CallsText, Enriched, MessageCost, MessageFootprint;
    if m.evicted {
      EvictedLengths(r, m, names);
    } else {
      GrowthIsName(r, m, names);
      MessageFits(r, m, names, DEFAULT_PATH);
    }
  }

  // A content that fills the last counted token of the message.
  function Filler(n: nat): (c: string)
    ensures (n + |c|) % 4 == 0
  {
    seq((4 - n % 4) % 4, i => 'x')
  }

  // The content for which the estimate of an uncovered message fails.
  function Worst(r: Renderer, m: Message): Message
  {
    m.(content := Filler(|ContextBlock(r, m, map[], DEFAULT_PATH)|))
  }

  // Some positive budget takes the message, and is exceeded by what is sent.
  ghost predicate Overruns(r: Renderer, m: Message, names: Names)
  {
    exists budget: nat ::
      budget > 0 && Windowed(r, [m], budget, [m])
      && Footprint(r, EnrichedAll(r, [m], names, DEFAULT_PATH)) > budget
  }

  lemma OverrunsWhen(r: Renderer, m: Message, names: Names)
    requires !WithinEstimate(r, m, names) && MessageCost(r, m) > 0
    ensures Overruns(r, m, names)
  {
    hide Footprint, EnrichedAll, Windowed, MessageCost, MessageFootprint, Enriched;
    OneMessage(r, m, names);
    OneWindow(r, m, MessageCost(r, m));
  }

  // A resolved user name is not counted: with that content the name costs another token.
  lemma NameOverruns(r: Renderer, m: Message, names: Names)
    requires !m.evicted && HasBlock(m) && NameAttr(r, m, names) != ""
    ensures !WithinEstimate(r, Worst(r, m), names) && Overruns(r, Worst(r, m), names)
  {
    hide ContextBlock, NameAttr, Enriched, MessageCost, MessageFootprint;
    var worst := Worst(r, m);
    SameBlock(r, m, worst.content, names);
    NamedLengths(r, worst, names);
    BlockNonEmpty(r, worst);
    OverrunsWhen(r, worst, names);
  }

  lemma SameBlock(r: Renderer, m: Message, content: string, names: Names)
    ensures var m' := m.(content := content);
      && ContextBlock(r, m', map[], DEFAULT_PATH) == ContextBlock(r, m, map[], DEFAULT_PATH)
      && NameAttr(r, m', names) == NameAttr(r, m, names) && CallsText(r, m') == CallsText(r, m)
  {
    BlockIgnoresContent(r, m, content, map[], DEFAULT_PATH);
    hide ContextBlock, Attr;
  }

  // The encoded calls of an evicted turn are not counted either.
  lemma EvictedCallsOverrun(r: Renderer, m: Message, names: Names)
    requires m.evicted && m.HasCalls() && m.id != EMPTY_ID && |CallsText(r, m)| >= 4
    ensures !WithinEstimate(r, m, names) && Overruns(r, m, names)
  {
    hide ContextBlock, NameAttr, CallsText, Enriched, MessageCost, MessageFootprint;
    EvictedLengths(r, m, names);
    BlockNonEmpty(r, m);
    OverrunsWhen(r, m, names);
  }

  // A message is within its estimate, whatever its content, exactly if it is covered.
  lemma EstimateHoldsExactly(r: Renderer, m: Message, names: Names)
    ensures (forall c :: WithinEstimate(r, m.(content := c), names)) <==> Covered(r, m, names)
  {
    hide WithinEstimate, ContextBlock, NameAttr, CallsText, CountLength;
    if Covered(r, m, names) {
      forall c ensures WithinEstimate(r, m.(content := c), names) {
        SameBlock(r, m, c, names);
        CoveredFits(r, m.(content := c), names);
      }
    } else {
      var worst := Worst(r, m);
      UncoveredFails(r, m, names);
      assert worst == m.(content := worst.content);
    }
  }

  lemma UncoveredFails(r: Renderer, m: Message, names: Names)
    requires !Covered(r, m, names)
    ensures !WithinEstimate(r, Worst(r, m), names)
    ensures m.id != EMPTY_ID ==> MessageCost(r, Worst(r, m)) > 0
  {
    hide ContextBlock, NameAttr, CallsText, Enriched, MessageCost, MessageFootprint;
    var worst := Worst(r, m);
    SameBlock(r, m, worst.content, names);
    if m.id != EMPTY_ID { BlockNonEmpty(r, worst); }
    if m.evicted {
      EvictedLengths(r, worst, names);
      CountSubadditive(|ContextBlock(r, m, map[], DEFAULT_PATH)|, Uncounted(r, m, names));
    } else {
      NameOverruns(r, m, names);
      NamedLengths(r, worst, names);
    }
  }

  lemma BlockNonEmpty(r: Renderer, m: Message)
    requires HasBlock(m)
    ensures ContextBlock(r, m, map[], DEFAULT_PATH) != ""
  {}

  // A window of covered messages is within its estimate.
  lemma {:induction false} CoveredWindowFits(r: Renderer, w: seq<Message>, names: Names)
    requires forall m | m in w :: Covered(r, m, names)
    ensures Footprint(r, EnrichedAll(r, w, names, DEFAULT_PATH)) <= Cost(r, w)
  {
    hide Enriched, MessageFootprint, MessageCost, Covered;
    if w == [] {
    } else {
      var n := |w| - 1;
      assert w[n] in w;
      CoveredWindowFits(r, w[..n], names);
      CoveredFits(r, w[n], names);
      EnrichedPrefix(r, w, n, names, DEFAULT_PATH);
    }
  }

  // So everything sent keeps within the budget, for any history, if its window is covered.
  lemma CoveredPromptFits(
    r: Renderer, systemPrompt: string, summary: Option<SummaryBlock>, live: seq<Message>, names: Names,
    tokenBudget: int, w: seq<Message>)
    requires forall m | m in w :: Covered(r, m, names)
    requires Fixed(systemPrompt, summary) < tokenBudget
    requires Chosen(r, live, Fixed(systemPrompt, summary), tokenBudget, w)
    ensures Footprint(r, Head(systemPrompt, summary) + EnrichedAll(r, w, names, DEFAULT_PATH)) <= tokenBudget
  {
    hide Windowed, Head, EnrichedAll, Footprint, Fixed, Cost, Covered, TotalSlack;
    SentFits(r, systemPrompt, summary, w, names, DEFAULT_PATH);
    WindowCost(r, live, tokenBudget - Fixed(systemPrompt, summary), w);
    CoveredWindowFits(r, w, names);
  }

  // The prompt around one message, against any budget its window meets.
  ghost predicate PromptFits(
    r: Renderer, systemPrompt: string, summary: Option<SummaryBlock>, m: Message, names: Names, tokenBudget: int)
  {
    var fixed := Fixed(systemPrompt, summary);
    fixed < tokenBudget && Chosen(r, [m], fixed, tokenBudget, [m]) ==>
      Footprint(r, Head(systemPrompt, summary) + EnrichedAll(r, [m], names, DEFAULT_PATH)) <= tokenBudget
  }

  // For a stored message: its prompt keeps within every budget, whatever its content, exactly if
  // it is covered.
  lemma BudgetHoldsExactly(
    r: Renderer, systemPrompt: string, summary: Option<SummaryBlock>, m: Message, names: Names)
    requires m.id != EMPTY_ID
    ensures (forall c, tokenBudget ::
               PromptFits(r, systemPrompt, summary, m.(content := c), names, tokenBudget))
            <==> Covered(r, m, names)
  {
    hide PromptFits, WithinEstimate;
    EstimateHoldsExactly(r, m, names);
    if Covered(r, m, names) {
      forall c, tokenBudget ensures PromptFits(r, systemPrompt, summary, m.(content := c), names, tokenBudget) {
        PromptFitsWhen(r, systemPrompt, summary, m.(content := c), names, tokenBudget);
      }
    } else {
      var worst := Worst(r, m);
      UncoveredFails(r, m, names);
      PromptOverruns(r, systemPrompt, summary, worst, names);
      assert worst == m.(content := worst.content);
    }
  }

  lemma PromptLengths(
    r: Renderer, systemPrompt: string, summary: Option<SummaryBlock>, m: Message, names: Names, tokenBudget: int)
    ensures Footprint(r, Head(systemPrompt, summary) + EnrichedAll(r, [m], names, DEFAULT_PATH))
         == Fixed(systemPrompt, summary) + MessageFootprint(r, Enriched(r, m, names, DEFAULT_PATH))
    ensures Fixed(systemPrompt, summary) < tokenBudget ==>
      (Chosen(r, [m], Fixed(systemPrompt, summary), tokenBudget, [m])
       <==> MessageCost(r, m) <= tokenBudget - Fixed(systemPrompt, summary))
  {
    hide Fixed, Head, EnrichedAll, MessageFootprint, MessageCost, Enriched, Windowed, Footprint;
    SentFits(r, systemPrompt, summary, [m], names, DEFAULT_PATH);
    OneMessage(r, m, names);
    OneWindow(r, m, tokenBudget - Fixed(systemPrompt, summary));
  }

  lemma PromptFitsWhen(
    r: Renderer, systemPrompt: string, summary: Option<SummaryBlock>, m: Message, names: Names, tokenBudget: int)
    requires WithinEstimate(r, m, names)
    ensures PromptFits(r, systemPrompt, summary, m, names, tokenBudget)
  {
    hide Fixed, Head, EnrichedAll, MessageFootprint, MessageCost, Enriched, Chosen, Footprint;
    PromptLengths(r, systemPrompt, summary, m, names, tokenBudget);
  }

  // The estimate does not overcount what it covers: a live message that is sent with its block,
  // and resolves no name, costs exactly what is sent.
  lemma EstimateIsSent(r: Renderer, m: Message, names: Names)
    requires !m.evicted && NameAttr(r, m, names) == ""
    requires m.role == User || m.role == Tool || (m.role == Assistant && m.content != "")
    ensures MessageFootprint(r, Enriched(r, m, names, DEFAULT_PATH)) == MessageCost(r, m)
  {
    hide NameAttr, CallsText, ContextBlock;
    NamedBlock(r, m, names);
    FootprintIsLength(r, m, names, DEFAULT_PATH);
  }

  // A budget that the message just meets, and its prompt exceeds.
  lemma PromptOverruns(
    r: Renderer, systemPrompt: string, summary: Option<SummaryBlock>, m: Message, names: Names)
    requires !WithinEstimate(r, m, names) && MessageCost(r, m) > 0
    ensures !PromptFits(r, systemPrompt, summary, m, names, Fixed(systemPrompt, summary) + MessageCost(r, m))
  {
    hide Fixed, Head, EnrichedAll, MessageFootprint, MessageCost, Enriched, Chosen, Footprint;
    PromptLengths(r, systemPrompt, summary, m, names, Fixed(systemPrompt, summary) + MessageCost(r, m));
  }

  // Everything sent costs at most the fixed part, the window's estimate and the slack.
  lemma SentFits(
    r: Renderer, systemPrompt: string, summary: Option<SummaryBlock>, w: seq<Message>, names: Names, path: string)
    ensures var sent := Head(systemPrompt, summary) + EnrichedAll(r, w, names, path);
            var fixed := Fixed(systemPrompt, summary);
            && Footprint(r, sent) == fixed + Footprint(r, EnrichedAll(r, w, names, path))
            && Footprint(r, sent) <= fixed + Cost(r, w) + TotalSlack(r, w, names, path)
  {
    HeadFootprint(r, systemPrompt, summary);
    FootprintConcat(r, Head(systemPrompt, summary), EnrichedAll(r, w, names, path));
    WindowFits(r, w, names, path);
  }
}
