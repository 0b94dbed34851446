/** Where a summary boundary meets the tool blocks of a history: compaction preserves a number of
    messages, not of blocks (internal/domain/service/compaction/service.go, prompt/render.go). */
module BlockBoundary {
  import opened Messages
  import opened Render
  import opened Window
  import opened History
  import opened Compaction
  import opened Conservation

  ghost predicate WellFormed(blocks: seq<seq<Message>>)
  {
    Blocks(blocks) && forall b: seq<Message> | b in blocks && Standalone(b) :: b[0].role != Tool
  }

  // k messages are a number of whole blocks.
  ghost predicate Aligned(blocks: seq<seq<Message>>, k: nat)
  {
    exists j: nat :: AtBlock(blocks, k, j)
  }

  ghost predicate AtBlock(blocks: seq<seq<Message>>, k: nat, j: nat)
  {
    j <= |blocks| && |Flatten(blocks[..j])| == k
  }

  // A tool result without the assistant turn that asked for it.
  ghost predicate Orphan(h: seq<Message>, k: nat)
  {
    k < |h| && h[k].role == Tool && forall i :: 0 <= i < k && h[i].HasCalls() ==> h[k].toolCallId !in h[i].CallIds()
  }

  ghost predicate HasOrphan(h: seq<Message>)
  {
    exists k: nat :: Orphan(h, k)
  }

  lemma FlattenLast(blocks: seq<seq<Message>>)
    requires blocks != []
    ensures var n := |blocks| - 1; Flatten(blocks) == Flatten(blocks[..n]) + blocks[n]
  {
    var n := |blocks| - 1;
    FlattenConcat(blocks[..n], [blocks[n]]);
    assert blocks[..n] + [blocks[n]] == blocks;
    assert Flatten([blocks[n]]) == blocks[n];
  }

  // The block that holds message k.
  lemma {:induction false} BlockOf(blocks: seq<seq<Message>>, k: nat) returns (b: nat, i: nat)
    requires k < |Flatten(blocks)|
    ensures b < |blocks| && i < |blocks[b]|
    ensures k == |Flatten(blocks[..b])| + i && Flatten(blocks)[k] == blocks[b][i]
  {
    var n := |blocks| - 1;
    FlattenLast(blocks);
    var before := |Flatten(blocks[..n])|;
    if k >= before {
      b, i := n, k - before;
    } else {
      b, i := BlockOf(blocks[..n], k);
      assert blocks[..n][..b] == blocks[..b];
    }
  }

  // Behind whole blocks, no result is an orphan.
  lemma AlignedHasNone(blocks: seq<seq<Message>>, k: nat)
    requires WellFormed(blocks) && Aligned(blocks, k)
    ensures k <= |Flatten(blocks)| && !HasOrphan(Flatten(blocks)[k..])
  {
    hide Flatten;
    var j: nat :| AtBlock(blocks, k, j);
    var rest := blocks[j..];
    FlattenConcat(blocks[..j], rest);
    assert blocks[..j] + rest == blocks;
    assert Flatten(blocks)[k..] == Flatten(rest);
    forall i: nat | i < |Flatten(rest)| && Flatten(rest)[i].role == Tool ensures !Orphan(Flatten(rest), i) {
      ResultHasCaller(rest, i);
    }
  }

  lemma ResultHasCaller(blocks: seq<seq<Message>>, k: nat)
    requires WellFormed(blocks) && k < |Flatten(blocks)| && Flatten(blocks)[k].role == Tool
    ensures !Orphan(Flatten(blocks), k)
  {
    hide Flatten, Standalone, ToolBlock;
    var h := Flatten(blocks);
    var b, first := FlattenMember(blocks, k);
    var block := blocks[b];
    assert block in blocks;
    SliceAt(h, first, first + |block|, k);
    SliceAt(h, first, first + |block|, first);
    ToolInBlock(block, k - first);
  }

  lemma WholeAligned(blocks: seq<seq<Message>>)
    ensures Aligned(blocks, |Flatten(blocks)|)
  {
    assert blocks[..|blocks|] == blocks;
    assert AtBlock(blocks, |Flatten(blocks)|, |blocks|);
  }

  // Inside a block, the first live message is one.
  lemma InsideHasOne(blocks: seq<seq<Message>>, k: nat)
    requires WellFormed(blocks) && k <= |Flatten(blocks)| && !Aligned(blocks, k)
    ensures k < |Flatten(blocks)| && Orphan(Flatten(blocks)[k..], 0)
  {
    hide Flatten;
    WholeAligned(blocks);
    var b, i := BlockOf(blocks, k);
    assert i == 0 ==> AtBlock(blocks, k, b);
    assert blocks[b] in blocks;
    assert blocks[b][1..][i - 1] == blocks[b][i];
  }

  // The live history has an orphaned result exactly if the boundary lies inside a block.
  lemma LiveOrphansExactly(blocks: seq<seq<Message>>, bound: MessageId)
    requires WellFormed(blocks) && Ordered(Flatten(blocks))
    ensures HasOrphan(AfterBoundary(Flatten(blocks), bound)) <==> !Aligned(blocks, |UpTo(Flatten(blocks), bound)|)
  {
    hide UpTo, Newer, Flatten, WellFormed, Aligned, HasOrphan;
    var h := Flatten(blocks);
    var k := Cut(h, bound);
    AfterIsNewer(h, bound);
    if Aligned(blocks, k) {
      AlignedHasNone(blocks, k);
    } else {
      InsideHasOne(blocks, k);
      OrphanHere(h[k..]);
    }
  }

  lemma OrphanHere(h: seq<Message>)
    requires Orphan(h, 0)
    ensures HasOrphan(h)
  {}

  // A window of that live history has one only then, and with budget enough it has one.
  lemma WindowOrphans(
    r: Renderer, blocks: seq<seq<Message>>, bound: MessageId, budget: int, start: nat, w: seq<Message>)
    requires WellFormed(blocks) && Ordered(Flatten(blocks))
    requires IsWindow(r, AfterBoundary(Flatten(blocks), bound), budget, start, w)
    ensures HasOrphan(w) ==> !Aligned(blocks, |UpTo(Flatten(blocks), bound)|)
    ensures start == 0 ==> (HasOrphan(w) <==> !Aligned(blocks, |UpTo(Flatten(blocks), bound)|))
  {
    hide UpTo, Newer, Flatten, WellFormed, Groups, HasOrphan, Cost;
    var h := Flatten(blocks);
    LiveOrphansExactly(blocks, bound);
    if start == 0 {
      var live := AfterBoundary(h, bound);
      GroupsFlatten(live);
      assert Groups(live)[0..] == Groups(live);
    } else if Aligned(blocks, |UpTo(h, bound)|) {
      WindowOfBlocks(r, blocks, bound, budget, start, w);
    }
  }

  lemma WindowOfBlocks(
    r: Renderer, blocks: seq<seq<Message>>, bound: MessageId, budget: int, start: nat, w: seq<Message>)
    requires WellFormed(blocks) && Ordered(Flatten(blocks)) && Aligned(blocks, |UpTo(Flatten(blocks), bound)|)
    requires IsWindow(r, AfterBoundary(Flatten(blocks), bound), budget, start, w)
    ensures !HasOrphan(w)
  {
    hide UpTo, Newer, Flatten, Groups, Cost, Standalone, ToolBlock;
    var h := Flatten(blocks);
    var k := Cut(h, bound);
    AfterIsNewer(h, bound);
    var j: nat :| AtBlock(blocks, k, j);
    FlattenConcat(blocks[..j], blocks[j..]);
    assert blocks[..j] + blocks[j..] == blocks;
    assert h[k..] == Flatten(blocks[j..]);
    GroupsAreBlocks(blocks[j..]);
    forall i: nat | i < |w| && w[i].role == Tool ensures !Orphan(w, i) {
      var caller := ResultsKeepTheirCall(r, blocks[j..], budget, start, w, i);
    }
  }

  // ---------- a compaction can put the boundary there ----------

  function CallName(i: nat): (id: string)
    ensures |id| == i
  {
    seq(i, _ => 'x')
  }

  // One assistant turn with n calls, and its results.
  function Turn(n: nat): Message
  {
    var calls := seq(n, i requires 0 <= i < n => ToolCall(CallName(i), "", ""));
    Message(1, "", Assistant, "", calls, "", [], EMPTY_ID, None, false)
  }

  function Answer(i: nat): Message
  {
    Message(i + 2, "", Tool, "", [], CallName(i), [], EMPTY_ID, None, false)
  }

  function Answers(n: nat): (results: seq<Message>)
    ensures |results| == n
  {
    seq(n, i requires 0 <= i < n => Answer(i))
  }

  lemma TurnIsBlock(n: nat)
    requires n > 0
    ensures ToolBlock([Turn(n)] + Answers(n))
    ensures Ordered([Turn(n)] + Answers(n)) && Dated([Turn(n)] + Answers(n))
  {
    hide DistinctResults, ResultIds;
    var block := [Turn(n)] + Answers(n);
    assert block[1..] == Answers(n);
    AnswersDistinct(n);
    AnswersComplete(n);
  }

  lemma AnswersDistinct(n: nat)
    ensures DistinctResults(Answers(n))
  {
    forall i, j | 0 <= i < j < n ensures Answers(n)[i].toolCallId != Answers(n)[j].toolCallId {
      assert |CallName(i)| != |CallName(j)|;
    }
  }

  lemma AnswersComplete(n: nat)
    ensures ResultIds(Answers(n)) == Turn(n).CallIds()
  {
    hide CallName;
    var answers, calls := Answers(n), Turn(n).toolCalls;
    forall i | 0 <= i < n ensures answers[i].toolCallId == calls[i].id == CallName(i) {}
    forall id ensures id in ResultIds(answers) <==> id in Turn(n).CallIds() {
      SameIds(answers, calls, id);
    }
  }

  lemma SameIds(answers: seq<Message>, calls: seq<ToolCall>, id: string)
    requires |answers| == |calls| && forall i :: 0 <= i < |calls| ==> answers[i].toolCallId == calls[i].id
    ensures id in ResultIds(answers) <==> id in set c | c in calls :: c.id
  {
    if id in ResultIds(answers) {
      var i :| 0 <= i < |answers| && answers[i].toolCallId == id;
      assert calls[i] in calls;
    }
    if c :| c in calls && c.id == id {
      var i :| 0 <= i < |calls| && calls[i] == c;
      assert answers[i] in answers;
    }
  }

  // For every number of preserved messages: a reachable state whose boundary lies inside a block,
  // so that the live history begins with a result whose call is summarised away.
  lemma BoundaryInsideBlock(preserve: int, c: ConvId)
    requires preserve > 0
    ensures exists s: State, blocks ::
      && Reached(preserve, s) && Log(s, c) == Flatten(blocks) && WellFormed(blocks)
      && HasOrphan(Live(s, c))
  {
    hide Reached, Turn, Answers, ToolBlock, UpTo, AfterBoundary, Ordered, Dated;
    var log := [Turn(preserve)] + Answers(preserve);
    var blocks := [log];
    TurnIsBlock(preserve);
    var s3, s := CompactionReached(preserve, c, log);
    assert Flatten(blocks) == log by { assert blocks[1..] == []; assert log + [] == log; }
    SummarisedOne(log, preserve);
    InsideOneBlock(log, 1);
    LiveOrphansExactly(blocks, Boundary(s, c));
  }

  lemma SummarisedOne(log: seq<Message>, preserve: nat)
    requires |log| == preserve + 1 && Ordered(log)
    ensures log[..|log| - preserve] == log[..1] && |UpTo(log, LastId(log[..1]))| == 1
  {
    hide UpTo;
    assert CutAt(log, log[0].id, 1);
    UpToCut(log, log[0].id, 1);
  }

  lemma InsideOneBlock(block: seq<Message>, k: nat)
    requires 0 < k < |block|
    ensures !Aligned([block], k)
  {
    assert [block][..0] == [] && [block][..1] == [block];
    assert Flatten([block]) == block;
  }
}
