/** What one compaction covers (internal/domain/service/compaction/service.go). */
module Compaction {
  import opened Messages
  import opened History
  import opened Sections

  // ---------- trimSummarizedMessages and trimPreservedTail ----------

  method TrimSummarizedMessages(history: seq<Message>, latestSummary: Option<MessageId>)
    returns (trimmed: seq<Message>)
    ensures trimmed == AfterBoundary(history, if latestSummary.Some? then latestSummary.value else EMPTY_ID)
  {
    if latestSummary.None? || latestSummary.value == EMPTY_ID {
      return history;
    }
    trimmed := [];
    for i := 0 to |history|
      invariant trimmed == Newer(history[..i], latestSummary.value)
    {
      assert history[..i + 1][..i] == history[..i];
      if history[i].id == EMPTY_ID || history[i].id <= latestSummary.value {
        continue;
      }
      trimmed := trimmed + [history[i]];
    }
    assert history[..|history|] == history;
  }

  function TrimPreservedTail(history: seq<Message>, preserve: int): seq<Message>
  {
    if preserve <= 0 then history
    else if |history| <= preserve then []
    else history[..|history| - preserve]
  }

  // What a compaction with the given boundary summarises out of the stored messages up to `latest`.
  function Batch(log: seq<Message>, latest: MessageId, boundary: MessageId, preserve: int): seq<Message>
  {
    TrimPreservedTail(AfterBoundary(UpTo(log, latest), boundary), preserve)
  }

  function LastId(batch: seq<Message>): MessageId
    requires batch != []
  {
    batch[|batch| - 1].id
  }

  // The batch by positions: log[k..e], where k messages are summarised and n are in view.
  lemma BatchPositions(log: seq<Message>, latest: MessageId, boundary: MessageId, preserve: int)
    returns (k: nat, n: nat)
    requires Ordered(log) && preserve > 0
    ensures CutAt(log, latest, n) && UpTo(log, latest) == log[..n]
    ensures k <= n && AfterBoundary(log[..n], boundary) == log[k..n]
    ensures k < n ==> CutAt(log, boundary, k)
    ensures Batch(log, latest, boundary, preserve) == if n - k <= preserve then [] else log[k..n - preserve]
  {
    hide UpTo, Newer;
    n := Cut(log, latest);
    var prefix := log[..n];
    AfterIsNewer(prefix, boundary);
    k := Cut(prefix, boundary);
    assert prefix[k..] == log[k..n];
    if k < n {
      assert prefix[k].id > boundary;
      assert forall i :: n <= i < |log| ==> log[k].id < log[i].id;
    }
    if n - k > preserve {
      assert prefix[k..][..n - k - preserve] == log[k..n - preserve];
    }
  }

  // A batch continues the summarised part without gap or overlap, and leaves exactly
  // `preserve` messages of what it read behind the new boundary.
  lemma BatchContinues(log: seq<Message>, latest: MessageId, boundary: MessageId, preserve: int)
    requires Ordered(log) && preserve > 0
    ensures var batch := Batch(log, latest, boundary, preserve);
            batch != [] ==>
              && LastId(batch) > boundary
              && UpTo(log, LastId(batch)) == UpTo(log, boundary) + batch
              && |Newer(UpTo(log, latest), LastId(batch))| == preserve
    ensures var seen := AfterBoundary(UpTo(log, latest), boundary);
            Batch(log, latest, boundary, preserve) == [] <==> |seen| <= preserve
  {
    hide Batch, UpTo, Newer, AfterBoundary;
    var batch := Batch(log, latest, boundary, preserve);
    var k, n := BatchPositions(log, latest, boundary, preserve);
    if batch != [] {
      var e := n - preserve;
      assert LastId(batch) == log[e - 1].id;
      SidesOfCut(log, LastId(batch), e);
      SidesOfCut(log[..n], LastId(batch), e);
      SidesOfCut(log, boundary, k);
      assert log[..e] == log[..k] + batch;
    }
  }

  // ---------- Compact, run on its own ----------

  // What a stored summary says and how far it reaches.
  datatype Summary = Summary(content: string, boundary: MessageId)

  class Service {
    const preserveRecentMessages: int
    var summaries: seq<Summary> // per conversation, oldest first

    constructor (preserve: int)
      ensures preserveRecentMessages == preserve && summaries == []
    {
      preserveRecentMessages := preserve;
      summaries := [];
    }

    function LatestBoundary(): MessageId
      reads this
    {
      if summaries == [] then EMPTY_ID else summaries[|summaries| - 1].boundary
    }

    // log: the stored messages; reply: what the model answers (None: the call fails); the other
    // calls, in the order they are made: reading the summary and the history, rendering, saving.
    method Compact(
      log: seq<Message>, latest: MessageId, summaryRead: bool, historyRead: bool, rendered: bool,
      reply: Option<string>, saveOk: bool)
      returns (ok: bool)
      modifies this
      ensures var batch := Batch(log, latest, old(LatestBoundary()), preserveRecentMessages);
              && ok == (summaryRead && historyRead && (batch == [] || (rendered && reply.Some? && saveOk)))
              && summaries == old(summaries) +
                   if batch != [] && ok then [Summary(NormalizeSummary(reply.value, batch), LastId(batch))] else []
    {
      hide NormalizeSummary, UpTo, AfterBoundary;
      if !summaryRead {
        return false;
      }
      var latestSummary := None;
      if |summaries| > 0 {
        latestSummary := Some(summaries[|summaries| - 1].boundary);
      }
      if !historyRead {
        return false;
      }
      var history := UpTo(log, latest);
      history := TrimSummarizedMessages(history, latestSummary);
      history := TrimPreservedTail(history, preserveRecentMessages);
      if |history| == 0 {
        return true;
      }
      if !rendered || reply.None? {
        return false;
      }
      var normalized := WriteSummary(reply.value, history);
      if !saveOk {
        return false;
      }
      summaries := summaries + [Summary(normalized, history[|history| - 1].id)];
      ok := true;
    }
  }

  // Without a number to preserve, everything in view is summarised.
  lemma NothingPreserved(log: seq<Message>, latest: MessageId, boundary: MessageId, preserve: int)
    requires preserve <= 0
    ensures Batch(log, latest, boundary, preserve) == AfterBoundary(UpTo(log, latest), boundary)
  {}
}
