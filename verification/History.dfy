/** Cutting an ID-ordered history at a message ID. */
module History {
  import opened Messages

  function Newer(h: seq<Message>, bound: MessageId): seq<Message>
  {
    if h == [] then []
    else Newer(h[..|h| - 1], bound) + if h[|h| - 1].id > bound then [h[|h| - 1]] else []
  }

  function UpTo(h: seq<Message>, bound: MessageId): seq<Message>
  {
    if h == [] then []
    else UpTo(h[..|h| - 1], bound) + if h[|h| - 1].id <= bound then [h[|h| - 1]] else []
  }

  // What trimHistoryAfterSummary and trimSummarizedMessages keep: everything when there is no boundary.
  function AfterBoundary(h: seq<Message>, boundary: MessageId): seq<Message>
  {
    if boundary == EMPTY_ID then h else Newer(h, boundary)
  }

  // Non-empty IDs, strictly increasing.
  ghost predicate Ordered(h: seq<Message>)
  {
    && (forall i :: 0 <= i < |h| ==> h[i].id != EMPTY_ID)
    && (forall i, j :: 0 <= i < j < |h| ==> h[i].id < h[j].id)
  }

  ghost predicate CutAt(h: seq<Message>, bound: MessageId, k: nat)
  {
    k <= |h| && forall i :: 0 <= i < |h| ==> (h[i].id <= bound <==> i < k)
  }

  lemma FindCut(h: seq<Message>, bound: MessageId) returns (k: nat)
    requires Ordered(h)
    ensures CutAt(h, bound, k)
  {
    k := 0;
    while k < |h| && h[k].id <= bound
      invariant k <= |h|
      invariant forall i :: 0 <= i < k ==> h[i].id <= bound
    {
      k := k + 1;
    }
    assert k < |h| ==> forall i :: k < i < |h| ==> h[k].id < h[i].id;
  }

  // The two sides of a cut, without the last element and with it.
  lemma PrefixSides<T>(s: seq<T>, k: nat)
    requires k <= |s| && s != []
    ensures var n := |s| - 1;
      && (k == |s| ==> s[..n][..n] + [s[n]] == s[..k] && s[..n][n..] + [] == s[k..])
      && (k < |s| ==> s[..n][..k] + [] == s[..k] && s[..n][k..] + [s[n]] == s[k..])
  {}

  lemma {:induction false} UpToCut(h: seq<Message>, bound: MessageId, k: nat)
    requires CutAt(h, bound, k)
    ensures UpTo(h, bound) == h[..k]
  {
    if h == [] {
    } else {
      var n := |h| - 1;
      UpToCut(h[..n], bound, if k == |h| then n else k);
      PrefixSides(h, k);
    }
  }

  lemma {:induction false} NewerCut(h: seq<Message>, bound: MessageId, k: nat)
    requires CutAt(h, bound, k)
    ensures Newer(h, bound) == h[k..]
  {
    if h == [] {
    } else {
      var n := |h| - 1;
      NewerCut(h[..n], bound, if k == |h| then n else k);
      PrefixSides(h, k);
    }
  }

  lemma SidesOfCut(h: seq<Message>, bound: MessageId, k: nat)
    requires CutAt(h, bound, k)
    ensures UpTo(h, bound) == h[..k]
    ensures Newer(h, bound) == h[k..]
  {
    UpToCut(h, bound, k);
    NewerCut(h, bound, k);
  }

  // An ordered history is cut in two by any bound.
  lemma Cut(h: seq<Message>, bound: MessageId) returns (k: nat)
    requires Ordered(h)
    ensures CutAt(h, bound, k)
    ensures UpTo(h, bound) == h[..k]
    ensures Newer(h, bound) == h[k..]
  {
    k := FindCut(h, bound);
    SidesOfCut(h, bound, k);
  }

  lemma AfterIsNewer(h: seq<Message>, boundary: MessageId)
    requires Ordered(h)
    ensures AfterBoundary(h, boundary) == Newer(h, boundary)
  {
    var k := Cut(h, boundary);
  }

  lemma {:induction false} Members(h: seq<Message>, bound: MessageId, m: Message)
    ensures m in UpTo(h, bound) <==> m in h && m.id <= bound
    ensures m in Newer(h, bound) <==> m in h && m.id > bound
  {
    if h == [] {
    } else {
      var n := |h| - 1;
      Members(h[..n], bound, m);
      assert h == h[..n] + [h[n]];
    }
  }
}
