/** The stream accumulator (pkg/plugins/llm/openai_compat/stream.go): chunks of an LLM answer put
    together, with tool calls arriving in pieces. */
module Accumulator {
  import opened Messages

  // One piece of a tool call.
  datatype Piece = Piece(index: int, id: string, name: string, arguments: string)

  datatype Choice = Choice(finishReason: string, content: string, pieces: seq<Piece>)

  datatype Usage = Usage(tokensIn: int, tokensOut: int)

  datatype Chunk = Chunk(choices: seq<Choice>, usage: Option<Usage>)

  datatype Response = Response(content: string, finishReason: string, usage: Usage, toolCalls: seq<ToolCall>)

  // ---------- what a stream says, read as a whole ----------

  // Only the first choice of a chunk counts.
  function ContentOf(chunks: seq<Chunk>): string
  {
    if chunks == [] then ""
    else
      var last := chunks[|chunks| - 1];
      ContentOf(chunks[..|chunks| - 1]) + if last.choices == [] then "" else last.choices[0].content
  }

  function PiecesOf(chunks: seq<Chunk>): seq<Piece>
  {
    if chunks == [] then []
    else
      var last := chunks[|chunks| - 1];
      PiecesOf(chunks[..|chunks| - 1]) + if last.choices == [] then [] else last.choices[0].pieces
  }

  // The last non-empty finish reason.
  function FinishOf(chunks: seq<Chunk>): string
  {
    if chunks == [] then ""
    else
      var last := chunks[|chunks| - 1];
      if last.choices != [] && last.choices[0].finishReason != "" then last.choices[0].finishReason
      else FinishOf(chunks[..|chunks| - 1])
  }

  // The last usage reported.
  function UsageOf(chunks: seq<Chunk>): Usage
  {
    if chunks == [] then Usage(0, 0)
    else if chunks[|chunks| - 1].usage.Some? then chunks[|chunks| - 1].usage.value
    else UsageOf(chunks[..|chunks| - 1])
  }

  // The call with the given index: last non-empty ID and name, all arguments in order.
  function CallOf(pieces: seq<Piece>, index: int): ToolCall
  {
    if pieces == [] then ToolCall("", "", "")
    else
      var before, p := CallOf(pieces[..|pieces| - 1], index), pieces[|pieces| - 1];
      if p.index == index then AddPiece(before, p) else before
  }

  function AddPiece(call: ToolCall, p: Piece): ToolCall
  {
    ToolCall(if p.id != "" then p.id else call.id, if p.name != "" then p.name else call.name,
             call.arguments + p.arguments)
  }

  function Indexes(pieces: seq<Piece>): set<int>
  {
    set p | p in pieces :: p.index
  }

  function Finished(call: ToolCall): ToolCall
  {
    if call.arguments == "" then call.(arguments := "{}") else call
  }

  // The calls kept: those with an index from 0 up to (not including) n.
  function KeptCalls(calls: map<int, ToolCall>, n: nat): seq<ToolCall>
  {
    if n == 0 then []
    else KeptCalls(calls, n - 1) + if n - 1 in calls then [Finished(calls[n - 1])] else []
  }

  function CallMap(pieces: seq<Piece>): (calls: map<int, ToolCall>)
    ensures calls.Keys == Indexes(pieces)
  {
    map i | i in Indexes(pieces) :: CallOf(pieces, i)
  }

  // The answer of a whole stream: a function of its contents, pieces, finish reasons and usage.
  function ResponseOf(chunks: seq<Chunk>): Response
  {
    var calls := CallMap(PiecesOf(chunks));
    Response(ContentOf(chunks), FinishOf(chunks), UsageOf(chunks), KeptCalls(calls, |calls|))
  }

  // ---------- the accumulator ----------

  class StreamAccumulator {
    var content: string
    var toolCalls: map<int, ToolCall>
    var finishReason: string
    var tokensIn: int
    var tokensOut: int
    ghost var seen: seq<Chunk>

    ghost predicate Valid()
      reads this
    {
      && content == ContentOf(seen)
      && toolCalls == CallMap(PiecesOf(seen))
      && finishReason == FinishOf(seen)
      && Usage(tokensIn, tokensOut) == UsageOf(seen)
    }

    constructor ()
      ensures Valid() && seen == []
    {
      content, toolCalls, finishReason, tokensIn, tokensOut := "", map[], "", 0, 0;
      seen := [];
      new;
      assert CallMap([]) == map[];
    }

    // The inner loop: the pieces of one choice.
    method AddPieces(pieces: seq<Piece>, ghost before: seq<Piece>)
      requires toolCalls == CallMap(before)
      modifies this`toolCalls
      ensures toolCalls == CallMap(before + pieces)
    {
      hide CallMap;
      assert before + pieces[..0] == before;
      for i := 0 to |pieces|
        invariant toolCalls == CallMap(before + pieces[..i])
      {
        var tc := pieces[i];
        CallMapStep(before + pieces[..i], tc);
        assert before + pieces[..i + 1] == before + pieces[..i] + [tc];
        var existing := if tc.index in toolCalls then toolCalls[tc.index] else ToolCall("", "", "");
        if tc.id != "" { existing := existing.(id := tc.id); }
        if tc.name != "" { existing := existing.(name := tc.name); }
        existing := existing.(arguments := existing.arguments + tc.arguments);
        toolCalls := toolCalls[tc.index := existing];
      }
      assert pieces[..|pieces|] == pieces;
    }

    method ProcessChunk(chunk: Chunk)
      requires Valid()
      modifies this
      ensures Valid() && seen == old(seen) + [chunk]
    {
      hide CallMap, ContentOf, PiecesOf, FinishOf, UsageOf;
      SeenStep(seen, chunk);
      if |chunk.choices| != 0 {
        var choice := chunk.choices[0];
        if choice.finishReason != "" {
          finishReason := choice.finishReason;
        }
        if choice.content != "" {
          content := content + choice.content;
        } else {
          assert content + choice.content == content;
        }
        AddPieces(choice.pieces, PiecesOf(seen));
      }
      // Usage comes alone in a last chunk, or with choices.
      if chunk.usage.Some? {
        tokensIn := chunk.usage.value.tokensIn;
        tokensOut := chunk.usage.value.tokensOut;
      }
      seen := seen + [chunk];
    }

    // result also writes the default arguments back into the calls it returns.
    method Result() returns (resp: Response)
      requires Valid()
      modifies this`toolCalls
      ensures resp == ResponseOf(seen)
      ensures toolCalls == map i | i in old(toolCalls) ::
                if 0 <= i < |old(toolCalls)| then Finished(old(toolCalls)[i]) else old(toolCalls)[i]
    {
      hide CallMap, ContentOf, PiecesOf, FinishOf, UsageOf;
      var calls: seq<ToolCall> := [];
      var n := |toolCalls|;
      for i := 0 to n
        invariant calls == KeptCalls(old(toolCalls), i)
        invariant toolCalls == map k | k in old(toolCalls) ::
                    if 0 <= k < i then Finished(old(toolCalls)[k]) else old(toolCalls)[k]
      {
        if i in toolCalls {
          var tc := toolCalls[i];
          if tc.arguments == "" {
            tc := tc.(arguments := "{}");
            toolCalls := toolCalls[i := tc];
          }
          calls := calls + [tc];
        }
      }
      resp := Response(content, finishReason, Usage(tokensIn, tokensOut), calls);
    }
  }

  lemma SeenStep(chunks: seq<Chunk>, chunk: Chunk)
    ensures ContentOf(chunks + [chunk])
         == if chunk.choices == [] then ContentOf(chunks) else ContentOf(chunks) + chunk.choices[0].content
    ensures PiecesOf(chunks + [chunk])
         == if chunk.choices == [] then PiecesOf(chunks) else PiecesOf(chunks) + chunk.choices[0].pieces
    ensures FinishOf(chunks + [chunk])
         == if chunk.choices != [] && chunk.choices[0].finishReason != "" then chunk.choices[0].finishReason
            else FinishOf(chunks)
    ensures UsageOf(chunks + [chunk]) == if chunk.usage.Some? then chunk.usage.value else UsageOf(chunks)
  {
    assert (chunks + [chunk])[..|chunks|] == chunks;
    assert ContentOf(chunks) + "" == ContentOf(chunks) && PiecesOf(chunks) + [] == PiecesOf(chunks);
  }

  // One piece more.
  function WithPiece(calls: map<int, ToolCall>, p: Piece): map<int, ToolCall>
  {
    calls[p.index := AddPiece(if p.index in calls then calls[p.index] else ToolCall("", "", ""), p)]
  }

  lemma CallMapStep(pieces: seq<Piece>, p: Piece)
    ensures CallMap(pieces + [p]) == WithPiece(CallMap(pieces), p)
  {
    assert (pieces + [p])[..|pieces|] == pieces;
    assert Indexes(pieces + [p]) == Indexes(pieces) + {p.index};
    if p.index !in Indexes(pieces) { CallOfUnseen(pieces, p.index); }
  }

  lemma {:induction false} CallOfUnseen(pieces: seq<Piece>, index: int)
    requires index !in Indexes(pieces)
    ensures CallOf(pieces, index) == ToolCall("", "", "")
  {
    if pieces == [] {
    } else {
      var n := |pieces| - 1;
      assert pieces[n] in pieces;
      assert forall p :: p in pieces[..n] ==> p in pieces;
      CallOfUnseen(pieces[..n], index);
    }
  }

  // ---------- which calls are kept ----------

  lemma {:induction false} PrefixKept(calls: map<int, ToolCall>, n: nat)
    requires forall i :: 0 <= i < n ==> i in calls
    ensures |KeptCalls(calls, n)| == n
    ensures forall i :: 0 <= i < n ==> KeptCalls(calls, n)[i] == Finished(calls[i])
  {
    if n == 0 {
    } else {
      PrefixKept(calls, n - 1);
    }
  }

  function FirstIndexes(n: nat): (indexes: set<int>)
    ensures forall i :: i in indexes <==> 0 <= i < n
  {
    if n == 0 then {} else FirstIndexes(n - 1) + {n - 1}
  }

  lemma {:induction false} FirstIndexesCount(n: nat)
    ensures |FirstIndexes(n)| == n
  {
    if n == 0 {
    } else {
      FirstIndexesCount(n - 1);
    }
  }

  // All seen indexes are 0..n-1: the response has every call, in index order.
  lemma DenseCallsKept(chunks: seq<Chunk>, n: nat)
    requires Indexes(PiecesOf(chunks)) == FirstIndexes(n)
    ensures var kept := ResponseOf(chunks).toolCalls;
            && |kept| == n
            && forall i :: 0 <= i < n ==> kept[i] == Finished(CallOf(PiecesOf(chunks), i))
  {
    hide KeptCalls, PiecesOf, CallOf;
    var calls := CallMap(PiecesOf(chunks));
    FirstIndexesCount(n);
    assert |calls| == |calls.Keys|;
    PrefixKept(calls, n);
  }

  // In any case exactly the calls with an index below the number of distinct indexes are kept,
  // once each and in index order: positions is where each kept call came from.
  lemma {:induction false} KeptExactly(calls: map<int, ToolCall>, n: nat) returns (positions: seq<int>)
    ensures |positions| == |KeptCalls(calls, n)|
    ensures forall i, j :: 0 <= i < j < |positions| ==> positions[i] < positions[j]
    ensures forall k :: k in positions <==> 0 <= k < n && k in calls
    ensures forall i :: 0 <= i < |positions| ==>
              positions[i] in calls && KeptCalls(calls, n)[i] == Finished(calls[positions[i]])
  {
    if n == 0 {
      positions := [];
    } else {
      var before := KeptExactly(calls, n - 1);
      positions := before;
      if n - 1 in calls {
        positions := before + [n - 1];
        assert forall i :: 0 <= i < |before| ==> before[i] in before;
      }
    }
  }

  // ---------- the answer does not depend on how it was cut into chunks ----------

  // Two chunks of one choice each, as one.
  function Merge(a: Choice, ua: Option<Usage>, b: Choice, ub: Option<Usage>): Chunk
  {
    Chunk([Choice(if b.finishReason != "" then b.finishReason else a.finishReason,
                  a.content + b.content, a.pieces + b.pieces)],
          if ub.Some? then ub else ua)
  }

  // What one more stretch of chunks does to each part of the answer.
  ghost predicate SameSoFar(a: seq<Chunk>, b: seq<Chunk>)
  {
    && ContentOf(a) == ContentOf(b) && CallMap(PiecesOf(a)) == CallMap(PiecesOf(b))
    && FinishOf(a) == FinishOf(b) && UsageOf(a) == UsageOf(b)
  }

  lemma {:induction false} CallMapExtends(a: seq<Piece>, b: seq<Piece>, more: seq<Piece>)
    requires CallMap(a) == CallMap(b)
    ensures CallMap(a + more) == CallMap(b + more)
  {
    hide CallMap;
    if more == [] {
      assert a + more == a && b + more == b;
    } else {
      var n := |more| - 1;
      CallMapExtends(a, b, more[..n]);
      CallMapStep(a + more[..n], more[n]);
      CallMapStep(b + more[..n], more[n]);
      assert a + more == a + more[..n] + [more[n]] && b + more == b + more[..n] + [more[n]];
    }
  }

  lemma {:induction false} SameExtends(a: seq<Chunk>, b: seq<Chunk>, more: seq<Chunk>)
    requires SameSoFar(a, b)
    ensures SameSoFar(a + more, b + more)
  {
    hide CallMap, ContentOf, PiecesOf, FinishOf, UsageOf;
    if more == [] {
      assert a + more == a && b + more == b;
    } else {
      var n := |more| - 1;
      var c := more[n];
      SameExtends(a, b, more[..n]);
      assert a + more == a + more[..n] + [c] && b + more == b + more[..n] + [c];
      SeenStep(a + more[..n], c);
      SeenStep(b + more[..n], c);
      if c.choices != [] {
        CallMapExtends(PiecesOf(a + more[..n]), PiecesOf(b + more[..n]), c.choices[0].pieces);
      }
    }
  }

  lemma SameResponse(a: seq<Chunk>, b: seq<Chunk>)
    requires SameSoFar(a, b)
    ensures ResponseOf(a) == ResponseOf(b)
  {}

  // ---------- the answer depends on each call's parts only ----------

  // The last non-empty ID and name of a call, and all its arguments.
  function IdOf(pieces: seq<Piece>, index: int): string
  {
    if pieces == [] then ""
    else
      var p := pieces[|pieces| - 1];
      if p.index == index && p.id != "" then p.id else IdOf(pieces[..|pieces| - 1], index)
  }

  function NameOf(pieces: seq<Piece>, index: int): string
  {
    if pieces == [] then ""
    else
      var p := pieces[|pieces| - 1];
      if p.index == index && p.name != "" then p.name else NameOf(pieces[..|pieces| - 1], index)
  }

  function ArgumentsOf(pieces: seq<Piece>, index: int): string
  {
    if pieces == [] then ""
    else
      var p := pieces[|pieces| - 1];
      ArgumentsOf(pieces[..|pieces| - 1], index) + if p.index == index then p.arguments else ""
  }

  lemma {:induction false} CallParts(pieces: seq<Piece>, index: int)
    ensures CallOf(pieces, index)
         == ToolCall(IdOf(pieces, index), NameOf(pieces, index), ArgumentsOf(pieces, index))
  {
    if pieces == [] {
    } else {
      CallParts(pieces[..|pieces| - 1], index);
    }
  }

  // Same indexes, and for each of them the same ID, name and concatenated arguments.
  ghost predicate SameParts(a: seq<Piece>, b: seq<Piece>)
  {
    && Indexes(a) == Indexes(b)
    && forall i :: i in Indexes(a) ==>
         IdOf(a, i) == IdOf(b, i) && NameOf(a, i) == NameOf(b, i) && ArgumentsOf(a, i) == ArgumentsOf(b, i)
  }

  lemma SamePartsSameCalls(a: seq<Piece>, b: seq<Piece>)
    requires SameParts(a, b)
    ensures CallMap(a) == CallMap(b)
  {
    hide CallOf, IdOf, NameOf, ArgumentsOf;
    forall i | i in Indexes(a) ensures CallOf(a, i) == CallOf(b, i) {
      CallParts(a, i);
      CallParts(b, i);
    }
  }

  // However a stream is cut: content, finish reason, usage and the parts of each call decide.
  lemma FragmentationInvariant(a: seq<Chunk>, b: seq<Chunk>)
    requires ContentOf(a) == ContentOf(b) && FinishOf(a) == FinishOf(b) && UsageOf(a) == UsageOf(b)
    requires SameParts(PiecesOf(a), PiecesOf(b))
    ensures ResponseOf(a) == ResponseOf(b)
  {
    hide SameParts, CallMap, PiecesOf;
    SamePartsSameCalls(PiecesOf(a), PiecesOf(b));
  }

  // The pieces of one call, in the order they arrive.
  function PiecesAt(pieces: seq<Piece>, index: int): seq<Piece>
  {
    if pieces == [] then []
    else
      var p := pieces[|pieces| - 1];
      PiecesAt(pieces[..|pieces| - 1], index) + if p.index == index then [p] else []
  }

  lemma CallSnoc(pieces: seq<Piece>, p: Piece, index: int)
    requires p.index == index
    ensures CallOf(pieces + [p], index) == AddPiece(CallOf(pieces, index), p)
  {
    assert (pieces + [p])[..|pieces|] == pieces;
  }

  lemma {:induction false} PartsAt(pieces: seq<Piece>, index: int)
    ensures CallOf(pieces, index) == CallOf(PiecesAt(pieces, index), index)
    ensures index in Indexes(pieces) <==> PiecesAt(pieces, index) != []
  {
    if pieces == [] {
    } else {
      var init, p := pieces[..|pieces| - 1], pieces[|pieces| - 1];
      PartsAt(init, index);
      assert pieces == init + [p];
      var before := PiecesAt(init, index);
      assert before + [] == before;
      if p.index == index { CallSnoc(before, p, index); }
    }
  }

  // Pieces of different calls may be interleaved in any way, over any chunks.
  lemma InterleavingSame(a: seq<Chunk>, b: seq<Chunk>)
    requires ContentOf(a) == ContentOf(b) && FinishOf(a) == FinishOf(b) && UsageOf(a) == UsageOf(b)
    requires forall i :: PiecesAt(PiecesOf(a), i) == PiecesAt(PiecesOf(b), i)
    ensures ResponseOf(a) == ResponseOf(b)
  {
    hide PiecesOf, CallOf, PiecesAt, Indexes;
    forall i
      ensures i in Indexes(PiecesOf(a)) <==> i in Indexes(PiecesOf(b))
      ensures CallOf(PiecesOf(a), i) == CallOf(PiecesOf(b), i)
    {
      PartsAt(PiecesOf(a), i);
      PartsAt(PiecesOf(b), i);
    }
    assert CallMap(PiecesOf(a)) == CallMap(PiecesOf(b));
  }

  lemma TwoMore<T>(s: seq<T>, x: T, y: T)
    ensures s + [x, y] == s + [x] + [y]
  {}

  lemma Regroup<T>(a: seq<T>, b: seq<T>, c: seq<T>)
    ensures a + (b + c) == a + b + c
  {}

  lemma MergedSame(before: seq<Chunk>, a: Choice, ua: Option<Usage>, b: Choice, ub: Option<Usage>)
    ensures SameSoFar(before + [Chunk([a], ua)] + [Chunk([b], ub)], before + [Merge(a, ua, b, ub)])
  {
    hide CallMap, ContentOf, PiecesOf, FinishOf, UsageOf;
    SeenStep(before, Chunk([a], ua));
    SeenStep(before + [Chunk([a], ua)], Chunk([b], ub));
    SeenStep(before, Merge(a, ua, b, ub));
    Regroup(ContentOf(before), a.content, b.content);
    Regroup(PiecesOf(before), a.pieces, b.pieces);
  }

  // Splitting a chunk in two, anywhere in a stream, leaves the answer as it is.
  lemma SplitChunkSame(
    before: seq<Chunk>, a: Choice, ua: Option<Usage>, b: Choice, ub: Option<Usage>, after: seq<Chunk>)
    ensures ResponseOf(before + [Chunk([a], ua), Chunk([b], ub)] + after)
         == ResponseOf(before + [Merge(a, ua, b, ub)] + after)
  {
    hide SameSoFar, ResponseOf, Merge;
    TwoMore(before, Chunk([a], ua), Chunk([b], ub));
    MergedSame(before, a, ua, b, ub);
    SameExtends(before + [Chunk([a], ua), Chunk([b], ub)], before + [Merge(a, ua, b, ub)], after);
    SameResponse(before + [Chunk([a], ua), Chunk([b], ub)] + after, before + [Merge(a, ua, b, ub)] + after);
  }

  lemma TwoPieces(before: seq<Piece>, p: Piece, q: Piece)
    ensures CallMap(before + [p, q]) == WithPiece(WithPiece(CallMap(before), p), q)
  {
    hide CallMap, WithPiece;
    TwoMore(before, p, q);
    CallMapStep(before, p);
    CallMapStep(before + [p], q);
  }

  lemma PiecesJoin(calls: map<int, ToolCall>, p: Piece, arguments: string)
    ensures WithPiece(WithPiece(calls, p), Piece(p.index, "", "", arguments))
         == WithPiece(calls, p.(arguments := p.arguments + arguments))
  {
    var call := if p.index in calls then calls[p.index] else ToolCall("", "", "");
    Regroup(call.arguments, p.arguments, arguments);
  }

  lemma SplitPieceCalls(before: seq<Piece>, p: Piece, arguments: string, after: seq<Piece>)
    ensures CallMap(before + [p, Piece(p.index, "", "", arguments)] + after)
         == CallMap(before + [p.(arguments := p.arguments + arguments)] + after)
  {
    hide CallMap, WithPiece;
    var more, whole := Piece(p.index, "", "", arguments), p.(arguments := p.arguments + arguments);
    TwoPieces(before, p, more);
    CallMapStep(before, whole);
    PiecesJoin(CallMap(before), p, arguments);
    CallMapExtends(before + [p, more], before + [whole], after);
  }

  lemma PiecesCommute(calls: map<int, ToolCall>, p: Piece, q: Piece)
    requires p.index != q.index
    ensures WithPiece(WithPiece(calls, p), q) == WithPiece(WithPiece(calls, q), p)
  {
    hide AddPiece;
  }

  lemma SwapPieceCalls(before: seq<Piece>, p: Piece, q: Piece, after: seq<Piece>)
    requires p.index != q.index
    ensures CallMap(before + [p, q] + after) == CallMap(before + [q, p] + after)
  {
    hide CallMap, WithPiece;
    TwoPieces(before, p, q);
    TwoPieces(before, q, p);
    PiecesCommute(CallMap(before), p, q);
    CallMapExtends(before + [p, q], before + [q, p], after);
  }

  // Choices that add up to the same calls can replace each other anywhere in a stream.
  lemma SameCallsSame(before: seq<Chunk>, choice: Choice, pieces: seq<Piece>, u: Option<Usage>, after: seq<Chunk>)
    requires CallMap(PiecesOf(before) + choice.pieces) == CallMap(PiecesOf(before) + pieces)
    ensures ResponseOf(before + [Chunk([choice], u)] + after)
         == ResponseOf(before + [Chunk([choice.(pieces := pieces)], u)] + after)
  {
    hide CallMap, ContentOf, PiecesOf, FinishOf, UsageOf, ResponseOf;
    var one, other := Chunk([choice], u), Chunk([choice.(pieces := pieces)], u);
    SeenStep(before, one);
    SeenStep(before, other);
    SameExtends(before + [one], before + [other], after);
    SameResponse(before + [one] + after, before + [other] + after);
  }

  // So does splitting the arguments of one call over two pieces, anywhere in a chunk.
  lemma SplitPieceSame(
    before: seq<Chunk>, choice: Choice, pre: seq<Piece>, p: Piece, arguments: string, post: seq<Piece>,
    u: Option<Usage>, after: seq<Chunk>)
    requires choice.pieces == pre + [p.(arguments := p.arguments + arguments)] + post
    ensures ResponseOf(before + [Chunk([choice], u)] + after)
         == ResponseOf(before + [Chunk([choice.(pieces := pre + [p, Piece(p.index, "", "", arguments)] + post)], u)]
                       + after)
  {
    hide CallMap, PiecesOf, ResponseOf;
    var seen := PiecesOf(before);
    var whole, more := p.(arguments := p.arguments + arguments), Piece(p.index, "", "", arguments);
    SplitPieceCalls(seen + pre, p, arguments, post);
    Regroup4(seen, pre, [whole], post);
    Regroup4(seen, pre, [p, more], post);
    SameCallsSame(before, choice, pre + [p, more] + post, u, after);
  }

  lemma Regroup4<T>(a: seq<T>, b: seq<T>, c: seq<T>, d: seq<T>)
    ensures a + (b + c + d) == a + b + c + d
  {}

  // Pieces of different calls may arrive in either order.
  lemma SwapPiecesSame(
    before: seq<Chunk>, choice: Choice, pre: seq<Piece>, p: Piece, q: Piece, post: seq<Piece>,
    u: Option<Usage>, after: seq<Chunk>)
    requires p.index != q.index && choice.pieces == pre + [p, q] + post
    ensures ResponseOf(before + [Chunk([choice], u)] + after)
         == ResponseOf(before + [Chunk([choice.(pieces := pre + [q, p] + post)], u)] + after)
  {
    hide CallMap, PiecesOf, ResponseOf;
    SwapPieceCalls(PiecesOf(before) + pre, p, q, post);
    Regroup4(PiecesOf(before), pre, [p, q], post);
    Regroup4(PiecesOf(before), pre, [q, p], post);
    SameCallsSame(before, choice, pre + [q, p] + post, u, after);
  }

  // ---------- chunk by chunk ----------

  // What one chunk more does to the response, apart from its calls.
  lemma ChunkAdds(chunks: seq<Chunk>, chunk: Chunk)
    ensures var before, after := ResponseOf(chunks), ResponseOf(chunks + [chunk]);
      && after.content == before.content + (if chunk.choices == [] then "" else chunk.choices[0].content)
      && after.finishReason
         == (if chunk.choices != [] && chunk.choices[0].finishReason != "" then chunk.choices[0].finishReason
             else before.finishReason)
      && after.usage == (if chunk.usage.Some? then chunk.usage.value else before.usage)
    ensures ResponseOf([]) == Response("", "", Usage(0, 0), [])
  {
    hide CallMap, KeptCalls;
    SeenStep(chunks, chunk);
    NoCalls();
    assert ResponseOf(chunks).content + "" == ResponseOf(chunks).content;
  }

  lemma NoCalls()
    ensures PiecesOf([]) == [] && CallMap([]) == map[] && KeptCalls(map[], 0) == []
  {}

  // What one piece more does to the parts of a call.
  lemma PieceAdds(pieces: seq<Piece>, p: Piece, index: int)
    ensures IdOf(pieces + [p], index) == if p.index == index && p.id != "" then p.id else IdOf(pieces, index)
    ensures NameOf(pieces + [p], index) == if p.index == index && p.name != "" then p.name else NameOf(pieces, index)
    ensures ArgumentsOf(pieces + [p], index)
         == ArgumentsOf(pieces, index) + if p.index == index then p.arguments else ""
  {
    assert (pieces + [p])[..|pieces|] == pieces;
  }

  // The calls of a response, when the indexes seen are 0..n-1: ID, name and arguments as they were
  // put together, and an empty object where no arguments came.
  lemma CallsOfResponse(chunks: seq<Chunk>, n: nat, i: nat)
    requires Indexes(PiecesOf(chunks)) == FirstIndexes(n) && i < n
    ensures var pieces, kept := PiecesOf(chunks), ResponseOf(chunks).toolCalls;
      && |kept| == n && kept[i].id == IdOf(pieces, i) && kept[i].name == NameOf(pieces, i)
      && kept[i].arguments == if ArgumentsOf(pieces, i) == "" then "{}" else ArgumentsOf(pieces, i)
  {
    hide ResponseOf, CallOf, IdOf, NameOf, ArgumentsOf, PiecesOf;
    DenseCallsKept(chunks, n);
    CallParts(PiecesOf(chunks), i);
  }
}
