/** demuxStream (pkg/plugins/sandbox/docker/stream.go): Docker's multiplexed stream, under a cap. */
module Demux {

  type byte = b: int | 0 <= b < 256

  type bytes = seq<byte>

  datatype Frame = Frame(kind: byte, payload: bytes)

  // ---------- the frame header ----------

  const LIMIT := 0x1_0000_0000

  function Size(b0: byte, b1: byte, b2: byte, b3: byte): (n: nat)
    ensures n < LIMIT
  {
    ((b0 * 256 + b1) * 256 + b2) * 256 + b3
  }

  // binary.BigEndian.Uint32(header[4:8])
  function HeaderSize(header: bytes): (n: nat)
    requires |header| >= 8
    ensures n < LIMIT
  {
    Size(header[4], header[5], header[6], header[7])
  }

  // The 8-byte header of a frame.
  function Header(kind: byte, n: nat): (h: bytes)
    requires n < LIMIT
    ensures |h| == 8
  {
    [kind, 0, 0, 0, n / 0x100_0000, n / 0x1_0000 % 256, n / 256 % 256, n % 256]
  }

  lemma HeaderRoundTrip(kind: byte, n: nat)
    requires n < LIMIT
    ensures HeaderSize(Header(kind, n)) == n && Header(kind, n)[0] == kind
  {
    var q, p := n / 256, n / 0x1_0000;
    assert n == 256 * q + n % 256;
    assert q / 256 == p && q == 256 * p + q % 256;
    assert p / 256 == n / 0x100_0000 && p == 256 * (n / 0x100_0000) + p % 256;
  }

  function Encode(frames: seq<Frame>): bytes
    requires forall f :: f in frames ==> |f.payload| < LIMIT
  {
    if frames == [] then []
    else Header(frames[0].kind, |frames[0].payload|) + frames[0].payload + Encode(frames[1..])
  }

  // ---------- what the output should be ----------

  // The payload bytes, each with the stream it belongs to.
  datatype Tagged = Tagged(kind: byte, value: byte)

  function Tag(kind: byte, payload: bytes): (t: seq<Tagged>)
    ensures |t| == |payload|
  {
    seq(|payload|, i requires 0 <= i < |payload| => Tagged(kind, payload[i]))
  }

  function TagAll(frames: seq<Frame>): seq<Tagged>
  {
    if frames == [] then [] else Tag(frames[0].kind, frames[0].payload) + TagAll(frames[1..])
  }

  // The bytes of one stream.
  function Project(tagged: seq<Tagged>, kind: byte): bytes
  {
    if tagged == [] then []
    else (if tagged[0].kind == kind then [tagged[0].value] else []) + Project(tagged[1..], kind)
  }

  function Take<T>(s: seq<T>, n: nat): seq<T> { if |s| <= n then s else s[..n] }

  lemma {:induction false} ProjectConcat(a: seq<Tagged>, b: seq<Tagged>, kind: byte)
    ensures Project(a + b, kind) == Project(a, kind) + Project(b, kind)
  {
    if a == [] {
      assert a + b == b;
    } else {
      ConcatTail(a, b);
      ProjectConcat(a[1..], b, kind);
      Regroup(if a[0].kind == kind then [a[0].value] else [], Project(a[1..], kind), Project(b, kind));
    }
  }

  lemma Regroup<T>(a: seq<T>, b: seq<T>, c: seq<T>)
    ensures a + (b + c) == a + b + c
  {}

  lemma ConcatTail<T>(a: seq<T>, b: seq<T>)
    requires a != []
    ensures (a + b)[1..] == a[1..] + b && (a + b)[0] == a[0]
  {}

  lemma {:induction false} ProjectTag(tag: byte, payload: bytes, kind: byte)
    ensures Project(Tag(tag, payload), kind) == if tag == kind then payload else []
  {
    if payload == [] {
    } else {
      assert Tag(tag, payload)[1..] == Tag(tag, payload[1..]);
      ProjectTag(tag, payload[1..], kind);
      assert [payload[0]] + payload[1..] == payload;
    }
  }

  // ---------- what the decoder does, frame by frame ----------

  // Ok: the tagged bytes collected; Err: a header or a wanted payload is cut short.
  datatype Result = Ok(collected: seq<Tagged>) | Err

  function Min(a: nat, b: nat): nat { if a <= b then a else b }

  function Prepend(seen: seq<Tagged>, r: Result): Result
  {
    if r.Err? then Err else Ok(seen + r.collected)
  }

  function Decode(input: bytes, room: nat): Result
    decreases |input|
  {
    if input == [] then Ok([])
    else if |input| < 8 then Err
    else
      var size := HeaderSize(input);
      if |input| - 8 < Min(size, room) then Err
      else
        var taken := Tag(input[0], input[8..8 + Min(size, room)]);
        if size >= room then Ok(taken) // the cap is reached: the rest is drained
        else Prepend(taken, Decode(input[8 + size..], room - size))
  }

  lemma PrependTwice(a: seq<Tagged>, b: seq<Tagged>, r: Result)
    ensures Prepend(a, Prepend(b, r)) == Prepend(a + b, r)
    ensures Prepend([], r) == r
  {
    if r.Ok? {
      assert a + (b + r.collected) == a + b + r.collected;
      assert [] + r.collected == r.collected;
    }
  }

  // The two io.ReadFull calls of one round: the header at pos, and as much of the payload as fits.
  method ReadFrame(input: bytes, pos: nat, room: nat) returns (ok: bool, kind: byte, frameSize: nat, payload: bytes)
    requires pos < |input|
    ensures !ok ==> Decode(input[pos..], room) == Err
    ensures ok ==>
              && |payload| == Min(frameSize, room) <= |input| - pos - 8
              && Decode(input[pos..], room)
                 == if frameSize >= room then Ok(Tag(kind, payload))
                    else Prepend(Tag(kind, payload), Decode(input[pos + 8 + frameSize..], room - frameSize))
  {
    hide Tag, Prepend, HeaderSize;
    ghost var here := input[pos..];
    if |input| - pos < 8 {
      return false, 0, 0, [];
    }
    var header := input[pos..pos + 8];
    SameHeader(here, header);
    frameSize := HeaderSize(header);
    kind := header[0];
    var toRead := frameSize;
    if toRead > room { toRead := room; }
    if |input| - pos - 8 < toRead {
      return false, 0, 0, [];
    }
    payload := input[pos + 8..pos + 8 + toRead];
    assert payload == here[8..8 + toRead];
    assert frameSize < room ==> here[8 + frameSize..] == input[pos + 8 + frameSize..];
    ok := true;
  }

  // demuxStream over a reader that delivers `input` and then ends.
  method DemuxStream(input: bytes, maxBytes: nat) returns (ok: bool, stdout: bytes, stderr: bytes)
    ensures ok <==> Decode(input, maxBytes).Ok?
    ensures ok ==>
              && stdout == Project(Decode(input, maxBytes).collected, 1)
              && stderr == Project(Decode(input, maxBytes).collected, 2)
    ensures !ok ==> stdout == [] && stderr == []
  {
    hide Project, Tag, Decode, Prepend, Min;
    var pos, total := 0, 0;
    stdout, stderr := [], [];
    ghost var seen: seq<Tagged> := [];
    NothingSeen();
    PrependTwice([], [], Decode(input, maxBytes));
    assert input[0..] == input;
    while pos < |input|
      invariant 0 <= pos <= |input| && total <= maxBytes
      invariant Decode(input, maxBytes) == Prepend(seen, Decode(input[pos..], maxBytes - total))
      invariant stdout == Project(seen, 1) && stderr == Project(seen, 2)
      decreases |input| - pos
    {
      ghost var rest := Decode(input[pos..], maxBytes - total);
      var read, kind, frameSize, payload := ReadFrame(input, pos, maxBytes - total);
      if !read {
        PrependOk(seen, rest);
        return false, [], [];
      }
      if kind == 1 {
        stdout := stdout + payload;
      } else if kind == 2 {
        stderr := stderr + payload;
      }
      Collect(seen, kind, payload);
      MinBounds(frameSize, maxBytes - total);
      total := total + |payload|;
      if total >= maxBytes {
        PrependOk(seen, rest);
        return true, stdout, stderr;
      }
      PrependTwice(seen, Tag(kind, payload), Decode(input[pos + 8 + frameSize..], maxBytes - total));
      seen := seen + Tag(kind, payload);
      pos := pos + 8 + frameSize;
    }
    assert input[pos..] == [];
    EndOfInput(seen, maxBytes - total);
    ok := true;
  }

  lemma MinBounds(a: nat, b: nat)
    ensures Min(a, b) <= b && (a >= b <==> Min(a, b) >= b) && (a < b ==> Min(a, b) == a)
  {}

  lemma NothingSeen()
    ensures forall k: byte :: Project([], k) == []
  {}

  lemma PrependOk(seen: seq<Tagged>, r: Result)
    ensures Prepend(seen, r).Ok? <==> r.Ok?
    ensures r.Ok? ==> Prepend(seen, r).collected == seen + r.collected
  {}

  lemma EndOfInput(seen: seq<Tagged>, room: nat)
    ensures Prepend(seen, Decode([], room)) == Ok(seen)
  {
    assert seen + [] == seen;
  }

  lemma SameHeader(here: bytes, header: bytes)
    requires |here| >= 8 && header == here[..8]
    ensures HeaderSize(here) == HeaderSize(header) && here[0] == header[0]
  {}

  lemma Collect(seen: seq<Tagged>, kind: byte, payload: bytes)
    ensures forall k: byte ::
      Project(seen + Tag(kind, payload), k) == Project(seen, k) + if k == kind then payload else []
  {
    hide Project, Tag;
    forall k: byte
      ensures Project(seen + Tag(kind, payload), k) == Project(seen, k) + if k == kind then payload else []
    {
      ProjectConcat(seen, Tag(kind, payload), k);
      ProjectTag(kind, payload, k);
    }
  }

  // ---------- the decoder inverts the encoder, under the cap ----------

  lemma TakeConcat<T>(a: seq<T>, b: seq<T>, n: nat)
    ensures Take(a + b, n) == if n <= |a| then a[..n] else a + Take(b, n - |a|)
  {}

  lemma TagPrefix(kind: byte, payload: bytes, n: nat)
    requires n <= |payload|
    ensures Tag(kind, payload)[..n] == Tag(kind, payload[..n])
  {}

  // One frame in front of the rest.
  lemma DecodeFrame(f: Frame, rest: bytes, room: nat)
    requires |f.payload| < LIMIT
    ensures Decode(Header(f.kind, |f.payload|) + f.payload + rest, room)
         == if |f.payload| >= room then Ok(Tag(f.kind, f.payload)[..room])
            else Prepend(Tag(f.kind, f.payload), Decode(rest, room - |f.payload|))
  {
    hide Tag, HeaderSize, Header;
    var size, head := |f.payload|, Header(f.kind, |f.payload|);
    var input := head + f.payload + rest;
    assert input[..8] == head;
    SameHeader(input, head);
    HeaderRoundTrip(f.kind, size);
    assert input[8..8 + Min(size, room)] == f.payload[..Min(size, room)];
    TagPrefix(f.kind, f.payload, Min(size, room));
    assert size < room ==> input[8 + size..] == rest && f.payload[..size] == f.payload;
  }

  lemma {:induction false} DecodeEncode(frames: seq<Frame>, room: nat)
    requires forall f :: f in frames ==> |f.payload| < LIMIT
    ensures Decode(Encode(frames), room) == Ok(Take(TagAll(frames), room))
  {
    hide Tag, Header;
    if frames == [] {
    } else {
      var f := frames[0];
      hide Decode;
      DecodeFrame(f, Encode(frames[1..]), room);
      TakeConcat(Tag(f.kind, f.payload), TagAll(frames[1..]), room);
      if |f.payload| < room { DecodeEncode(frames[1..], room - |f.payload|); }
    }
  }

  // For every frame list and every cap: what comes out is the two projections of the first
  // maxBytes tagged payload bytes.
  lemma DemuxInvertsMux(frames: seq<Frame>, maxBytes: nat)
    requires forall f :: f in frames ==> |f.payload| < LIMIT
    ensures var r := Decode(Encode(frames), maxBytes);
            && r.Ok?
            && Project(r.collected, 1) == Project(Take(TagAll(frames), maxBytes), 1)
            && Project(r.collected, 2) == Project(Take(TagAll(frames), maxBytes), 2)
  {
    DecodeEncode(frames, maxBytes);
  }

  // On arbitrary bytes the output never exceeds the cap.
  lemma {:induction false} DecodeBounded(input: bytes, room: nat)
    ensures Decode(input, room).Ok? ==> |Decode(input, room).collected| <= room
    decreases |input|
  {
    if |input| >= 8 && HeaderSize(input) < room && |input| - 8 >= HeaderSize(input) {
      DecodeBounded(input[8 + HeaderSize(input)..], room - HeaderSize(input));
    }
  }

  lemma {:induction false} ProjectionsDisjoint(tagged: seq<Tagged>)
    ensures |Project(tagged, 1)| + |Project(tagged, 2)| <= |tagged|
  {
    if tagged == [] {
    } else {
      ProjectionsDisjoint(tagged[1..]);
    }
  }

  lemma CombinedOutputBounded(input: bytes, maxBytes: nat)
    ensures var r := Decode(input, maxBytes);
            r.Ok? ==> |Project(r.collected, 1)| + |Project(r.collected, 2)| <= maxBytes
  {
    hide Decode;
    var r := Decode(input, maxBytes);
    DecodeBounded(input, maxBytes);
    if r.Ok? { ProjectionsDisjoint(r.collected); }
  }

  // What stands behind complete frames is decoded exactly if the cap was not reached before it.
  lemma {:induction false} BehindFrames(frames: seq<Frame>, tail: bytes, maxBytes: nat)
    requires forall f :: f in frames ==> |f.payload| < LIMIT
    ensures var n := |TagAll(frames)|;
            Decode(Encode(frames) + tail, maxBytes).Err?
            <==> (frames == [] || n < maxBytes) && Decode(tail, if n >= maxBytes then 0 else maxBytes - n).Err?
    decreases |frames|
  {
    hide Tag, Header, Decode;
    if frames == [] {
      assert Encode(frames) + tail == tail;
    } else {
      var f := frames[0];
      var n := |f.payload|;
      var rest := Encode(frames[1..]) + tail;
      assert Encode(frames) + tail == Header(f.kind, n) + f.payload + rest;
      DecodeFrame(f, rest, maxBytes);
      if n < maxBytes { BehindFrames(frames[1..], tail, maxBytes - n); }
    }
  }

  // A stream cut inside a payload is an error exactly if the cap wanted more of that payload; cut
  // beyond the cap it is still accepted.
  lemma TruncatedFrame(frames: seq<Frame>, kind: byte, payload: bytes, size: nat, maxBytes: nat)
    requires forall f :: f in frames ==> |f.payload| < LIMIT
    requires |payload| < size < LIMIT
    ensures var n := |TagAll(frames)|;
            Decode(Encode(frames) + Header(kind, size) + payload, maxBytes).Err?
            <==> |payload| < Min(size, if n >= maxBytes then 0 else maxBytes - n)
                 && (frames == [] || n < maxBytes)
  {
    hide Tag, HeaderSize, Header, TagAll;
    var tail := Header(kind, size) + payload;
    assert Encode(frames) + Header(kind, size) + payload == Encode(frames) + tail;
    BehindFrames(frames, tail, maxBytes);
    assert tail[..8] == Header(kind, size);
    SameHeader(tail, Header(kind, size));
    HeaderRoundTrip(kind, size);
  }

  // Cut inside a header, it is an error exactly if the cap was not reached before.
  lemma TruncatedHeader(frames: seq<Frame>, header: bytes, maxBytes: nat)
    requires forall f :: f in frames ==> |f.payload| < LIMIT
    requires 0 < |header| < 8
    ensures Decode(Encode(frames) + header, maxBytes).Err? <==> frames == [] || |TagAll(frames)| < maxBytes
  {
    BehindFrames(frames, header, maxBytes);
  }

  // ---------- the layout of a header, byte by byte ----------

  // The kind comes first, the size in the last four bytes, most significant first.
  lemma HeaderLayout(kind: byte, b4: byte, b5: byte, b6: byte, b7: byte)
    ensures HeaderSize([kind, 0, 0, 0, b4, b5, b6, b7]) == b4 * 0x100_0000 + b5 * 0x1_0000 + b6 * 0x100 + b7
    ensures Header(kind, b4 * 0x100_0000 + b5 * 0x1_0000 + b6 * 0x100 + b7) == [kind, 0, 0, 0, b4, b5, b6, b7]
  {
    var n := b4 * 0x100_0000 + b5 * 0x1_0000 + b6 * 0x100 + b7;
    DigitsOfSize(n, b4, b5, b6, b7);
  }

  lemma DigitsOfSize(n: nat, b4: byte, b5: byte, b6: byte, b7: byte)
    requires n == b4 * 0x100_0000 + b5 * 0x1_0000 + b6 * 0x100 + b7
    ensures n < LIMIT && n / 0x100_0000 == b4
    ensures n / 0x1_0000 % 256 == b5 && n / 256 % 256 == b6 && n % 256 == b7
  {
    Quotient256(n, (b4 * 256 + b5) * 256 + b6, b7);
    Quotient256((b4 * 256 + b5) * 256 + b6, b4 * 256 + b5, b6);
    Quotient256(b4 * 256 + b5, b4, b5);
    Quotient65536(n, b4 * 256 + b5, b6 * 256 + b7);
  }

  lemma Quotient256(n: nat, q: nat, r: byte)
    requires n == q * 256 + r
    ensures n / 256 == q && n % 256 == r
  {}

  lemma Quotient65536(n: nat, q: nat, r: nat)
    requires n == q * 0x1_0000 + r && r < 0x1_0000
    ensures n / 0x1_0000 == q
  {}

  // A frame of kind 1 goes to stdout, one of kind 2 to stderr, any other to neither.
  lemma OneFrame(kind: byte, payload: bytes)
    requires |payload| < LIMIT
    ensures var r := Decode(Header(kind, |payload|) + payload, |payload| + 1);
      && r.Ok?
      && Project(r.collected, 1) == (if kind == 1 then payload else [])
      && Project(r.collected, 2) == (if kind == 2 then payload else [])
  {
    hide Decode, Project, Tag, Header;
    var head := Header(kind, |payload|);
    DecodeFrame(Frame(kind, payload), [], |payload| + 1);
    assert head + payload + [] == head + payload;
    NothingDecoded(1);
    assert Tag(kind, payload) + [] == Tag(kind, payload);
    ProjectTag(kind, payload, 1);
    ProjectTag(kind, payload, 2);
  }

  lemma NothingDecoded(room: nat)
    ensures Decode([], room) == Ok([])
  {}
}
