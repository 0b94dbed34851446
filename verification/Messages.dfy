/** The conversation entities shared by the prompt builder and the compaction service. */
module Messages {

  datatype Option<+T> = None | Some(value: T)

  // UUIDv7 strings under the lexicographic order, as a total order with a least element:
  // 0 stands for the empty ID.
  type MessageId = nat

  const EMPTY_ID: MessageId := 0

  datatype Role = System | User | Assistant | Tool

  datatype ToolCall = ToolCall(id: string, name: string, arguments: string)

  datatype Attachment = Attachment(
    id: string, kind: string, filename: string, mimeType: string, size: int, path: string, caption: string)

  // createdAt is None for the zero time.
  datatype Message = Message(
    id: MessageId,
    userId: string,
    role: Role,
    content: string,
    toolCalls: seq<ToolCall>,
    toolCallId: string,
    attachments: seq<Attachment>,
    repliedTo: MessageId,
    createdAt: Option<int>,
    evicted: bool)
  {
    // An assistant turn that asks for tools.
    predicate HasCalls() { role == Assistant && toolCalls != [] }

    function CallIds(): set<string> { set c | c in toolCalls :: c.id }
  }

  function Flatten<T>(blocks: seq<seq<T>>): seq<T>
  {
    if blocks == [] then [] else blocks[0] + Flatten(blocks[1..])
  }

  lemma {:induction false} FlattenConcat<T>(a: seq<seq<T>>, b: seq<seq<T>>)
    ensures Flatten(a + b) == Flatten(a) + Flatten(b)
  {
    if a == [] {
      assert a + b == b;
    } else {
      assert (a + b)[1..] == a[1..] + b;
      FlattenConcat(a[1..], b);
    }
  }

  // Where an element of a flattened list comes from.
  lemma {:induction false} FlattenMember<T>(blocks: seq<seq<T>>, k: nat) returns (b: nat, start: nat)
    requires k < |Flatten(blocks)|
    ensures b < |blocks| && start <= k < start + |blocks[b]|
    ensures start + |blocks[b]| <= |Flatten(blocks)|
    ensures Flatten(blocks)[start..start + |blocks[b]|] == blocks[b]
  {
    if k < |blocks[0]| {
      b, start := 0, 0;
    } else {
      var b', start' := FlattenMember(blocks[1..], k - |blocks[0]|);
      b, start := b' + 1, start' + |blocks[0]|;
      assert Flatten(blocks)[start..start + |blocks[b]|] == Flatten(blocks[1..])[start'..start' + |blocks[b]|];
    }
  }
}
