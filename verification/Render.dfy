/** The renderers of internal/domain/service/prompt: context blocks and footprints.
    Escaping, formatting and JSON encoding are library code, so they come in as a Renderer. */
module Render {
  import opened Messages
  import opened Token

  datatype Renderer = Renderer(
    idText: MessageId -> string,
    timestamp: int -> string,
    escape: string -> string,
    sizeText: int -> string,
    indexText: nat -> string,
    callsJson: seq<ToolCall> -> Option<string>)

  const DEFAULT_PATH := "/messages"

  type Names = map<string, string>

  // ---------- buildContextBlock ----------

  function Attr(r: Renderer, key: string, value: string): string
  {
    " " + key + "=\"" + r.escape(value) + "\""
  }

  function Child(r: Renderer, name: string, text: string): string
  {
    if text == "" then "" else "  <" + name + ">" + r.escape(text) + "</" + name + ">\n"
  }

  function NameAttr(r: Renderer, m: Message, names: Names): string
  {
    if m.role == User && m.userId != "" && m.userId in names && names[m.userId] != ""
    then Attr(r, "user_name", names[m.userId])
    else ""
  }

  function BaseAttrs(r: Renderer, m: Message): string
  {
    (if m.id != EMPTY_ID then Attr(r, "msg_id", r.idText(m.id)) else "")
    + (if m.createdAt.Some? then Attr(r, "ts", r.timestamp(m.createdAt.value)) else "")
    + (if m.repliedTo != EMPTY_ID then Attr(r, "reply_to", r.idText(m.repliedTo)) else "")
    + (if m.role == User && m.userId != "" then Attr(r, "user_id", m.userId) else "")
  }

  function AttachmentsXml(r: Renderer, m: Message, path: string, from: nat): string
    requires from <= |m.attachments|
    decreases |m.attachments| - from
  {
    if from == |m.attachments| then "" else
      var att := m.attachments[from];
      "<attachment" + Attr(r, "idx", r.indexText(from)) + ">\n"
      + Child(r, "kind", att.kind)
      + Child(r, "filename", att.filename)
      + Child(r, "size", r.sizeText(att.size))
      + Child(r, "mime_type", att.mimeType)
      + Child(r, "path", path + "/" + r.idText(m.id) + "/" + att.filename)
      + Child(r, "caption", att.caption)
      + "</attachment>\n"
      + AttachmentsXml(r, m, path, from + 1)
  }

  // What follows the attributes of the opening tag.
  function BlockTail(r: Renderer, m: Message, path: string): string
  {
    if m.evicted then Attr(r, "evicted", "") + "/>\n\n"
    else if m.attachments == [] then "/>\n\n"
    else ">\n" + AttachmentsXml(r, m, path, 0) + "</wa_msg_context>\n\n"
  }

  predicate HasBlock(m: Message) { m.id != EMPTY_ID || m.createdAt.Some? }

  function ContextBlock(r: Renderer, m: Message, names: Names, path: string): string
  {
    if !HasBlock(m) then ""
    else "<wa_msg_context" + BaseAttrs(r, m) + NameAttr(r, m, names) + BlockTail(r, m, path)
  }

  // How much longer the block that is sent may be than the block that was counted.
  function Growth(r: Renderer, m: Message, names: Names, path: string): nat
  {
    var sent := |ContextBlock(r, m, names, path)|;
    var counted := |ContextBlock(r, m, map[], DEFAULT_PATH)|;
    if sent > counted then sent - counted else 0
  }

  // With the default path, only the user name is missing from the counted block.
  lemma GrowthIsName(r: Renderer, m: Message, names: Names)
    ensures Growth(r, m, names, DEFAULT_PATH) == if HasBlock(m) then |NameAttr(r, m, names)| else 0
  {
    assert NameAttr(r, m, map[]) == "";
  }

  // ---------- what a block shows ----------

  ghost predicate Shows(text: string, part: string)
  {
    exists i: nat :: ShowsAt(text, part, i)
  }

  predicate ShowsAt(text: string, part: string, i: nat)
  {
    i + |part| <= |text| && text[i..i + |part|] == part
  }

  lemma ShowsInside(before: string, part: string, after: string)
    ensures Shows(before + part + after, part)
  {
    assert ShowsAt(before + part + after, part, |before|);
  }

  lemma BlockAttrs(r: Renderer, m: Message, names: Names, path: string)
    requires HasBlock(m)
    ensures var block := ContextBlock(r, m, names, path);
      && (m.id != EMPTY_ID ==> Shows(block, Attr(r, "msg_id", r.idText(m.id))))
      && (m.createdAt.Some? ==> Shows(block, Attr(r, "ts", r.timestamp(m.createdAt.value))))
      && (m.repliedTo != EMPTY_ID ==> Shows(block, Attr(r, "reply_to", r.idText(m.repliedTo))))
      && (m.role == User && m.userId != "" ==> Shows(block, Attr(r, "user_id", m.userId)))
      && (NameAttr(r, m, names) != "" ==> Shows(block, NameAttr(r, m, names)))
  {
    hide BlockTail, Shows, Attr, NameAttr;
    var open, tail := "<wa_msg_context", BlockTail(r, m, path);
    var id := if m.id != EMPTY_ID then Attr(r, "msg_id", r.idText(m.id)) else "";
    var ts := if m.createdAt.Some? then Attr(r, "ts", r.timestamp(m.createdAt.value)) else "";
    var reply := if m.repliedTo != EMPTY_ID then Attr(r, "reply_to", r.idText(m.repliedTo)) else "";
    var user := if m.role == User && m.userId != "" then Attr(r, "user_id", m.userId) else "";
    var name := NameAttr(r, m, names);
    assert ContextBlock(r, m, names, path) == open + (id + ts + reply + user) + name + tail;
    ShowsFive(open, id, ts, reply, user, name, tail);
  }

  lemma AttrText(r: Renderer, key: string, value: string, text: string)
    requires text == " " + key + "=\""
    ensures Attr(r, key, value) == text + r.escape(value) + "\""
  {}

  // The attributes of the opening tag, each with its escaped value.
  lemma BlockShows(r: Renderer, m: Message, names: Names, path: string)
    requires HasBlock(m)
    ensures var block := ContextBlock(r, m, names, path);
      && (m.id != EMPTY_ID ==> Shows(block, " msg_id=\"" + r.escape(r.idText(m.id)) + "\""))
      && (m.createdAt.Some? ==> Shows(block, " ts=\"" + r.escape(r.timestamp(m.createdAt.value)) + "\""))
      && (m.repliedTo != EMPTY_ID ==> Shows(block, " reply_to=\"" + r.escape(r.idText(m.repliedTo)) + "\""))
      && (m.role == User && m.userId != "" ==> Shows(block, " user_id=\"" + r.escape(m.userId) + "\""))
      && (m.role == User && m.userId != "" && m.userId in names && names[m.userId] != "" ==>
            Shows(block, " user_name=\"" + r.escape(names[m.userId]) + "\""))
  {
    hide ContextBlock, Shows, Attr;
    BlockAttrs(r, m, names, path);
    AttrText(r, "msg_id", r.idText(m.id), " msg_id=\"");
    AttrText(r, "reply_to", r.idText(m.repliedTo), " reply_to=\"");
    AttrText(r, "user_id", m.userId, " user_id=\"");
    if m.createdAt.Some? { AttrText(r, "ts", r.timestamp(m.createdAt.value), " ts=\""); }
    if m.userId in names {
      AttrText(r, "user_name", names[m.userId], " user_name=\"");
      assert Attr(r, "user_name", names[m.userId]) != "";
    }
  }

  lemma ShowsWider(before: string, text: string, after: string, part: string)
    requires Shows(text, part)
    ensures Shows(before + text + after, part)
  {
    var i: nat :| ShowsAt(text, part, i);
    assert ShowsAt(before + text + after, part, |before| + i);
  }

  // The element of one attachment: its file, below the path of its message, and what it is.
  lemma {:induction false} AttachmentShows(r: Renderer, m: Message, path: string, from: nat, k: nat)
    requires from <= k < |m.attachments|
    ensures var att, xml := m.attachments[k], AttachmentsXml(r, m, path, from);
      && Shows(xml, Child(r, "path", path + "/" + r.idText(m.id) + "/" + att.filename))
      && Shows(xml, Child(r, "filename", att.filename)) && Shows(xml, Child(r, "kind", att.kind))
      && Shows(xml, Child(r, "caption", att.caption))
    decreases k - from
  {
    hide Shows, Child, Attr;
    var att, rest := m.attachments[from], AttachmentsXml(r, m, path, from + 1);
    var open := "<attachment" + Attr(r, "idx", r.indexText(from)) + ">\n";
    var kind, name := Child(r, "kind", att.kind), Child(r, "filename", att.filename);
    var size, mime := Child(r, "size", r.sizeText(att.size)), Child(r, "mime_type", att.mimeType);
    var file := Child(r, "path", path + "/" + r.idText(m.id) + "/" + att.filename);
    var caption := Child(r, "caption", att.caption);
    var one := open + kind + name + size + mime + file + caption + "</attachment>\n";
    assert AttachmentsXml(r, m, path, from) == "" + one + rest == one + rest + "";
    if k == from {
      ElementShows(open, kind, name, size, mime, file, caption, "</attachment>\n");
      ShowsWider("", one, rest, file);
      ShowsWider("", one, rest, name);
      ShowsWider("", one, rest, kind);
      ShowsWider("", one, rest, caption);
    } else {
      AttachmentShows(r, m, path, from + 1, k);
      var a := m.attachments[k];
      ShowsWider(one, rest, "", Child(r, "path", path + "/" + r.idText(m.id) + "/" + a.filename));
      ShowsWider(one, rest, "", Child(r, "filename", a.filename));
      ShowsWider(one, rest, "", Child(r, "kind", a.kind));
      ShowsWider(one, rest, "", Child(r, "caption", a.caption));
    }
  }

  lemma ElementShows(
    open: string, kind: string, name: string, size: string, mime: string, file: string, caption: string, end: string)
    ensures var all := open + kind + name + size + mime + file + caption + end;
            Shows(all, kind) && Shows(all, name) && Shows(all, file) && Shows(all, caption)
  {
    hide Shows;
    var all := open + kind + name + size + mime + file + caption + end;
    assert all == open + kind + (name + size + mime + file + caption + end);
    ShowsInside(open, kind, name + size + mime + file + caption + end);
    assert all == (open + kind) + name + (size + mime + file + caption + end);
    ShowsInside(open + kind, name, size + mime + file + caption + end);
    assert all == (open + kind + name + size + mime) + file + (caption + end);
    ShowsInside(open + kind + name + size + mime, file, caption + end);
    ShowsInside(open + kind + name + size + mime + file, caption, end);
  }

  // A child element has its escaped text, and is left out for an empty one.
  lemma ChildText(r: Renderer, name: string, text: string)
    ensures text == "" ==> Child(r, name, text) == ""
    ensures text != "" ==> Shows(Child(r, name, text), r.escape(text))
  {
    if text != "" { ShowsInside("  <" + name + ">", r.escape(text), "</" + name + ">\n"); }
    assert text != "" ==>
      Child(r, name, text) == "  <" + name + ">" + r.escape(text) + ("</" + name + ">\n");
  }

  lemma ShowsFive(open: string, a: string, b: string, c: string, d: string, e: string, tail: string)
    ensures var all := open + (a + b + c + d) + e + tail;
            Shows(all, a) && Shows(all, b) && Shows(all, c) && Shows(all, d) && Shows(all, e)
  {
    hide Shows;
    var all := open + (a + b + c + d) + e + tail;
    assert all == open + a + (b + c + d + e + tail);
    ShowsInside(open, a, b + c + d + e + tail);
    assert all == (open + a) + b + (c + d + e + tail);
    ShowsInside(open + a, b, c + d + e + tail);
    assert all == (open + a + b) + c + (d + e + tail);
    ShowsInside(open + a + b, c, d + e + tail);
    assert all == (open + a + b + c) + d + (e + tail);
    ShowsInside(open + a + b + c, d, e + tail);
    ShowsInside(open + (a + b + c + d), e, tail);
  }

  lemma {:induction false} AttachmentsIgnoreContent(
    r: Renderer, m: Message, content: string, path: string, from: nat)
    requires from <= |m.attachments|
    ensures AttachmentsXml(r, m.(content := content), path, from) == AttachmentsXml(r, m, path, from)
    decreases |m.attachments| - from
  {
    hide Attr, Child;
    if from == |m.attachments| {
    } else {
      AttachmentsIgnoreContent(r, m, content, path, from + 1);
    }
  }

  lemma TailIgnoresContent(r: Renderer, m: Message, content: string, path: string)
    ensures BlockTail(r, m.(content := content), path) == BlockTail(r, m, path)
  {
    hide Attr, AttachmentsXml;
    AttachmentsIgnoreContent(r, m, content, path, 0);
  }

  lemma BlockIgnoresContent(r: Renderer, m: Message, content: string, names: Names, path: string)
    ensures ContextBlock(r, m.(content := content), names, path) == ContextBlock(r, m, names, path)
    ensures NameAttr(r, m.(content := content), names) == NameAttr(r, m, names)
  {
    hide Attr, BlockTail;
    TailIgnoresContent(r, m, content, path);
  }

  // ---------- footprints ----------

  function CallsText(r: Renderer, m: Message): string
  {
    if m.HasCalls() && r.callsJson(m.toolCalls).Some? then r.callsJson(m.toolCalls).value else ""
  }

  function MessageFootprint(r: Renderer, m: Message): nat
  {
    Count(m.content + CallsText(r, m))
  }

  function Footprint(r: Renderer, msgs: seq<Message>): nat
  {
    if msgs == [] then 0 else Footprint(r, msgs[..|msgs| - 1]) + MessageFootprint(r, msgs[|msgs| - 1])
  }

  method CountPromptFootprint(r: Renderer, messages: seq<Message>) returns (total: nat)
    ensures total == Footprint(r, messages)
  {
    total := 0;
    for i := 0 to |messages|
      invariant total == Footprint(r, messages[..i])
    {
      var rendered := messages[i].content;
      if messages[i].role == Assistant && messages[i].toolCalls != [] {
        var data := r.callsJson(messages[i].toolCalls);
        if data.Some? { rendered := rendered + data.value; }
      }
      assert rendered == messages[i].content + CallsText(r, messages[i]);
      assert messages[..i + 1][..i] == messages[..i];
      total := total + Count(rendered);
    }
    assert messages[..|messages|] == messages;
  }

  // ---------- enrichMessages ----------

  predicate Omitted(m: Message)
  {
    m.evicted && (m.role == Tool || (m.role == Assistant && m.content == "" && m.toolCalls == []))
  }

  function Enriched(r: Renderer, m: Message, names: Names, path: string): Message
  {
    if Omitted(m) then m.(content := "")
    else if m.evicted then m.(content := ContextBlock(r, m, names, path))
    else if m.role == User || (m.role == Assistant && m.content != "") || m.role == Tool
    then m.(content := ContextBlock(r, m, names, path) + m.content)
    else m
  }

  function EnrichedAll(r: Renderer, msgs: seq<Message>, names: Names, path: string): seq<Message>
  {
    seq(|msgs|, i requires 0 <= i < |msgs| => Enriched(r, msgs[i], names, path))
  }

  // One round of the loop: the message in place of m.
  method EnrichOne(r: Renderer, m: Message, names: Names, path: string) returns (e: Message)
    ensures e == Enriched(r, m, names, path)
  {
    hide ContextBlock;
    e := m;
    if m.evicted {
      if m.role == Tool {
        e := m.(content := "");
      } else if m.role == Assistant && m.content == "" && |m.toolCalls| == 0 {
        e := m.(content := "");
      } else {
        e := m.(content := ContextBlock(r, m, names, path)); // "" without a block
      }
    } else if m.role == User || (m.role == Assistant && m.content != "") || m.role == Tool {
      var block := ContextBlock(r, m, names, path);
      if block != "" {
        e := m.(content := block + m.content);
      } else {
        assert block + m.content == m.content;
      }
    }
  }

  method EnrichMessages(r: Renderer, msgs: seq<Message>, names: Names, path: string)
    returns (result: seq<Message>)
    ensures result == EnrichedAll(r, msgs, names, path)
  {
    hide Enriched;
    var enriched := new Message[|msgs|](i requires 0 <= i < |msgs| => msgs[i]);
    for i := 0 to enriched.Length
      invariant forall k :: 0 <= k < i ==> enriched[k] == Enriched(r, msgs[k], names, path)
      invariant forall k :: i <= k < enriched.Length ==> enriched[k] == msgs[k]
    {
      enriched[i] := EnrichOne(r, enriched[i], names, path);
    }
    result := enriched[..];
  }

  // One message more adds its content and, for an assistant turn, its encoded calls.
  lemma FootprintAdds(r: Renderer, msgs: seq<Message>, m: Message)
    ensures Footprint(r, []) == 0
    ensures Footprint(r, msgs + [m]) == Footprint(r, msgs) + CountLength(|m.content| +
      if m.role == Assistant && m.toolCalls != [] && r.callsJson(m.toolCalls).Some?
      then |r.callsJson(m.toolCalls).value| else 0)
  {
    assert (msgs + [m])[..|msgs|] == msgs;
  }
}
