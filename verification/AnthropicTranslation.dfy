/** From canonical messages to Anthropic's and back (internal/provider/anthropic.go, internal/adapter/anthropic.go). */
module AnthropicTranslation {
  import opened Common
  import opened Text
  import opened Messages

  /** What the provider puts into a message it sends. */
  datatype SentContent = Words(text: string) | Blocks(blocks: seq<Json>)

  datatype SentMessage = SentMessage(role: string, content: SentContent)

  datatype InboundMessage = InboundMessage(role: string, content: Json)

  /** The messages as the other side decodes them. */
  function OnWire(m: SentMessage): InboundMessage {
    InboundMessage(m.role, match m.content case Words(t) => Str(t) case Blocks(bs) => Arr(bs))
  }

  function AllOnWire(ms: seq<SentMessage>): (r: seq<InboundMessage>)
    ensures |r| == |ms|
  {
    seq(|ms|, i requires 0 <= i < |ms| => OnWire(ms[i]))
  }

  function TextBlock(t: string): Json { Obj(map["type" := Str("text"), "text" := Str(t)]) }

  function ResultBlock(id: string, content: string): Json {
    Obj(map["type" := Str("tool_result"), "tool_use_id" := Str(id), "content" := Str(content)])
  }

  function CallBlock(id: string, name: string, input: Json): Json {
    Obj(map["type" := Str("tool_use"), "id" := Str(id), "name" := Str(name), "input" := input])
  }

  function ImageBlock(mime: string, data: string): Json {
    Obj(map["type" := Str("image"),
            "source" := Obj(map["type" := Str("base64"), "media_type" := Str(mime), "data" := Str(data)])])
  }

  // ---- Canonical to Anthropic ----

  predicate IsSystem(m: ChatMessage) { Lower(m.role) == "system" }

  predicate IsTool(m: ChatMessage) { Lower(m.role) == "tool" }

  predicate IsCalling(m: ChatMessage) { Lower(m.role) == "assistant" && m.toolCalls != [] }

  function ParsedArguments(codec: Codec, arguments: string): Json {
    match codec.unmarshal(arguments) case Some(j) => j case None => Obj(map[])
  }

  function CallBlocks(codec: Codec, calls: seq<ToolCall>): (r: seq<Json>)
    ensures |r| == |calls|
  {
    seq(|calls|, i requires 0 <= i < |calls| =>
      CallBlock(calls[i].id, calls[i].name, ParsedArguments(codec, calls[i].arguments)))
  }

  function TurnBlocks(codec: Codec, m: ChatMessage): seq<Json> {
    var t := ContentString(codec, m.content);
    (if t != "" then [TextBlock(t)] else []) + CallBlocks(codec, m.toolCalls)
  }

  function PartBlocks(part: ContentPart): seq<Json> {
    match part
    case TextPart(t) => if t != "" then [TextBlock(t)] else []
    case ImagePart(url, _) =>
      if url == "" then []
      else
        var (mime, data) := ParseDataURI(url);
        [ImageBlock(if mime == "" then "image/jpeg" else mime, data)]
    case AudioPart(_, _) => []
  }

  function MediaBlocks(parts: seq<ContentPart>): seq<Json> {
    if parts == [] then [] else MediaBlocks(parts[..|parts| - 1]) + PartBlocks(parts[|parts| - 1])
  }

  /** The message a non-system, non-tool message becomes. */
  function Turn(codec: Codec, m: ChatMessage): SentMessage {
    if IsCalling(m) then SentMessage("assistant", Blocks(TurnBlocks(codec, m)))
    else
      var parts := ParsedContent(codec, m.content);
      SentMessage(m.role, if HasImage(parts) then Blocks(MediaBlocks(parts)) else Words(ContentString(codec, m.content)))
  }

  /** A tool's answer joins an open user message or opens one. */
  function WithResult(out: seq<SentMessage>, block: Json): seq<SentMessage> {
    if out == [] || out[|out| - 1].role != "user" then out + [SentMessage("user", Blocks([block]))]
    else
      var bs := match out[|out| - 1].content case Blocks(bs) => bs case Words(t) => [TextBlock(t)];
      out[..|out| - 1] + [SentMessage("user", Blocks(bs + [block]))]
  }

  function Sent(codec: Codec, out: seq<SentMessage>, m: ChatMessage): seq<SentMessage> {
    if IsSystem(m) then out
    else if IsTool(m) then WithResult(out, ResultBlock(m.toolCallId, ContentString(codec, m.content)))
    else out + [Turn(codec, m)]
  }

  /** Sending the messages `ms` after `out`. */
  function SentAll(codec: Codec, out: seq<SentMessage>, ms: seq<ChatMessage>): seq<SentMessage>
    decreases |ms|
  {
    if ms == [] then out else SentAll(codec, Sent(codec, out, ms[0]), ms[1..])
  }

  function SystemParts(codec: Codec, ms: seq<ChatMessage>): seq<string> {
    if ms == [] then []
    else if IsSystem(ms[0]) then [ContentString(codec, ms[0].content)] + SystemParts(codec, ms[1..])
    else SystemParts(codec, ms[1..])
  }

  lemma SendNext(codec: Codec, out: seq<SentMessage>, ms: seq<ChatMessage>, i: nat)
    requires i < |ms|
    ensures SentAll(codec, out, ms[i..]) == SentAll(codec, Sent(codec, out, ms[i]), ms[i + 1..])
    ensures SystemParts(codec, ms[i..])
         == (if IsSystem(ms[i]) then [ContentString(codec, ms[i].content)] else []) + SystemParts(codec, ms[i + 1..])
  {
    hide Sent, ContentString;
    assert ms[i..][0] == ms[i] && ms[i..][1..] == ms[i + 1..];
  }

  lemma SendNone(codec: Codec, out: seq<SentMessage>, ms: seq<ChatMessage>)
    ensures SentAll(codec, out, ms[|ms|..]) == out && SystemParts(codec, ms[|ms|..]) == []
  {
  }

  method ConvertOpenAIToAnthropic(codec: Codec, messages: seq<ChatMessage>)
    returns (out: seq<SentMessage>, system: string)
    ensures out == SentAll(codec, [], messages)
    ensures system == Join(SystemParts(codec, messages), "\n\n")
  {
    hide Lower, ContentString, WithResult, ResultBlock, SentAll, SystemParts, Turn;
    var systemParts: seq<string> := [];
    out := [];
    for i := 0 to |messages|
      invariant SentAll(codec, out, messages[i..]) == SentAll(codec, [], messages)
      invariant systemParts + SystemParts(codec, messages[i..]) == SystemParts(codec, messages)
    {
      var msg := messages[i];
      SendNext(codec, out, messages, i);
      if Lower(msg.role) == "system" {
        systemParts := systemParts + [ContentString(codec, msg.content)];
      } else if Lower(msg.role) == "tool" {
        out := AppendResult(out, ResultBlock(msg.toolCallId, ContentString(codec, msg.content)));
      } else if Lower(msg.role) == "assistant" && |msg.toolCalls| > 0 {
        var blocks := BuildTurn(codec, msg);
        out := out + [SentMessage("assistant", Blocks(blocks))];
      } else {
        var content := BuildContent(codec, msg);
        out := out + [SentMessage(msg.role, content)];
      }
    }
    SendNone(codec, out, messages);
    assert systemParts == SystemParts(codec, messages);
    system := Join(systemParts, "\n\n");
  }

  method AppendResult(out: seq<SentMessage>, block: Json) returns (r: seq<SentMessage>)
    ensures r == WithResult(out, block)
  {
    var n := |out|;
    if n > 0 && out[n - 1].role == "user" {
      match out[n - 1].content
      case Blocks(blocks) =>
        r := out[..n - 1] + [out[n - 1].(content := Blocks(blocks + [block]))];
      case Words(text) =>
        r := out[..n - 1] + [out[n - 1].(content := Blocks([TextBlock(text), block]))];
        assert [TextBlock(text), block] == [TextBlock(text)] + [block];
    } else {
      r := out + [SentMessage("user", Blocks([block]))];
    }
  }

  method BuildTurn(codec: Codec, msg: ChatMessage) returns (blocks: seq<Json>)
    requires IsCalling(msg)
    ensures blocks == TurnBlocks(codec, msg) && Turn(codec, msg) == SentMessage("assistant", Blocks(blocks))
  {
    blocks := [];
    var contentStr := ContentString(codec, msg.content);
    if contentStr != "" {
      blocks := blocks + [TextBlock(contentStr)];
    }
    ghost var head := blocks;
    for i := 0 to |msg.toolCalls|
      invariant blocks == head + CallBlocks(codec, msg.toolCalls)[..i]
    {
      var tc := msg.toolCalls[i];
      var parsedInput := match codec.unmarshal(tc.arguments) case Some(j) => j case None => Obj(map[]);
      blocks := blocks + [CallBlock(tc.id, tc.name, parsedInput)];
    }
  }

  method BuildContent(codec: Codec, msg: ChatMessage) returns (content: SentContent)
    requires !IsCalling(msg)
    ensures SentMessage(msg.role, content) == Turn(codec, msg)
  {
    hide ParsedContent, MediaBlocks, ContentString;
    var parts := ParseMessageContent(codec, msg.content);
    var hasImage := false;
    var i := 0;
    while i < |parts| && !hasImage
      invariant 0 <= i <= |parts|
      invariant hasImage <==> HasImage(parts[..i])
    {
      hasImage := parts[i].ImagePart?;
      i := i + 1;
    }
    assert hasImage <==> HasImage(parts) by {
      assert i == |parts| ==> parts[..i] == parts;
    }
    if !hasImage {
      return Words(ContentString(codec, msg.content));
    }
    var blocks := BuildMedia(parts);
    content := Blocks(blocks);
  }

  method BuildMedia(parts: seq<ContentPart>) returns (blocks: seq<Json>)
    ensures blocks == MediaBlocks(parts)
  {
    hide ParseDataURI, TextBlock, ImageBlock;
    blocks := [];
    for j := 0 to |parts|
      invariant blocks == MediaBlocks(parts[..j])
    {
      assert parts[..j + 1][..j] == parts[..j];
      match parts[j]
      case TextPart(text) =>
        if text != "" {
          blocks := blocks + [TextBlock(text)];
        }
      case ImagePart(url, _) =>
        if url != "" {
          var (mime, data) := ParseDataURI(url);
          if mime == "" {
            mime := "image/jpeg";
          }
          blocks := blocks + [ImageBlock(mime, data)];
        }
      case AudioPart(_, _) =>
    }
    assert parts[..|parts|] == parts;
  }

  // ---- Anthropic to canonical ----

  /** What one message's blocks add up to. */
  datatype Scan = Scan(
    texts: seq<string>, calls: seq<ToolCall>, results: seq<ChatMessage>, parts: seq<ContentPart>,
    hasImage: bool, hasResult: bool)

  function TextIn(item: Json): string {
    StringOf(Field(item, "text"))
  }

  function TextsIn(items: seq<Json>): string {
    if items == [] then "" else TextsIn(items[..|items| - 1]) + TextIn(items[|items| - 1])
  }

  function ResultText(content: Json): string {
    match content case Str(s) => s case Arr(items) => TextsIn(items) case _ => ""
  }

  function ResultMessage(b: Json): ChatMessage {
    ChatMessage("tool", Value(Str(ResultText(Field(b, "content")))), "", "", [], StringOf(Field(b, "tool_use_id")))
  }

  function DataURI(mediaType: string, data: string): string { "data:" + mediaType + BASE64_MARK + data }

  function ImageIn(b: Json): seq<ContentPart> {
    var src := Field(b, "source");
    var mediaType, data := StringOf(Field(src, "media_type")), StringOf(Field(src, "data"));
    if src.Obj? && mediaType != "" && data != "" then [ImagePart(DataURI(mediaType, data), "")] else []
  }

  function CallIn(codec: Codec, b: Json, index: nat): ToolCall {
    ToolCall(Some(index), StringOf(Field(b, "id")), "function", StringOf(Field(b, "name")), codec.marshal(Field(b, "input")))
  }

  function Scanned(codec: Codec, s: Scan, b: Json): Scan {
    var kind := StringOf(Field(b, "type"));
    if kind == "text" then s.(texts := s.texts + [TextIn(b)], parts := s.parts + [TextPart(TextIn(b))])
    else if kind == "image" then s.(hasImage := true, parts := s.parts + ImageIn(b))
    else if kind == "tool_use" then s.(calls := s.calls + [CallIn(codec, b, |s.calls|)])
    else if kind == "tool_result" then s.(hasResult := true, results := s.results + [ResultMessage(b)])
    else s
  }

  const NO_SCAN := Scan([], [], [], [], false, false)

  function ScannedAll(codec: Codec, blocks: seq<Json>): Scan {
    if blocks == [] then NO_SCAN else Scanned(codec, ScannedAll(codec, blocks[..|blocks| - 1]), blocks[|blocks| - 1])
  }

  function OwnMessage(role: string, s: Scan): seq<ChatMessage> {
    if s.hasResult then []
    else
      var content := if s.hasImage then Parts(s.parts) else Value(Str(Join(s.texts, "\n")));
      [ChatMessage(role, content, "", "", s.calls, "")]
  }

  /** What one inbound message becomes: its tool results, then itself unless it had any. */
  function Received(codec: Codec, m: InboundMessage): seq<ChatMessage> {
    if m.content.Arr? then
      var s := ScannedAll(codec, m.content.items);
      s.results + OwnMessage(m.role, s)
    else [Plain(m.role, Value(m.content))]
  }

  function ReceivedAll(codec: Codec, ms: seq<InboundMessage>): seq<ChatMessage> {
    if ms == [] then [] else ReceivedAll(codec, ms[..|ms| - 1]) + Received(codec, ms[|ms| - 1])
  }

  function SystemMessage(system: string): seq<ChatMessage> {
    if system != "" then [Plain("system", Value(Str(system)))] else []
  }

  lemma ReceiveNone(codec: Codec, ms: seq<InboundMessage>)
    ensures ReceivedAll(codec, ms[..0]) == []
  {
  }

  lemma ReceiveNext(codec: Codec, ms: seq<InboundMessage>, i: nat)
    requires i < |ms|
    ensures ReceivedAll(codec, ms[..i + 1]) == ReceivedAll(codec, ms[..i]) + Received(codec, ms[i])
  {
    hide Received;
    assert ms[..i + 1][..i] == ms[..i];
  }

  lemma ReceivePlain(codec: Codec, m: InboundMessage)
    requires !m.content.Arr?
    ensures Received(codec, m) == [Plain(m.role, Value(m.content))]
  {
  }

  method ToCanonical(codec: Codec, system: string, messages: seq<InboundMessage>) returns (out: seq<ChatMessage>)
    ensures out == SystemMessage(system) + ReceivedAll(codec, messages)
  {
    hide Received, ReceivedAll;
    out := [];
    assert ReceivedAll(codec, messages[..0]) == [] by { ReceiveNone(codec, messages); }
    if system != "" {
      out := out + [Plain("system", Value(Str(system)))];
    }
    ghost var head := out;
    for i := 0 to |messages|
      invariant out == head + ReceivedAll(codec, messages[..i])
    {
      ReceiveNext(codec, messages, i);
      var msg := messages[i];
      if msg.content.Arr? {
        out := ReceiveBlocks(codec, out, msg.role, msg.content.items);
      } else {
        ReceivePlain(codec, msg);
        out := out + [Plain(msg.role, Value(msg.content))];
      }
    }
    assert messages[..|messages|] == messages;
  }

  lemma ScanNext(codec: Codec, blocks: seq<Json>)
    ensures ScannedAll(codec, blocks[..0]) == NO_SCAN
    ensures forall i :: 0 <= i < |blocks| ==>
              ScannedAll(codec, blocks[..i + 1]) == Scanned(codec, ScannedAll(codec, blocks[..i]), blocks[i])
  {
    hide Scanned;
    forall i | 0 <= i < |blocks|
      ensures ScannedAll(codec, blocks[..i + 1]) == Scanned(codec, ScannedAll(codec, blocks[..i]), blocks[i])
    {
      assert blocks[..i + 1][..i] == blocks[..i];
    }
  }

  method ReceiveBlocks(codec: Codec, before: seq<ChatMessage>, role: string, blocks: seq<Json>)
    returns (out: seq<ChatMessage>)
    ensures out == before + Received(codec, InboundMessage(role, Arr(blocks)))
  {
    hide CallIn, ImageIn, ResultMessage, ScannedAll, Field, StringOf, TextIn, Join;
    ScanNext(codec, blocks);
    out := before;
    var textParts: seq<string>, toolCalls: seq<ToolCall>, contentParts: seq<ContentPart> := [], [], [];
    var hasToolResult, hasImage := false, false;
    for i := 0 to |blocks|
      invariant ScannedAll(codec, blocks[..i])
             == Scan(textParts, toolCalls, ScannedAll(codec, blocks[..i]).results, contentParts, hasImage, hasToolResult)
      invariant out == before + ScannedAll(codec, blocks[..i]).results
    {
      var b := blocks[i];
      assert ScannedAll(codec, blocks[..i + 1]) == Scanned(codec, ScannedAll(codec, blocks[..i]), b);
      var kind := StringOf(Field(b, "type"));
      if kind == "text" {
        textParts := textParts + [TextIn(b)];
        contentParts := contentParts + [TextPart(TextIn(b))];
      } else if kind == "image" {
        hasImage := true;
        contentParts := contentParts + ImageIn(b);
      } else if kind == "tool_use" {
        toolCalls := toolCalls + [CallIn(codec, b, |toolCalls|)];
      } else if kind == "tool_result" {
        hasToolResult := true;
        out := out + [ResultMessage(b)];
      }
    }
    assert blocks[..|blocks|] == blocks;
    if hasToolResult {
      return;
    }
    if hasImage {
      out := out + [ChatMessage(role, Parts(contentParts), "", "", toolCalls, "")];
    } else {
      out := out + [ChatMessage(role, Value(Str(Join(textParts, "\n"))), "", "", toolCalls, "")];
    }
  }
}
