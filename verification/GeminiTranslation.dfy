/** From canonical messages to Gemini's turns (internal/provider/gemini.go). */
module GeminiTranslation {
  import opened Common
  import opened Text
  import M = Messages
  import opened Gemini
  import V = GeminiValidation

  datatype Request = Request(
    messages: seq<M.ChatMessage>, temperature: Option<real>, topP: Option<real>, maxTokens: Option<int>)

  function CallPart(name: string, args: Option<map<string, M.Json>>): Part {
    Part("", None, Some(FunctionCall(name, args)), None)
  }

  function AnswerPart(name: string, response: Option<map<string, M.Json>>): Part {
    Part("", None, None, Some(FunctionResponse(name, response)))
  }

  function DataPart(mimeType: string, data: string): Part { Part("", Some(InlineData(mimeType, data)), None, None) }

  /** Decoding text into a Go map: an object, a null (no map) or an error. */
  function DecodedObject(codec: M.Codec, text: string): Result<Option<map<string, M.Json>>, ()> {
    match codec.unmarshal(text)
    case Some(Obj(fields)) => Ok(Some(fields))
    case Some(Null) => Ok(None)
    case _ => Err(())
  }

  // ---- Names of the functions called ----

  function NamedCall(names: map<string, string>, tc: M.ToolCall): map<string, string> {
    if tc.id != "" && tc.name != "" then names[tc.id := tc.name] else names
  }

  function NamedCalls(names: map<string, string>, calls: seq<M.ToolCall>): map<string, string> {
    if calls == [] then names else NamedCall(NamedCalls(names, calls[..|calls| - 1]), calls[|calls| - 1])
  }

  function CallNames(ms: seq<M.ChatMessage>): map<string, string> {
    if ms == [] then map[] else NamedCalls(CallNames(ms[..|ms| - 1]), ms[|ms| - 1].toolCalls)
  }

  function AnswerName(names: map<string, string>, m: M.ChatMessage): string {
    var own := if m.name == "" && m.toolCallId != "" then GetOr(names, m.toolCallId, "") else m.name;
    if own == "" then "function_response" else own
  }

  // ---- Parts of one message ----

  predicate IsSystem(m: M.ChatMessage) { Lower(m.role) == "system" }

  predicate IsTool(m: M.ChatMessage) { Lower(m.role) == "tool" }

  predicate IsCalling(m: M.ChatMessage) { Lower(m.role) == "assistant" && m.toolCalls != [] }

  function AnswerTo(codec: M.Codec, names: map<string, string>, m: M.ChatMessage): Part {
    var text := M.ContentString(codec, m.content);
    var response := match DecodedObject(codec, text)
      case Ok(r) => r
      case Err(_) => Some(map["content" := M.Str(text)]);
    AnswerPart(AnswerName(names, m), response)
  }

  function CallOf(codec: M.Codec, tc: M.ToolCall): Part {
    CallPart(tc.name, match DecodedObject(codec, tc.arguments) case Ok(args) => args case Err(_) => None)
  }

  function CallsOf(codec: M.Codec, calls: seq<M.ToolCall>): (r: seq<Part>)
    ensures |r| == |calls|
  {
    seq(|calls|, i requires 0 <= i < |calls| => CallOf(codec, calls[i]))
  }

  function CallingParts(codec: M.Codec, m: M.ChatMessage): seq<Part> {
    var text := M.ContentString(codec, m.content);
    (if text != "" then [TextPart(text)] else []) + CallsOf(codec, m.toolCalls)
  }

  function PartOf(p: M.ContentPart): seq<Part> {
    match p
    case TextPart(text) => if text != "" then [TextPart(text)] else []
    case ImagePart(url, _) =>
      if url == "" then [] else [DataPart(M.ParseDataURI(url).0, M.ParseDataURI(url).1)]
    case AudioPart(data, format) =>
      if data == "" then [] else [DataPart(if format == "mp3" then "audio/mp3" else "audio/wav", data)]
  }

  function PartsOf(ps: seq<M.ContentPart>): seq<Part> {
    if ps == [] then [] else PartsOf(ps[..|ps| - 1]) + PartOf(ps[|ps| - 1])
  }

  function TextOf(p: M.ContentPart): seq<Part> {
    if p.TextPart? && p.text != "" then [TextPart(p.text)] else []
  }

  function TextsOf(ps: seq<M.ContentPart>): seq<Part> {
    if ps == [] then [] else TextsOf(ps[..|ps| - 1]) + TextOf(ps[|ps| - 1])
  }

  function PlainTurn(codec: M.Codec, m: M.ChatMessage): seq<Content> {
    var parts := PartsOf(M.ParsedContent(codec, m.content));
    if parts == [] then [] else [Content(if Lower(m.role) == "assistant" then "model" else "user", parts)]
  }

  /** The turn a message yields, if it yields one. */
  function TurnOf(codec: M.Codec, names: map<string, string>, m: M.ChatMessage): (r: seq<Content>)
    ensures |r| <= 1
  {
    if IsSystem(m) then []
    else if IsTool(m) then [Content("user", [AnswerTo(codec, names, m)])]
    else if IsCalling(m) then [Content("model", CallingParts(codec, m))]
    else PlainTurn(codec, m)
  }

  function TurnsOf(codec: M.Codec, names: map<string, string>, ms: seq<M.ChatMessage>): seq<Content> {
    if ms == [] then [] else TurnsOf(codec, names, ms[..|ms| - 1]) + TurnOf(codec, names, ms[|ms| - 1])
  }

  function SystemOf(codec: M.Codec, m: M.ChatMessage): seq<Part> {
    if IsSystem(m) then TextsOf(M.ParsedContent(codec, m.content)) else []
  }

  function SystemsOf(codec: M.Codec, ms: seq<M.ChatMessage>): seq<Part> {
    if ms == [] then [] else SystemsOf(codec, ms[..|ms| - 1]) + SystemOf(codec, ms[|ms| - 1])
  }

  /** Consecutive turns of one role put together. */
  function MergedTurns(cs: seq<Content>): seq<Content> {
    if cs == [] then [] else V.Joined(MergedTurns(cs[..|cs| - 1]), cs[|cs| - 1])
  }

  function Converted(codec: M.Codec, req: Request): Snapshot {
    var system := SystemsOf(codec, req.messages);
    Snapshot(
      MergedTurns(TurnsOf(codec, CallNames(req.messages), req.messages)),
      if system == [] then None else Some(system),
      Some(Config(req.temperature, req.topP, req.maxTokens, [])))
  }

  // ---- The translator ----

  method ConvertOpenAIToGemini(codec: M.Codec, req: Request) returns (r: GeminiRequest)
    ensures r.Value() == Converted(codec, req)
  {
    hide CallNames, TurnsOf, SystemsOf, MergedTurns;
    var names := CollectNames(req.messages);
    var contents, systemParts := CollectTurns(codec, names, req.messages);
    var merged := MergeTurns(contents);
    var system := if |systemParts| > 0 then Some(systemParts) else None;
    r := new GeminiRequest(Snapshot(merged, system, Some(Config(req.temperature, req.topP, req.maxTokens, []))));
  }

  method CollectNames(messages: seq<M.ChatMessage>) returns (names: map<string, string>)
    ensures names == CallNames(messages)
  {
    names := map[];
    for i := 0 to |messages|
      invariant names == CallNames(messages[..i])
    {
      assert messages[..i + 1][..i] == messages[..i];
      ghost var before := names;
      var calls := messages[i].toolCalls;
      for j := 0 to |calls|
        invariant names == NamedCalls(before, calls[..j])
      {
        assert calls[..j + 1][..j] == calls[..j];
        var tc := calls[j];
        if tc.id != "" && tc.name != "" {
          names := names[tc.id := tc.name];
        }
      }
      assert calls[..|calls|] == calls;
    }
    assert messages[..|messages|] == messages;
  }

  lemma CollectNext(codec: M.Codec, names: map<string, string>, ms: seq<M.ChatMessage>, i: nat)
    requires i < |ms|
    ensures TurnsOf(codec, names, ms[..i + 1]) == TurnsOf(codec, names, ms[..i]) + TurnOf(codec, names, ms[i])
    ensures SystemsOf(codec, ms[..i + 1]) == SystemsOf(codec, ms[..i]) + SystemOf(codec, ms[i])
  {
    hide TurnOf, SystemOf;
    assert ms[..i + 1][..i] == ms[..i];
  }

  lemma CollectNone(codec: M.Codec, names: map<string, string>, ms: seq<M.ChatMessage>)
    ensures TurnsOf(codec, names, ms[..0]) == [] && SystemsOf(codec, ms[..0]) == []
  {
  }

  method CollectTurns(codec: M.Codec, names: map<string, string>, messages: seq<M.ChatMessage>)
    returns (contents: seq<Content>, systemParts: seq<Part>)
    ensures contents == TurnsOf(codec, names, messages) && systemParts == SystemsOf(codec, messages)
  {
    hide TurnsOf, SystemsOf, AnswerTo, CallingParts, TextsOf, PartsOf, Lower;
    CollectNone(codec, names, messages);
    contents, systemParts := [], [];
    for i := 0 to |messages|
      invariant contents == TurnsOf(codec, names, messages[..i]) && systemParts == SystemsOf(codec, messages[..i])
    {
      CollectNext(codec, names, messages, i);
      var msg := messages[i];
      if Lower(msg.role) == "system" {
        var texts := CollectTexts(codec, msg);
        systemParts := systemParts + texts;
      } else if Lower(msg.role) == "tool" {
        contents := contents + [Content("user", [AnswerTo(codec, names, msg)])];
      } else if Lower(msg.role) == "assistant" && |msg.toolCalls| > 0 {
        var parts := CollectCalls(codec, msg);
        contents := contents + [Content("model", parts)];
      } else {
        var turn := CollectParts(codec, msg);
        contents := contents + turn;
      }
    }
    assert messages[..|messages|] == messages;
  }

  method CollectTexts(codec: M.Codec, msg: M.ChatMessage) returns (texts: seq<Part>)
    ensures texts == TextsOf(M.ParsedContent(codec, msg.content))
  {
    var parts := M.ParseMessageContent(codec, msg.content);
    texts := [];
    for i := 0 to |parts|
      invariant texts == TextsOf(parts[..i])
    {
      assert parts[..i + 1][..i] == parts[..i];
      if parts[i].TextPart? && parts[i].text != "" {
        texts := texts + [TextPart(parts[i].text)];
      }
    }
    assert parts[..|parts|] == parts;
  }

  method CollectCalls(codec: M.Codec, msg: M.ChatMessage) returns (parts: seq<Part>)
    ensures parts == CallingParts(codec, msg)
  {
    hide CallOf;
    parts := [];
    var text := M.ContentString(codec, msg.content);
    if text != "" {
      parts := parts + [TextPart(text)];
    }
    ghost var head := parts;
    for i := 0 to |msg.toolCalls|
      invariant parts == head + CallsOf(codec, msg.toolCalls)[..i]
    {
      parts := parts + [CallOf(codec, msg.toolCalls[i])];
    }
  }

  method CollectParts(codec: M.Codec, msg: M.ChatMessage) returns (turn: seq<Content>)
    ensures turn == PlainTurn(codec, msg)
  {
    hide Lower, M.ParsedContent, M.ParseDataURI;
    var parts := M.ParseMessageContent(codec, msg.content);
    if |parts| == 0 {
      assert PartsOf(parts) == [];
      return [];
    }
    var role := if Lower(msg.role) == "assistant" then "model" else "user";
    var geminiParts: seq<Part> := [];
    for i := 0 to |parts|
      invariant geminiParts == PartsOf(parts[..i])
    {
      assert parts[..i + 1][..i] == parts[..i];
      match parts[i]
      case TextPart(text) =>
        if text != "" {
          geminiParts := geminiParts + [TextPart(text)];
        }
      case ImagePart(url, _) =>
        if url != "" {
          var (mime, b64) := M.ParseDataURI(url);
          geminiParts := geminiParts + [DataPart(mime, b64)];
        }
      case AudioPart(data, format) =>
        if data != "" {
          var mime := if format == "mp3" then "audio/mp3" else "audio/wav";
          geminiParts := geminiParts + [DataPart(mime, data)];
        }
    }
    assert parts[..|parts|] == parts;
    turn := if |geminiParts| > 0 then [Content(role, geminiParts)] else [];
  }

  method MergeTurns(contents: seq<Content>) returns (merged: seq<Content>)
    ensures merged == MergedTurns(contents)
  {
    merged := [];
    for i := 0 to |contents|
      invariant merged == MergedTurns(contents[..i])
    {
      assert contents[..i + 1][..i] == contents[..i];
      var c := contents[i];
      var n := |merged|;
      if n > 0 && merged[n - 1].role == c.role {
        merged := merged[..n - 1] + [merged[n - 1].(parts := merged[n - 1].parts + c.parts)];
      } else {
        merged := merged + [c];
      }
    }
    assert contents[..|contents|] == contents;
  }
}
