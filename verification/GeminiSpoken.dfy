/** What a conversation says to Gemini, part by part (internal/provider/gemini.go). */
module GeminiSpoken {
  import opened Common
  import opened Text
  import M = Messages
  import opened Gemini
  import opened R = GeminiRepair
  import opened T = GeminiTranslation
  import opened L = GeminiLanding

  // ---- Names of calls ----

  function AllCalls(ms: seq<M.ChatMessage>): seq<M.ToolCall> {
    if ms == [] then [] else AllCalls(ms[..|ms| - 1]) + ms[|ms| - 1].toolCalls
  }

  /** The name the last call of an id was made under, or "". */
  function NameOf(calls: seq<M.ToolCall>, id: string): string {
    if calls == [] then ""
    else
      var last := calls[|calls| - 1];
      if last.id == id && last.name != "" then last.name else NameOf(calls[..|calls| - 1], id)
  }

  lemma OneMoreName(names: map<string, string>, calls: seq<M.ToolCall>, tc: M.ToolCall, id: string)
    requires id != "" && GetOr(names, id, "") == NameOf(calls, id)
    ensures GetOr(NamedCall(names, tc), id, "") == NameOf(calls + [tc], id)
  {
    assert (calls + [tc])[..|calls|] == calls;
  }

  lemma {:induction false} NamedByCalls(names: map<string, string>, before: seq<M.ToolCall>, calls: seq<M.ToolCall>, id: string)
    requires id != "" && GetOr(names, id, "") == NameOf(before, id)
    ensures GetOr(NamedCalls(names, calls), id, "") == NameOf(before + calls, id)
  {
    hide NamedCall, NameOf;
    if calls == [] {
      assert before + calls == before;
    } else {
      var front, last := calls[..|calls| - 1], calls[|calls| - 1];
      NamedByCalls(names, before, front, id);
      OneMoreName(NamedCalls(names, front), before + front, last, id);
      assert before + calls == before + front + [last];
    }
  }

  lemma {:induction false} NamedByMessages(ms: seq<M.ChatMessage>, id: string)
    requires id != ""
    ensures GetOr(CallNames(ms), id, "") == NameOf(AllCalls(ms), id)
  {
    if ms != [] {
      NamedByMessages(ms[..|ms| - 1], id);
      NamedByCalls(CallNames(ms[..|ms| - 1]), AllCalls(ms[..|ms| - 1]), ms[|ms| - 1].toolCalls, id);
    }
  }

  // ---- What one message says ----

  function Said(text: string): seq<Part> { if text == "" then [] else [Part(text, None, None, None)] }

  function Shown(mimeType: string, data: string): Part { Part("", Some(InlineData(mimeType, data)), None, None) }

  /** The fields of an object's JSON, nothing for null, and `otherwise` for what is no object. */
  function Fields(codec: M.Codec, text: string, otherwise: Option<map<string, M.Json>>): Option<map<string, M.Json>> {
    match codec.unmarshal(text)
    case Some(Obj(fields)) => Some(fields)
    case Some(Null) => None
    case _ => otherwise
  }

  function SaidByPart(p: M.ContentPart): seq<Part> {
    match p
    case TextPart(text) => Said(text)
    case ImagePart(url, _) => if url == "" then [] else [Shown(M.ParseDataURI(url).0, M.ParseDataURI(url).1)]
    case AudioPart(data, format) => if data == "" then [] else [Shown(if format == "mp3" then "audio/mp3" else "audio/wav", data)]
  }

  function SaidByParts(ps: seq<M.ContentPart>): seq<Part> {
    if ps == [] then [] else SaidByParts(ps[..|ps| - 1]) + SaidByPart(ps[|ps| - 1])
  }

  function CallMade(codec: M.Codec, tc: M.ToolCall): Part {
    Part("", None, Some(FunctionCall(tc.name, Fields(codec, tc.arguments, None))), None)
  }

  /** An answer goes under its own name or, without one, the name its id was last called with. */
  function AnswerGiven(codec: M.Codec, calls: seq<M.ToolCall>, m: M.ChatMessage): Part {
    var text := M.ContentString(codec, m.content);
    var known := if m.name != "" then m.name else if m.toolCallId != "" then NameOf(calls, m.toolCallId) else "";
    Part("", None, None, Some(FunctionResponse(
      if known != "" then known else "function_response", Fields(codec, text, Some(map["content" := M.Str(text)])))))
  }

  /** Who is heard when a message of this role is sent, if anyone. */
  function Voice(m: M.ChatMessage): string { if Lower(m.role) == "assistant" then "model" else "user" }

  function Spoken(codec: M.Codec, calls: seq<M.ToolCall>, m: M.ChatMessage): seq<Part> {
    if Lower(m.role) == "system" then []
    else if Lower(m.role) == "tool" then [AnswerGiven(codec, calls, m)]
    else if Lower(m.role) == "assistant" && m.toolCalls != [] then
      Said(M.ContentString(codec, m.content))
      + seq(|m.toolCalls|, i requires 0 <= i < |m.toolCalls| => CallMade(codec, m.toolCalls[i]))
    else SaidByParts(M.ParsedContent(codec, m.content))
  }

  function Heard(voice: string, parts: seq<Part>): seq<(string, Part)> {
    seq(|parts|, i requires 0 <= i < |parts| => (voice, parts[i]))
  }

  function AllSpoken(codec: M.Codec, calls: seq<M.ToolCall>, ms: seq<M.ChatMessage>): seq<(string, Part)> {
    if ms == [] then []
    else AllSpoken(codec, calls, ms[..|ms| - 1]) + Heard(Voice(ms[|ms| - 1]), Spoken(codec, calls, ms[|ms| - 1]))
  }

  /** The texts, not empty, of the system's messages. */
  function SystemTexts(ps: seq<M.ContentPart>): seq<Part> {
    if ps == [] then []
    else SystemTexts(ps[..|ps| - 1]) + if ps[|ps| - 1].TextPart? then Said(ps[|ps| - 1].text) else []
  }

  function AllSystem(codec: M.Codec, ms: seq<M.ChatMessage>): seq<Part> {
    if ms == [] then []
    else
      var last := ms[|ms| - 1];
      AllSystem(codec, ms[..|ms| - 1])
      + if Lower(last.role) == "system" then SystemTexts(M.ParsedContent(codec, last.content)) else []
  }

  lemma AnswerIsGiven(codec: M.Codec, ms: seq<M.ChatMessage>, m: M.ChatMessage)
    ensures AnswerTo(codec, CallNames(ms), m) == AnswerGiven(codec, AllCalls(ms), m)
  {
    hide M.ContentString, NameOf, AllCalls, CallNames;
    if m.toolCallId != "" {
      NamedByMessages(ms, m.toolCallId);
    }
  }

  lemma {:induction false} PartsAreSaid(ps: seq<M.ContentPart>)
    ensures T.PartsOf(ps) == SaidByParts(ps) && TextsOf(ps) == SystemTexts(ps)
  {
    hide M.ParseDataURI;
    if ps != [] {
      PartsAreSaid(ps[..|ps| - 1]);
    }
  }

  lemma TurnSays(codec: M.Codec, ms: seq<M.ChatMessage>, m: M.ChatMessage)
    ensures var turn, parts := TurnOf(codec, CallNames(ms), m), Spoken(codec, AllCalls(ms), m);
            if turn == [] then parts == [] else turn[0].parts == parts && turn[0].role == Voice(m)
  {
    hide M.ContentString, M.ParsedContent, AnswerTo, AnswerGiven, AllCalls, CallNames, Lower, T.PartsOf, SaidByParts, CallsOf, CallMade;
    AnswerIsGiven(codec, ms, m);
    PartsAreSaid(M.ParsedContent(codec, m.content));
    CallsAreMade(codec, m.toolCalls);
    RolesDiffer(m.role);
  }

  lemma TurnIsSpoken(codec: M.Codec, ms: seq<M.ChatMessage>, m: M.ChatMessage)
    ensures Tagged(TurnOf(codec, CallNames(ms), m)) == Heard(Voice(m), Spoken(codec, AllCalls(ms), m))
  {
    hide TurnOf, Spoken, AllCalls, CallNames, Tagged, Voice;
    TurnSays(codec, ms, m);
    TaggedOne(TurnOf(codec, CallNames(ms), m));
  }

  lemma CallsAreMade(codec: M.Codec, calls: seq<M.ToolCall>)
    ensures CallsOf(codec, calls) == seq(|calls|, i requires 0 <= i < |calls| => CallMade(codec, calls[i]))
  {
  }

  lemma {:induction false} TurnsAreSpoken(codec: M.Codec, all: seq<M.ChatMessage>, ms: seq<M.ChatMessage>)
    ensures Tagged(TurnsOf(codec, CallNames(all), ms)) == AllSpoken(codec, AllCalls(all), ms)
    ensures SystemsOf(codec, ms) == AllSystem(codec, ms)
  {
    hide TurnOf, Tagged, Spoken, AllCalls, CallNames, Heard, M.ParsedContent, TextsOf, SystemTexts, Lower;
    if ms == [] {
      NothingTagged();
    } else {
      var front, last := ms[..|ms| - 1], ms[|ms| - 1];
      TurnsAreSpoken(codec, all, front);
      TurnIsSpoken(codec, all, last);
      TaggedConcat(TurnsOf(codec, CallNames(all), front), TurnOf(codec, CallNames(all), last));
      PartsAreSaid(M.ParsedContent(codec, last.content));
    }
  }

  lemma NothingTagged()
    ensures Tagged([]) == []
  {
  }

  /**
   * What is sent is, part by part and in order, what the messages say, each under its voice; the system's texts go
   * into the instruction, which is left out when there are none; the sampling limits go along.
   */
  lemma EverythingIsSaid(codec: M.Codec, req: Request)
    ensures var s := Converted(codec, req);
            && Tagged(s.contents) == AllSpoken(codec, AllCalls(req.messages), req.messages)
            && (if AllSystem(codec, req.messages) == [] then s.system == None
                else s.system == Some(AllSystem(codec, req.messages)))
            && s.config == Some(Config(req.temperature, req.topP, req.maxTokens, []))
  {
    hide Tagged, AllSpoken, AllCalls, CallNames, AllSystem, TurnsOf, MergedTurns;
    ConvertedTurnsAreTidy(codec, req);
    TurnsAreSpoken(codec, req.messages, req.messages);
  }
}
