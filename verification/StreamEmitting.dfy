/** The Anthropic event stream made from an upstream's chunks (internal/api/inbound_anthropic.go). */
module StreamEmitting {
  import opened Common

  datatype ToolDelta = ToolDelta(index: Option<nat>, id: string, name: string, arguments: string)

  datatype Choice = Choice(content: string, toolCalls: seq<ToolDelta>, finishReason: Option<string>)

  datatype Usage = Usage(prompt: int, completion: int)

  datatype Chunk = Chunk(id: string, choices: seq<Choice>, usage: Option<Usage>)

  datatype Event = Event(chunk: Option<Chunk>, channel: string, isDone: bool, err: Option<string>)

  /** What the loop's select yields next: an event, the stream's end, or the client leaving. */
  datatype Arrival = Next(event: Event) | Close | Cancel

  datatype Block = TextBlock | ToolBlock(id: string, name: string)

  datatype Sse =
    | MessageStart
    | BlockStart(index: nat, block: Block)
    | TextDelta(index: nat, text: string)
    | JsonDelta(index: nat, partial: string)
    | BlockStop(index: nat)
    | MessageDelta(stopReason: string, outputTokens: int)
    | MessageStop
    | StreamError(message: string)

  /** The audit record written when the stream ends. */
  datatype Audit = Audit(channel: string, chatId: string, prompt: int, completion: int)

  datatype State = State(
    out: seq<Sse>, index: nat, textOpen: bool, toolOpen: bool, stopReason: string,
    prompt: int, completion: int, channel: string, chatId: string,
    ended: bool, audits: seq<Audit>)

  const HEAD: seq<Sse> := [MessageStart, BlockStart(0, TextBlock)]

  const INITIAL := State(HEAD, 0, true, false, "end_turn", 0, 0, "", "", false, [])

  // ---- One step of the loop ----

  function Stops(s: State): seq<Sse> {
    (if s.textOpen then [BlockStop(s.index)] else []) + if s.toolOpen then [BlockStop(s.index)] else []
  }

  function StartTool(s: State, tc: ToolDelta): State {
    if tc.id == "" || tc.name == "" then s
    else s.(out := s.out + Stops(s) + [BlockStart(s.index + 1, ToolBlock(tc.id, tc.name))],
            index := s.index + 1, textOpen := false, toolOpen := true, stopReason := "tool_use")
  }

  function AddArguments(s: State, tc: ToolDelta): State {
    if tc.arguments == "" then s
    else s.(out := s.out + [JsonDelta(s.index, tc.arguments)], stopReason := "tool_use")
  }

  function OnToolCalls(s: State, tcs: seq<ToolDelta>): State {
    if tcs == [] then s
    else
      var before := OnToolCalls(s, tcs[..|tcs| - 1]);
      AddArguments(StartTool(before, tcs[|tcs| - 1]), tcs[|tcs| - 1])
  }

  function OnFinish(s: State, reason: Option<string>): State {
    match reason
    case Some(r) =>
      if r == "tool_calls" then s.(stopReason := "tool_use")
      else if r == "length" then s.(stopReason := "max_tokens")
      else s
    case None => s
  }

  function OnText(s: State, text: string): State {
    if text == "" then s else s.(out := s.out + [TextDelta(0, text)], completion := s.completion + 1)
  }

  function OnUsage(s: State, usage: Option<Usage>): State {
    match usage case Some(u) => s.(prompt := u.prompt, completion := u.completion) case None => s
  }

  /** Usage counts only in a chunk that has a choice. */
  function OnChunk(s: State, c: Chunk): State {
    var t := if c.id != "" && s.chatId == "" then s.(chatId := c.id) else s;
    if c.choices == [] then t
    else
      var choice := c.choices[0];
      OnUsage(OnToolCalls(OnText(OnFinish(t, choice.finishReason), choice.content), choice.toolCalls), c.usage)
  }

  function Audited(s: State): State {
    s.(ended := true, audits := s.audits + [Audit(s.channel, s.chatId, s.prompt, s.completion)])
  }

  function OnEvent(s: State, e: Event): State {
    var t := if s.channel == "" then s.(channel := e.channel) else s;
    if e.err.Some? then Audited(t.(out := t.out + [StreamError(e.err.value)]))
    else if e.isDone || e.chunk.None? then t
    else OnChunk(t, e.chunk.value)
  }

  function OnClose(s: State): State {
    var stop := if s.textOpen || s.toolOpen then [BlockStop(s.index)] else [];
    Audited(s.(out := s.out + stop + [MessageDelta(s.stopReason, s.completion), MessageStop]))
  }

  function OnArrival(s: State, a: Arrival): State {
    match a
    case Next(e) => OnEvent(s, e)
    case Close => OnClose(s)
    case Cancel => Audited(s)
  }

  /** The loop on the arrivals from `s` on; it ends at the first one that ends it. */
  function Emitted(s: State, arrivals: seq<Arrival>): State
    decreases |arrivals|
  {
    if arrivals == [] || s.ended then s else Emitted(OnArrival(s, arrivals[0]), arrivals[1..])
  }

  // ---- The loop ----

  class Emitter {
    var out: seq<Sse>
    var currentBlockIndex: nat
    var textBlockOpened: bool
    var toolBlockOpened: bool
    var stopReason: string
    var totalPromptTokens: int
    var totalCompTokens: int
    var upstreamChannel: string
    var chatId: string
    var ended: bool
    var audits: seq<Audit>

    function Value(): State
      reads this
    {
      State(out, currentBlockIndex, textBlockOpened, toolBlockOpened, stopReason,
            totalPromptTokens, totalCompTokens, upstreamChannel, chatId, ended, audits)
    }

    constructor ()
      ensures Value() == INITIAL
    {
      out := [MessageStart, BlockStart(0, TextBlock)];
      currentBlockIndex, textBlockOpened, toolBlockOpened := 0, true, false;
      stopReason, totalPromptTokens, totalCompTokens := "end_turn", 0, 0;
      upstreamChannel, chatId, ended, audits := "", "", false, [];
    }

    method Write(e: Sse)
      modifies this`out
      ensures out == old(out) + [e]
    {
      out := out + [e];
    }

    method RecordStreamEnd()
      modifies this`ended, this`audits
      ensures Value() == Audited(old(Value()))
    {
      audits := audits + [Audit(upstreamChannel, chatId, totalPromptTokens, totalCompTokens)];
      ended := true;
    }

    method Stream(arrivals: seq<Arrival>)
      requires !ended
      modifies this
      ensures Value() == Emitted(old(Value()), arrivals)
    {
      hide OnEvent, OnClose, Audited;
      var i := 0;
      while i < |arrivals| && !ended
        invariant 0 <= i <= |arrivals|
        invariant Emitted(Value(), arrivals[i..]) == Emitted(old(Value()), arrivals)
        decreases |arrivals| - i
      {
        assert arrivals[i..][0] == arrivals[i] && arrivals[i..][1..] == arrivals[i + 1..];
        match arrivals[i] {
          case Cancel => RecordStreamEnd();
          case Close => Finish();
          case Next(event) => HandleEvent(event);
        }
        i := i + 1;
      }
    }

    method Finish()
      modifies this
      ensures Value() == OnClose(old(Value()))
    {
      ghost var was := out;
      if textBlockOpened || toolBlockOpened {
        Write(BlockStop(currentBlockIndex));
      }
      ghost var stop := out[|was|..];
      Write(MessageDelta(stopReason, totalCompTokens));
      Write(MessageStop);
      assert out == was + stop + [MessageDelta(stopReason, totalCompTokens), MessageStop];
      RecordStreamEnd();
    }

    method HandleEvent(event: Event)
      modifies this
      ensures Value() == OnEvent(old(Value()), event)
    {
      hide OnChunk;
      if upstreamChannel == "" && event.channel != "" {
        upstreamChannel := event.channel;
      }
      if event.err.Some? {
        Write(StreamError(event.err.value));
        RecordStreamEnd();
        return;
      }
      if event.isDone {
        return;
      }
      if event.chunk.Some? {
        HandleChunk(event.chunk.value);
      }
    }

    method HandleChunk(chunk: Chunk)
      modifies this
      ensures Value() == OnChunk(old(Value()), chunk)
    {
      hide OnToolCalls, OnFinish, OnText;
      if chunk.id != "" && chatId == "" {
        chatId := chunk.id;
      }
      if |chunk.choices| > 0 {
        var choice := chunk.choices[0];
        NoteFinish(choice.finishReason);
        SendText(choice.content);
        HandleToolCalls(choice.toolCalls);
        if chunk.usage.Some? {
          totalPromptTokens := chunk.usage.value.prompt;
          totalCompTokens := chunk.usage.value.completion;
        }
      }
    }

    method NoteFinish(reason: Option<string>)
      modifies this
      ensures Value() == OnFinish(old(Value()), reason)
    {
      if reason.Some? {
        if reason.value == "tool_calls" {
          stopReason := "tool_use";
        } else if reason.value == "length" {
          stopReason := "max_tokens";
        }
      }
    }

    method SendText(text: string)
      modifies this
      ensures Value() == OnText(old(Value()), text)
    {
      if text != "" {
        totalCompTokens := totalCompTokens + 1;
        Write(TextDelta(0, text));
      }
    }

    method HandleToolCalls(toolCalls: seq<ToolDelta>)
      modifies this
      ensures Value() == OnToolCalls(old(Value()), toolCalls)
    {
      hide StartTool, AddArguments;
      for i := 0 to |toolCalls|
        invariant Value() == OnToolCalls(old(Value()), toolCalls[..i])
      {
        assert toolCalls[..i + 1][..i] == toolCalls[..i];
        OpenTool(toolCalls[i]);
        SendArguments(toolCalls[i]);
      }
      assert toolCalls[..|toolCalls|] == toolCalls;
    }

    method OpenTool(tc: ToolDelta)
      modifies this
      ensures Value() == StartTool(old(Value()), tc)
    {
      if tc.id != "" && tc.name != "" {
        if textBlockOpened {
          Write(BlockStop(currentBlockIndex));
          textBlockOpened := false;
        }
        if toolBlockOpened {
          Write(BlockStop(currentBlockIndex));
        }
        assert out == old(out) + Stops(old(Value()));
        currentBlockIndex := currentBlockIndex + 1;
        toolBlockOpened := true;
        stopReason := "tool_use";
        Write(BlockStart(currentBlockIndex, ToolBlock(tc.id, tc.name)));
      }
    }

    method SendArguments(tc: ToolDelta)
      modifies this
      ensures Value() == AddArguments(old(Value()), tc)
    {
      if tc.arguments != "" {
        stopReason := "tool_use";
        Write(JsonDelta(currentBlockIndex, tc.arguments));
      }
    }
  }
}
