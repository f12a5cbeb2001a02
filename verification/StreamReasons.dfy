/** Why a message is said to have stopped, and whom its record names (internal/api/inbound_anthropic.go). */
module StreamReasons {
  import opened Common
  import opened StreamEmitting
  import opened StreamRuns

  // ---- The stop reason ----

  /** What an event says about how the message stops: its finish reason first, then its tool calls. */
  function CuesOfCall(tc: ToolDelta): seq<string> {
    if (tc.id != "" && tc.name != "") || tc.arguments != "" then ["tool_use"] else []
  }

  function CuesOfCalls(tcs: seq<ToolDelta>): seq<string> {
    if tcs == [] then [] else CuesOfCalls(tcs[..|tcs| - 1]) + CuesOfCall(tcs[|tcs| - 1])
  }

  function CuesOfFinish(reason: Option<string>): seq<string> {
    match reason
    case Some("tool_calls") => ["tool_use"]
    case Some("length") => ["max_tokens"]
    case _ => []
  }

  function CuesOf(a: Arrival): seq<string> {
    if Terminal(a) || a.event.isDone || a.event.chunk.None? || a.event.chunk.value.choices == [] then []
    else
      var choice := a.event.chunk.value.choices[0];
      CuesOfFinish(choice.finishReason) + CuesOfCalls(choice.toolCalls)
  }

  function Cues(arrivals: seq<Arrival>): seq<string> {
    if arrivals == [] || Terminal(arrivals[0]) then [] else CuesOf(arrivals[0]) + Cues(arrivals[1..])
  }

  function LastOr(cues: seq<string>, otherwise: string): string {
    if cues == [] then otherwise else cues[|cues| - 1]
  }

  lemma CallCues(s: State, tc: ToolDelta)
    ensures AddArguments(StartTool(s, tc), tc).stopReason == LastOr(CuesOfCall(tc), s.stopReason)
  {
  }

  lemma {:induction false} CallsCue(s: State, tcs: seq<ToolDelta>)
    ensures OnToolCalls(s, tcs).stopReason == LastOr(CuesOfCalls(tcs), s.stopReason)
  {
    if tcs != [] {
      hide StartTool, AddArguments, CuesOfCall;
      CallsCue(s, tcs[..|tcs| - 1]);
      CallCues(OnToolCalls(s, tcs[..|tcs| - 1]), tcs[|tcs| - 1]);
    }
  }

  lemma FinishCues(s: State, reason: Option<string>, text: string)
    ensures OnText(OnFinish(s, reason), text).stopReason == LastOr(CuesOfFinish(reason), s.stopReason)
    ensures OnText(OnFinish(s, reason), text).channel == s.channel && OnText(OnFinish(s, reason), text).chatId == s.chatId
  {
  }

  lemma ChunkCues(s: State, c: Chunk)
    ensures OnChunk(s, c).stopReason == if c.choices == [] then s.stopReason
      else LastOr(CuesOfFinish(c.choices[0].finishReason) + CuesOfCalls(c.choices[0].toolCalls), s.stopReason)
  {
    if c.choices != [] {
      hide OnToolCalls, CuesOfCalls, OnText, OnFinish, CuesOfFinish, OnUsage;
      var t := if c.id != "" && s.chatId == "" then s.(chatId := c.id) else s;
      var u := OnText(OnFinish(t, c.choices[0].finishReason), c.choices[0].content);
      hide LastOr;
      FinishCues(t, c.choices[0].finishReason, c.choices[0].content);
      CallsCue(u, c.choices[0].toolCalls);
      LastOfBoth(CuesOfFinish(c.choices[0].finishReason), CuesOfCalls(c.choices[0].toolCalls), s.stopReason);
      UsageKeepsReason(OnToolCalls(u, c.choices[0].toolCalls), c.usage);
    }
  }

  lemma LastOfBoth(a: seq<string>, b: seq<string>, otherwise: string)
    ensures LastOr(a + b, otherwise) == LastOr(b, LastOr(a, otherwise))
  {
  }

  lemma UsageKeepsReason(s: State, usage: Option<Usage>)
    ensures OnUsage(s, usage).stopReason == s.stopReason
  {
  }

  lemma ArrivalCues(s: State, a: Arrival)
    requires !Terminal(a)
    ensures OnArrival(s, a).stopReason == LastOr(CuesOf(a), s.stopReason)
  {
    hide OnChunk, CuesOfFinish, CuesOfCalls;
    if !a.event.isDone && a.event.chunk.Some? {
      ChunkCues(if s.channel == "" then s.(channel := a.event.channel) else s, a.event.chunk.value);
    }
  }

  lemma TerminalKeepsReason(s: State, a: Arrival)
    requires Terminal(a)
    ensures OnArrival(s, a).stopReason == s.stopReason && OnArrival(s, a).ended
  {
  }

  lemma {:induction false} ReasonIsLastCue(s: State, arrivals: seq<Arrival>)
    requires !s.ended
    ensures Emitted(s, arrivals).stopReason == LastOr(Cues(arrivals), s.stopReason)
    decreases |arrivals|
  {
    hide OnArrival, CuesOf;
    if arrivals != [] {
      var t := OnArrival(s, arrivals[0]);
      if Terminal(arrivals[0]) {
        TerminalKeepsReason(s, arrivals[0]);
        EndedStays(t, arrivals[1..]);
      } else {
        ArrivalCues(s, arrivals[0]);
        StaysOpen(s, arrivals[0]);
        ReasonIsLastCue(t, arrivals[1..]);
      }
    }
  }

  lemma StaysOpen(s: State, a: Arrival)
    requires !s.ended && !Terminal(a)
    ensures !OnArrival(s, a).ended
  {
    hide OnArrival;
    ArrivalCounts(s, a);
  }

  /** What a closed stream ends with: the last cue as the reason, "end_turn" without one, and the tokens of its record. */
  lemma ClosingSays(before: seq<Arrival>)
    requires EndOf(before) == None
    ensures var r := Emitted(INITIAL, before + [Close]);
            && |r.out| >= 2 && r.out[|r.out| - 1] == MessageStop && |r.audits| == 1
            && r.out[|r.out| - 2] == MessageDelta(LastOr(Cues(before), "end_turn"), r.audits[0].completion)
  {
    hide Emitted;
    var s := Emitted(INITIAL, before);
    OpenRun(before);
    ReasonIsLastCue(INITIAL, before);
    OutputOnlyGrows(INITIAL, before, [Close]);
    EmittedOne(s, Close, []);
    assert [Close] + [] == [Close];
    EndedStays(OnClose(s), []);
  }

  // ---- The names in the record ----

  /** Channel names carried by the events, up to the end of the stream and an error that ends it. */
  function ChannelsIn(arrivals: seq<Arrival>): seq<string> {
    if arrivals == [] || !arrivals[0].Next? then []
    else
      [arrivals[0].event.channel] + if Terminal(arrivals[0]) then [] else ChannelsIn(arrivals[1..])
  }

  /** Ids carried by the chunks of the events that are no end mark. */
  function IdsIn(arrivals: seq<Arrival>): seq<string> {
    if arrivals == [] || Terminal(arrivals[0]) then []
    else
      var e := arrivals[0].event;
      (if !e.isDone && e.chunk.Some? then [e.chunk.value.id] else []) + IdsIn(arrivals[1..])
  }

  /** `name` is the first of `names` that is not empty, or empty. */
  predicate IsFirstNonEmpty(name: string, names: seq<string>) {
    if name == "" then forall i :: 0 <= i < |names| ==> names[i] == ""
    else exists i :: 0 <= i < |names| && names[i] == name && forall j :: 0 <= j < i ==> names[j] == ""
  }

  function FirstNonEmpty(names: seq<string>): string {
    if names == [] then "" else if names[0] != "" then names[0] else FirstNonEmpty(names[1..])
  }

  lemma {:induction false} FirstNonEmptyIs(names: seq<string>)
    ensures IsFirstNonEmpty(FirstNonEmpty(names), names)
  {
    if names != [] && names[0] == "" {
      FirstNonEmptyIs(names[1..]);
      var name := FirstNonEmpty(names[1..]);
      if name == "" {
        assert forall i :: 0 < i < |names| ==> names[i] == names[1..][i - 1];
      } else {
        var i :| 0 <= i < |names[1..]| && names[1..][i] == name && forall j :: 0 <= j < i ==> names[1..][j] == "";
        assert names[i + 1] == name;
        assert forall j :: 0 < j < i + 1 ==> names[j] == names[1..][j - 1];
      }
    }
  }

  lemma {:induction false} CallsKeepNames(s: State, tcs: seq<ToolDelta>)
    ensures OnToolCalls(s, tcs).channel == s.channel && OnToolCalls(s, tcs).chatId == s.chatId
  {
    if tcs != [] {
      CallsKeepNames(s, tcs[..|tcs| - 1]);
    }
  }

  lemma ChunkNames(s: State, c: Chunk)
    ensures OnChunk(s, c).channel == s.channel && OnChunk(s, c).chatId == if s.chatId == "" then c.id else s.chatId
  {
    if c.choices != [] {
      hide OnToolCalls, OnText, OnFinish;
      var t := if c.id != "" && s.chatId == "" then s.(chatId := c.id) else s;
      FinishCues(t, c.choices[0].finishReason, c.choices[0].content);
      CallsKeepNames(OnText(OnFinish(t, c.choices[0].finishReason), c.choices[0].content), c.choices[0].toolCalls);
    }
  }

  lemma ArrivalNames(s: State, a: Arrival)
    ensures OnArrival(s, a).channel == if s.channel == "" && a.Next? then a.event.channel else s.channel
    ensures OnArrival(s, a).chatId
         == if s.chatId == "" && !Terminal(a) && !a.event.isDone && a.event.chunk.Some? then a.event.chunk.value.id else s.chatId
  {
    hide OnChunk;
    if !Terminal(a) && !a.event.isDone && a.event.chunk.Some? {
      ChunkNames(if s.channel == "" then s.(channel := a.event.channel) else s, a.event.chunk.value);
    }
  }

  lemma FirstNonEmptyCons(name: string, rest: seq<string>)
    ensures FirstNonEmpty([name] + rest) == if name != "" then name else FirstNonEmpty(rest)
    ensures FirstNonEmpty([name]) == name && FirstNonEmpty([]) == ""
  {
    assert ([name] + rest)[1..] == rest && [name][1..] == [];
  }

  lemma {:induction false} NamesAreFirst(s: State, arrivals: seq<Arrival>)
    requires !s.ended
    ensures var r := Emitted(s, arrivals);
            && r.channel == (if s.channel != "" then s.channel else FirstNonEmpty(ChannelsIn(arrivals)))
            && r.chatId == (if s.chatId != "" then s.chatId else FirstNonEmpty(IdsIn(arrivals)))
    decreases |arrivals|
  {
    hide OnArrival, FirstNonEmpty;
    FirstNonEmptyCons("", []);
    if arrivals != [] {
      var a, t := arrivals[0], OnArrival(s, arrivals[0]);
      ArrivalNames(s, a);
      if Terminal(a) {
        TerminalKeepsReason(s, a);
        EndedStays(t, arrivals[1..]);
        if a.Next? {
          FirstNonEmptyCons(a.event.channel, []);
        }
      } else {
        StaysOpen(s, a);
        NamesAreFirst(t, arrivals[1..]);
        FirstNonEmptyCons(a.event.channel, ChannelsIn(arrivals[1..]));
        if !a.event.isDone && a.event.chunk.Some? {
          FirstNonEmptyCons(a.event.chunk.value.id, IdsIn(arrivals[1..]));
        }
        assert [] + IdsIn(arrivals[1..]) == IdsIn(arrivals[1..]);
      }
    }
  }

  /** The one record of a stream names the first channel any event named and the first id any chunk carried. */
  lemma RecordNamesTheFirst(arrivals: seq<Arrival>)
    requires EndOf(arrivals).Some?
    ensures var r := Emitted(INITIAL, arrivals);
            && |r.audits| == 1
            && IsFirstNonEmpty(r.audits[0].channel, ChannelsIn(arrivals))
            && IsFirstNonEmpty(r.audits[0].chatId, IdsIn(arrivals))
  {
    hide Emitted, ChannelsIn, IdsIn, IsFirstNonEmpty, FirstNonEmpty;
    NamesAreFirst(INITIAL, arrivals);
    AuditIsOfState(INITIAL, arrivals);
    FirstNonEmptyIs(ChannelsIn(arrivals));
    FirstNonEmptyIs(IdsIn(arrivals));
  }

  lemma {:induction false} AuditIsOfState(s: State, arrivals: seq<Arrival>)
    requires !s.ended && EndOf(arrivals).Some?
    ensures var r := Emitted(s, arrivals);
            r.audits == s.audits + [Audit(r.channel, r.chatId, r.prompt, r.completion)]
    decreases |arrivals|
  {
    hide OnArrival;
    var t := OnArrival(s, arrivals[0]);
    if Terminal(arrivals[0]) {
      EndAudits(s, arrivals[0]);
      EndedStays(t, arrivals[1..]);
    } else {
      ArrivalCounts(s, arrivals[0]);
      AuditIsOfState(t, arrivals[1..]);
    }
  }
}
