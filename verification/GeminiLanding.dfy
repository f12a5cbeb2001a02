/** The translation lands in what strict validation accepts. */
module GeminiLanding {
  import opened Common
  import opened Text
  import M = Messages
  import opened Gemini
  import opened Validation
  import opened V = GeminiValidation
  import opened R = GeminiRepair
  import opened T = GeminiTranslation

  lemma TurnIsSettled(codec: M.Codec, names: map<string, string>, m: M.ChatMessage)
    ensures forall i :: 0 <= i < |TurnOf(codec, names, m)| ==> Settled(TurnOf(codec, names, m)[i])
  {
    hide M.ParsedContent, M.ContentString, AnswerTo, Lower, T.PartsOf;
  }

  lemma {:induction false} TurnsAreSettled(codec: M.Codec, names: map<string, string>, ms: seq<M.ChatMessage>)
    ensures forall i :: 0 <= i < |TurnsOf(codec, names, ms)| ==> Settled(TurnsOf(codec, names, ms)[i])
    ensures TurnsOf(codec, names, ms) != [] <==> exists i :: 0 <= i < |ms| && TurnOf(codec, names, ms[i]) != []
  {
    hide TurnOf, Settled;
    if ms != [] {
      var front := ms[..|ms| - 1];
      TurnsAreSettled(codec, names, front);
      TurnIsSettled(codec, names, ms[|ms| - 1]);
      assert forall i :: 0 <= i < |front| ==> front[i] == ms[i];
    }
  }

  lemma {:induction false} MergedTurnsAreTidy(cs: seq<Content>)
    requires forall i :: 0 <= i < |cs| ==> Settled(cs[i])
    ensures TidyTurns(MergedTurns(cs)) && (MergedTurns(cs) == [] <==> cs == [])
    ensures Tagged(MergedTurns(cs)) == Tagged(cs)
  {
    hide Settled, Joined, TidyTurns, Tags;
    if cs == [] {
      EmptyIsTidy();
    } else {
      var front, last := cs[..|cs| - 1], cs[|cs| - 1];
      MergedTurnsAreTidy(front);
      JoinedIsTidy(MergedTurns(front), last);
      JoinedKeepsTags(MergedTurns(front), last);
    }
  }

  /**
   * The turns sent alternate between user and model, none is empty, and every part stands in
   * the order of the messages under its message's role.
   */
  lemma ConvertedTurnsAreTidy(codec: M.Codec, req: Request)
    ensures var s := Converted(codec, req);
            && TidyTurns(s.contents)
            && Tagged(s.contents) == Tagged(TurnsOf(codec, CallNames(req.messages), req.messages))
  {
    hide TidyTurns, Tagged, TurnsOf, MergedTurns;
    TurnsAreSettled(codec, CallNames(req.messages), req.messages);
    MergedTurnsAreTidy(TurnsOf(codec, CallNames(req.messages), req.messages));
  }

  /** Strict validation accepts a translated request, unchanged, exactly when some message yields a turn and the sampling limits hold. */
  lemma StrictAcceptsConvertedIff(codec: M.Codec, req: Request)
    ensures var s := Converted(codec, req);
            var names := CallNames(req.messages);
            if (exists i :: 0 <= i < |req.messages| && TurnOf(codec, names, req.messages[i]) != []) && InRange(s.config)
            then Validated(Strict, s) == Outcome(s, CLEAN)
            else Validated(Strict, s).verdict.error.Some?
  {
    hide TidyTurns, Tagged, TurnsOf, MergedTurns, TurnOf, InRange, Validated;
    var s := Converted(codec, req);
    ConvertedTurnsAreTidy(codec, req);
    TurnsAreSettled(codec, CallNames(req.messages), req.messages);
    MergedTurnsAreTidy(TurnsOf(codec, CallNames(req.messages), req.messages));
    if Tidy(s) {
      TidyIsFixed(Strict, s);
    } else {
      NamedTidyTurns(s.contents);
      StrictAcceptsIff(s);
    }
  }

  lemma NamedTidyTurns(cs: seq<Content>)
    requires TidyTurns(cs)
    ensures Named(cs) == cs
  {
    hide RoleOf, V.IsSystem, Repaired, Objection, RepairWarnings;
    forall i | 0 <= i < |cs| ensures Named(cs)[i] == cs[i] {
      SettledKeepsRole(cs[i]);
    }
  }

  // ---- A tool's answer finds the name of its call ----

  predicate Calls(m: M.ChatMessage, id: string, name: string) {
    exists j :: 0 <= j < |m.toolCalls| && m.toolCalls[j].id == id && m.toolCalls[j].name == name
  }

  /** Every named call under `id`, among `calls`, is a call of `name`. */
  predicate OnlyCalls(calls: seq<M.ToolCall>, id: string, name: string) {
    forall j :: 0 <= j < |calls| && calls[j].id == id && calls[j].name != "" ==> calls[j].name == name
  }

  lemma {:induction false} NamesFromCalls(names: map<string, string>, calls: seq<M.ToolCall>, id: string, name: string)
    requires id != "" && name != "" && OnlyCalls(calls, id, name) && (id in names ==> names[id] == name)
    ensures var r := NamedCalls(names, calls);
            && (id in r ==> r[id] == name)
            && (id in names || (exists j :: 0 <= j < |calls| && calls[j].id == id && calls[j].name == name) ==> id in r)
  {
    if calls != [] {
      var front := calls[..|calls| - 1];
      NamesFromCalls(names, front, id, name);
      assert forall j :: 0 <= j < |front| ==> front[j] == calls[j];
    }
  }

  lemma {:induction false} NamesFromMessages(ms: seq<M.ChatMessage>, id: string, name: string)
    requires id != "" && name != "" && forall i :: 0 <= i < |ms| ==> OnlyCalls(ms[i].toolCalls, id, name)
    ensures var r := CallNames(ms);
            && (id in r ==> r[id] == name)
            && ((exists i :: 0 <= i < |ms| && Calls(ms[i], id, name)) ==> id in r)
  {
    hide NamedCalls, OnlyCalls;
    if ms != [] {
      var front, last := ms[..|ms| - 1], ms[|ms| - 1];
      NamesFromMessages(front, id, name);
      NamesFromCalls(CallNames(front), last.toolCalls, id, name);
      assert forall i :: 0 <= i < |front| ==> front[i] == ms[i];
    }
  }

  /** An unnamed tool answer is sent under the name of the function its id was called with. */
  lemma AnswersFindTheirCalls(ms: seq<M.ChatMessage>, m: M.ChatMessage, name: string)
    requires m.name == "" && m.toolCallId != "" && name != ""
    requires exists i :: 0 <= i < |ms| && Calls(ms[i], m.toolCallId, name)
    requires forall i :: 0 <= i < |ms| ==> OnlyCalls(ms[i].toolCalls, m.toolCallId, name)
    ensures AnswerName(CallNames(ms), m) == name
  {
    NamesFromMessages(ms, m.toolCallId, name);
  }

  // ---- Every call is sent, in order, by the model ----

  /** The function calls among tagged parts, with the role that makes them. */
  function CallsAmong(tagged: seq<(string, Part)>): seq<(string, FunctionCall)> {
    if tagged == [] then []
    else
      CallsAmong(tagged[..|tagged| - 1])
      + match tagged[|tagged| - 1].1.functionCall case Some(c) => [(tagged[|tagged| - 1].0, c)] case None => []
  }

  /** The calls the conversation makes: each tool call of each assistant message, arguments decoded. */
  function CallsMade(codec: M.Codec, ms: seq<M.ChatMessage>): seq<(string, FunctionCall)> {
    if ms == [] then []
    else
      var last := ms[|ms| - 1];
      CallsMade(codec, ms[..|ms| - 1]) + if Lower(last.role) == "assistant" then CallsIn(codec, last.toolCalls) else []
  }

  function CallsIn(codec: M.Codec, calls: seq<M.ToolCall>): (r: seq<(string, FunctionCall)>)
    ensures |r| == |calls|
  {
    seq(|calls|, i requires 0 <= i < |calls| =>
      ("model", FunctionCall(calls[i].name, match DecodedObject(codec, calls[i].arguments) case Ok(args) => args case Err(_) => None)))
  }

  lemma {:induction false} CallsConcat(a: seq<(string, Part)>, b: seq<(string, Part)>)
    ensures CallsAmong(a + b) == CallsAmong(a) + CallsAmong(b)
  {
    if b == [] {
      assert a + b == a;
    } else {
      assert (a + b)[..|a + b| - 1] == a + b[..|b| - 1];
      CallsConcat(a, b[..|b| - 1]);
    }
  }

  lemma {:induction false} NoCallsAmong(tagged: seq<(string, Part)>)
    requires forall i :: 0 <= i < |tagged| ==> tagged[i].1.functionCall.None?
    ensures CallsAmong(tagged) == []
  {
    if tagged != [] {
      NoCallsAmong(tagged[..|tagged| - 1]);
    }
  }

  lemma {:induction false} AllCallsAmong(codec: M.Codec, tagged: seq<(string, Part)>, calls: seq<M.ToolCall>)
    requires |tagged| == |calls| && forall i :: 0 <= i < |calls| ==> tagged[i] == ("model", CallOf(codec, calls[i]))
    ensures CallsAmong(tagged) == CallsIn(codec, calls)
  {
    if calls != [] {
      var n := |calls| - 1;
      AllCallsAmong(codec, tagged[..n], calls[..n]);
      assert CallsIn(codec, calls) == CallsIn(codec, calls[..n]) + [CallsIn(codec, calls)[n]];
    } else {
      assert CallsIn(codec, calls) == [];
    }
  }

  lemma {:induction false} NoCallParts(ps: seq<M.ContentPart>)
    ensures forall i :: 0 <= i < |T.PartsOf(ps)| ==> T.PartsOf(ps)[i].functionCall.None?
  {
    if ps != [] {
      NoCallParts(ps[..|ps| - 1]);
    }
  }

  lemma CallingPartsCalls(codec: M.Codec, m: M.ChatMessage)
    ensures CallsAmong(Tags(Content("model", CallingParts(codec, m)))) == CallsIn(codec, m.toolCalls)
  {
    hide CallsIn, CallOf;
    var text := M.ContentString(codec, m.content);
    var head := if text != "" then [TextPart(text)] else [];
    var tagged := Tags(Content("model", CallingParts(codec, m)));
    assert tagged == tagged[..|head|] + tagged[|head|..];
    NoCallsAmong(tagged[..|head|]);
    AllCallsAmong(codec, tagged[|head|..], m.toolCalls);
    CallsConcat(tagged[..|head|], tagged[|head|..]);
  }

  lemma TurnCalls(codec: M.Codec, names: map<string, string>, m: M.ChatMessage)
    ensures CallsAmong(Tagged(TurnOf(codec, names, m)))
         == if Lower(m.role) == "assistant" then CallsIn(codec, m.toolCalls) else []
  {
    hide Lower, M.ContentString, M.ParsedContent, CallsAmong, T.PartsOf, CallingParts, AnswerTo, CallsIn, Tags;
    TaggedOne(TurnOf(codec, names, m));
    NoCallsAmong([]);
    RolesDiffer(m.role);
    if IsCalling(m) {
      CallingPartsCalls(codec, m);
    } else {
      NoToolCalls(codec);
      NoCallParts(M.ParsedContent(codec, m.content));
      forall c | c in TurnOf(codec, names, m) ensures CallsAmong(Tags(c)) == [] {
        OtherTurnsCallNothing(codec, names, m, c);
      }
    }
  }

  lemma NoToolCalls(codec: M.Codec)
    ensures CallsIn(codec, []) == []
  {
  }

  lemma OtherTurnsCallNothing(codec: M.Codec, names: map<string, string>, m: M.ChatMessage, c: Content)
    requires !IsCalling(m) && c in TurnOf(codec, names, m)
    ensures CallsAmong(Tags(c)) == []
  {
    hide Lower, M.ContentString, M.ParsedContent, CallsAmong, T.PartsOf, AnswerName, DecodedObject;
    NoCallParts(M.ParsedContent(codec, m.content));
    NoCallsAmong(Tags(c));
  }

  lemma RolesDiffer(role: string)
    ensures Lower(role) == "assistant" ==> Lower(role) != "system" && Lower(role) != "tool"
  {
  }

  lemma TaggedOne(turns: seq<Content>)
    requires |turns| <= 1
    ensures Tagged(turns) == if turns == [] then [] else Tags(turns[0])
  {
    hide Tags;
    assert turns != [] ==> turns[..0] == [];
  }

  lemma {:induction false} TaggedConcat(a: seq<Content>, b: seq<Content>)
    ensures Tagged(a + b) == Tagged(a) + Tagged(b)
  {
    hide Tags;
    if b == [] {
      assert a + b == a;
    } else {
      assert (a + b)[..|a + b| - 1] == a + b[..|b| - 1];
      TaggedConcat(a, b[..|b| - 1]);
    }
  }

  lemma {:induction false} TurnsCall(codec: M.Codec, names: map<string, string>, ms: seq<M.ChatMessage>)
    ensures CallsAmong(Tagged(TurnsOf(codec, names, ms))) == CallsMade(codec, ms)
  {
    hide TurnOf, CallsIn, Tagged, CallsAmong, Lower;
    if ms == [] {
      NoCallsAmong([]);
      TaggedOne([]);
    } else {
      var front, last := ms[..|ms| - 1], ms[|ms| - 1];
      TurnsCall(codec, names, front);
      TurnCalls(codec, names, last);
      TaggedConcat(TurnsOf(codec, names, front), TurnOf(codec, names, last));
      CallsConcat(Tagged(TurnsOf(codec, names, front)), Tagged(TurnOf(codec, names, last)));
    }
  }

  /** The request sent makes exactly the conversation's tool calls, in order, all of them in the model's turns. */
  lemma CallsAreSentInOrder(codec: M.Codec, req: Request)
    ensures CallsAmong(Tagged(Converted(codec, req).contents)) == CallsMade(codec, req.messages)
  {
    hide TurnsOf, Tagged, CallsAmong, CallsMade, MergedTurns, TidyTurns;
    ConvertedTurnsAreTidy(codec, req);
    TurnsCall(codec, CallNames(req.messages), req.messages);
  }
}
