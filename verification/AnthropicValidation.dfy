/** Strict acceptance and lenient repair of Anthropic requests (internal/validator/anthropic.go). */
module AnthropicValidation {
  import opened Common
  import opened Text
  import opened Messages
  import opened AnthropicTranslation
  import opened Validation

  datatype Snapshot = Snapshot(
    system: string, messages: seq<InboundMessage>, maxTokens: int, temperature: Option<real>, topP: Option<real>)

  datatype Error =
    | MaxTokensRequired
    | NoMessages
    | MisplacedSystem(at: nat)
    | OnlySystem
    | FirstNotUser(role: string)
    | InvalidRole(at: nat, role: string)
    | Consecutive(at: nat, role: string)
    | TemperatureOutOfRange(value: real)
    | TopPOutOfRange(value: real)

  datatype Warning =
    | InjectedMaxTokens
    | MovedSystem
    | PrependedUser
    | NormalizedRole(at: nat)
    | Merged(role: string)
    | ClampedTemperature(value: real)
    | ClampedTopP(value: real)

  datatype Verdict = Verdict(error: Option<Error>, warnings: seq<Warning>)

  const CLEAN := Verdict(None, [])

  function RoleOf(m: InboundMessage): string { Lower(TrimSpace(m.role)) }

  predicate IsSystemRole(m: InboundMessage) { RoleOf(m) == "system" }

  const HELLO := InboundMessage("user", Str("Hello"))

  // ---- Contents ----

  function TextIn(b: Json): string {
    if Field(b, "type") == Str("text") then StringOf(Field(b, "text")) else ""
  }

  function TextsIn(blocks: seq<Json>): string {
    if blocks == [] then "" else TextsIn(blocks[..|blocks| - 1]) + TextIn(blocks[|blocks| - 1])
  }

  function ExtractString(codec: Codec, content: Json): string {
    match content case Null => "" case Str(s) => s case Arr(bs) => TextsIn(bs) case _ => codec.marshal(content)
  }

  function ToSlice(c: Json): seq<Json> {
    match c case Null => [] case Arr(bs) => bs case Str(s) => [TextBlock(s)] case _ => [c]
  }

  function MergeContents(a: Json, b: Json): Json {
    if a.Str? && b.Str? then Str(a.s + "\n\n" + b.s) else Arr(ToSlice(a) + ToSlice(b))
  }

  // ---- What each phase computes ----

  function Kept(ms: seq<InboundMessage>): seq<InboundMessage> {
    if ms == [] then []
    else Kept(ms[..|ms| - 1]) + if IsSystemRole(ms[|ms| - 1]) then [] else [ms[|ms| - 1]]
  }

  function AddSystem(system: string, more: string): string {
    if system == "" then more else system + "\n\n" + more
  }

  function Moved(codec: Codec, system: string, ms: seq<InboundMessage>): string {
    if ms == [] then system
    else
      var before := Moved(codec, system, ms[..|ms| - 1]);
      var last := ms[|ms| - 1];
      if IsSystemRole(last) then AddSystem(before, ExtractString(codec, last.content)) else before
  }

  function MoveWarnings(ms: seq<InboundMessage>): seq<Warning> {
    if ms == [] then []
    else MoveWarnings(ms[..|ms| - 1]) + if IsSystemRole(ms[|ms| - 1]) then [MovedSystem] else []
  }

  function FirstSystem(ms: seq<InboundMessage>, i: nat): Option<nat>
    requires i <= |ms|
    decreases |ms| - i
  {
    if i == |ms| then None else if IsSystemRole(ms[i]) then Some(i) else FirstSystem(ms, i + 1)
  }

  predicate KnownRole(m: InboundMessage) { RoleOf(m) == "user" || RoleOf(m) == "assistant" }

  /** A known role stays as it is written; any other becomes "user". */
  function Repaired(m: InboundMessage): InboundMessage {
    if KnownRole(m) then m else m.(role := "user")
  }

  /** The comparison trims the role of the message at hand, not that of the one before it. */
  predicate SameTurn(out: seq<InboundMessage>, m: InboundMessage) {
    out != [] && Lower(out[|out| - 1].role) == RoleOf(m)
  }

  function Joined(out: seq<InboundMessage>, m: InboundMessage): seq<InboundMessage> {
    if SameTurn(out, m)
    then out[..|out| - 1] + [out[|out| - 1].(content := MergeContents(out[|out| - 1].content, m.content))]
    else out + [m]
  }

  datatype Arranging = Arranging(out: seq<InboundMessage>, verdict: Verdict)

  function ArrangeOne(level: Level, a: Arranging, m: InboundMessage, i: nat): Arranging {
    if level == Strict && !KnownRole(m) then a.(verdict := Verdict(Some(InvalidRole(i, m.role)), a.verdict.warnings))
    else
      var fixed := Repaired(m);
      var warned := a.verdict.warnings + if KnownRole(m) then [] else [NormalizedRole(i)];
      if !SameTurn(a.out, fixed) then Arranging(Joined(a.out, fixed), Verdict(None, warned))
      else if level == Strict then Arranging(a.out, Verdict(Some(Consecutive(i, RoleOf(fixed))), warned))
      else Arranging(Joined(a.out, fixed), Verdict(None, warned + [Merged(RoleOf(fixed))]))
  }

  function Arrange(level: Level, a: Arranging, ms: seq<InboundMessage>, i: nat): Arranging
    requires i <= |ms|
    decreases |ms| - i
  {
    if i == |ms| || a.verdict.error.Some? then a else Arrange(level, ArrangeOne(level, a, ms[i], i), ms, i + 1)
  }

  datatype Outcome = Outcome(request: Snapshot, verdict: Verdict)

  predicate Unit(v: Option<real>) { v.None? || 0.0 <= v.value <= 1.0 }

  function TuneTemperature(level: Level, o: Outcome): Outcome {
    if Unit(o.request.temperature) then o
    else
      var v := o.request.temperature.value;
      if level == Strict then o.(verdict := o.verdict.(error := Some(TemperatureOutOfRange(v))))
      else Outcome(o.request.(temperature := Some(Clamp(v, 0.0, 1.0))),
                   o.verdict.(warnings := o.verdict.warnings + [ClampedTemperature(Clamp(v, 0.0, 1.0))]))
  }

  function TuneTopP(level: Level, o: Outcome): Outcome {
    if o.verdict.error.Some? || Unit(o.request.topP) then o
    else
      var v := o.request.topP.value;
      if level == Strict then o.(verdict := o.verdict.(error := Some(TopPOutOfRange(v))))
      else Outcome(o.request.(topP := Some(Clamp(v, 0.0, 1.0))),
                   o.verdict.(warnings := o.verdict.warnings + [ClampedTopP(Clamp(v, 0.0, 1.0))]))
  }

  function Tuned(level: Level, o: Outcome): Outcome {
    TuneTopP(level, TuneTemperature(level, o))
  }

  /** From the first-turn check on, for messages none of which is a system one. */
  function Finished(level: Level, s: Snapshot, warned: seq<Warning>): Outcome
    requires s.messages != []
  {
    var first := RoleOf(s.messages[0]) == "user";
    if level == Strict && !first then Outcome(s, Verdict(Some(FirstNotUser(s.messages[0].role)), warned))
    else
      var ms := if first then s.messages else [HELLO] + s.messages;
      var a := Arrange(level, Arranging([], Verdict(None, warned + if first then [] else [PrependedUser])), ms, 0);
      if a.verdict.error.Some? then Outcome(s.(messages := ms), a.verdict)
      else Tuned(level, Outcome(s.(messages := a.out), a.verdict))
  }

  function Validated(codec: Codec, level: Level, s: Snapshot): Outcome {
    if level == Off then Outcome(s, CLEAN)
    else if level == Strict && s.maxTokens <= 0 then Outcome(s, Verdict(Some(MaxTokensRequired), []))
    else
      var t := if s.maxTokens <= 0 then s.(maxTokens := 4096) else s;
      var warned := if s.maxTokens <= 0 then [InjectedMaxTokens] else [];
      if t.messages == [] then Outcome(t, Verdict(Some(NoMessages), warned))
      else if level == Strict && FirstSystem(t.messages, 0).Some? then
        Outcome(t, Verdict(Some(MisplacedSystem(FirstSystem(t.messages, 0).value)), warned))
      else
        var moved := t.(system := Moved(codec, t.system, t.messages));
        var warnings := warned + MoveWarnings(t.messages);
        if Kept(t.messages) == [] then Outcome(moved, Verdict(Some(OnlySystem), warnings))
        else Finished(level, moved.(messages := Kept(t.messages)), warnings)
  }

  // ---- The validator, which rewrites the request as it goes ----

  class AnthropicRequest {
    var system: string
    var messages: seq<InboundMessage>
    var maxTokens: int
    var temperature: Option<real>
    var topP: Option<real>

    constructor (s: Snapshot)
      ensures Value() == s
    {
      system, messages, maxTokens, temperature, topP := s.system, s.messages, s.maxTokens, s.temperature, s.topP;
    }

    function Value(): Snapshot
      reads this
    {
      Snapshot(system, messages, maxTokens, temperature, topP)
    }
  }

  method ValidateAnthropic(codec: Codec, req: AnthropicRequest?, level: Level) returns (verdict: Verdict)
    modifies req
    ensures req == null ==> verdict == CLEAN
    ensures req != null ==> Outcome(req.Value(), verdict) == Validated(codec, level, old(req.Value()))
  {
    hide Finished, IsSystemRole, ExtractString;
    if level == Off || req == null {
      return CLEAN;
    }
    var warnings: seq<Warning> := [];
    if req.maxTokens <= 0 {
      if level == Strict {
        return Verdict(Some(MaxTokensRequired), warnings);
      }
      req.maxTokens := 4096;
      warnings := warnings + [InjectedMaxTokens];
    }
    assert warnings == if old(req.maxTokens) <= 0 then [InjectedMaxTokens] else [];
    if |req.messages| == 0 {
      return Verdict(Some(NoMessages), warnings);
    }
    verdict := MoveSystem(codec, req, level, warnings);
    if verdict.error.Some? {
      return;
    }
    verdict := FinishRequest(req, level, verdict.warnings);
  }

  lemma SiftNext(codec: Codec, system: string, ms: seq<InboundMessage>, i: nat)
    requires i < |ms|
    ensures Kept(ms[..i + 1]) == Kept(ms[..i]) + if IsSystemRole(ms[i]) then [] else [ms[i]]
    ensures Moved(codec, system, ms[..i + 1])
         == if IsSystemRole(ms[i]) then AddSystem(Moved(codec, system, ms[..i]), ExtractString(codec, ms[i].content))
            else Moved(codec, system, ms[..i])
    ensures MoveWarnings(ms[..i + 1]) == MoveWarnings(ms[..i]) + if IsSystemRole(ms[i]) then [MovedSystem] else []
  {
    assert ms[..i + 1][..i] == ms[..i];
  }

  method MoveSystem(codec: Codec, req: AnthropicRequest, level: Level, warned: seq<Warning>) returns (verdict: Verdict)
    requires level != Off
    modifies req`system, req`messages
    ensures var ms := old(req.messages);
            if level == Strict && FirstSystem(ms, 0).Some? then
              req.Value() == old(req.Value()) && verdict == Verdict(Some(MisplacedSystem(FirstSystem(ms, 0).value)), warned)
            else
              && req.system == Moved(codec, old(req.system), ms) && verdict.warnings == warned + MoveWarnings(ms)
              && if Kept(ms) == [] then req.messages == ms && verdict.error == Some(OnlySystem)
                 else req.messages == Kept(ms) && verdict.error == None
  {
    hide IsSystemRole, ExtractString;
    ghost var system := req.system;
    var ms := req.messages;
    var filtered: seq<InboundMessage>, warnings := [], warned;
    for i := 0 to |ms|
      invariant req.messages == ms
      invariant filtered == Kept(ms[..i]) && req.system == Moved(codec, system, ms[..i])
      invariant warnings == warned + MoveWarnings(ms[..i])
      invariant level == Strict ==> FirstSystem(ms, 0) == FirstSystem(ms, i) && req.system == system && warnings == warned
    {
      SiftNext(codec, system, ms, i);
      if IsSystemRole(ms[i]) {
        if level == Strict {
          return Verdict(Some(MisplacedSystem(i)), warnings);
        }
        var sysContent := ExtractString(codec, ms[i].content);
        if req.system == "" {
          req.system := sysContent;
        } else {
          req.system := req.system + "\n\n" + sysContent;
        }
        warnings := warnings + [MovedSystem];
      } else {
        filtered := filtered + [ms[i]];
      }
    }
    assert ms[..|ms|] == ms;
    if |filtered| == 0 {
      return Verdict(Some(OnlySystem), warnings);
    }
    req.messages := filtered;
    verdict := Verdict(None, warnings);
  }

  method FinishRequest(req: AnthropicRequest, level: Level, warned: seq<Warning>) returns (verdict: Verdict)
    requires req.messages != []
    modifies req`messages, req`temperature, req`topP
    ensures Outcome(req.Value(), verdict) == Finished(level, old(req.Value()), warned)
  {
    hide Arrange, RoleOf, Tuned;
    var warnings := warned;
    if RoleOf(req.messages[0]) != "user" {
      if level == Strict {
        return Verdict(Some(FirstNotUser(req.messages[0].role)), warnings);
      }
      req.messages := [HELLO] + req.messages;
      warnings := warnings + [PrependedUser];
    } else {
      assert warned + [] == warned;
    }
    verdict := ArrangeTurns(req, level, warnings);
    if verdict.error.Some? {
      return;
    }
    verdict := TuneSampling(req, level, verdict.warnings);
  }

  /** Sampling limits are checked or clamped. */
  method TuneSampling(req: AnthropicRequest, level: Level, warned: seq<Warning>) returns (verdict: Verdict)
    modifies req`temperature, req`topP
    ensures Outcome(req.Value(), verdict) == Tuned(level, Outcome(old(req.Value()), Verdict(None, warned)))
  {
    var warnings := warned;
    if req.temperature.Some? && (req.temperature.value < 0.0 || req.temperature.value > 1.0) {
      if level == Strict {
        return Verdict(Some(TemperatureOutOfRange(req.temperature.value)), warnings);
      }
      req.temperature := Some(Clamp(req.temperature.value, 0.0, 1.0));
      warnings := warnings + [ClampedTemperature(req.temperature.value)];
    }
    if req.topP.Some? && (req.topP.value < 0.0 || req.topP.value > 1.0) {
      if level == Strict {
        return Verdict(Some(TopPOutOfRange(req.topP.value)), warnings);
      }
      req.topP := Some(Clamp(req.topP.value, 0.0, 1.0));
      warnings := warnings + [ClampedTopP(req.topP.value)];
    }
    verdict := Verdict(None, warnings);
  }

  method ArrangeTurns(req: AnthropicRequest, level: Level, warned: seq<Warning>) returns (verdict: Verdict)
    modifies req`messages
    ensures var a := Arrange(level, Arranging([], Verdict(None, warned)), old(req.messages), 0);
            && verdict == a.verdict
            && req.messages == if verdict.error.Some? then old(req.messages) else a.out
  {
    hide RoleOf, MergeContents;
    var ms := req.messages;
    var merged: seq<InboundMessage>, warnings := [], warned;
    ghost var start := Arranging([], Verdict(None, warned));
    for i := 0 to |ms|
      invariant req.messages == ms
      invariant Arrange(level, Arranging(merged, Verdict(None, warnings)), ms, i) == Arrange(level, start, ms, 0)
    {
      ghost var a := Arranging(merged, Verdict(None, warnings));
      var cur := ms[i];
      if RoleOf(cur) != "user" && RoleOf(cur) != "assistant" {
        if level == Strict {
          return Verdict(Some(InvalidRole(i, cur.role)), warnings);
        }
        cur := cur.(role := "user");
        warnings := warnings + [NormalizedRole(i)];
      }
      assert cur == Repaired(ms[i]);
      assert warnings == a.verdict.warnings + if KnownRole(ms[i]) then [] else [NormalizedRole(i)];
      var n := |merged|;
      if n > 0 && Lower(merged[n - 1].role) == RoleOf(cur) {
        if level == Strict {
          return Verdict(Some(Consecutive(i, RoleOf(cur))), warnings);
        }
        merged := merged[..n - 1] + [merged[n - 1].(content := MergeContents(merged[n - 1].content, cur.content))];
        warnings := warnings + [Merged(RoleOf(cur))];
      } else {
        merged := merged + [cur];
      }
    }
    req.messages := merged;
    verdict := Verdict(None, warnings);
  }
}
