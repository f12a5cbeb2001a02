/** Strict acceptance and lenient repair of Gemini requests (internal/validator/gemini.go). */
module GeminiValidation {
  import opened Common
  import opened Text
  import opened Gemini
  import opened Validation

  datatype Error =
    | NoContents
    | MisplacedSystem(at: nat)
    | OnlySystem
    | AssistantRole(at: nat)
    | InvalidRole(at: nat, role: string)
    | NoParts(at: nat)
    | Consecutive(at: nat, role: string)
    | TemperatureOutOfRange(value: real)
    | TopPOutOfRange(value: real)
    | MaxTokensNotPositive(tokens: int)

  datatype Warning =
    | MovedSystem
    | ConvertedAssistant(at: nat)
    | ConvertedInvalid(at: nat)
    | AddedPart(at: nat)
    | Merged(role: string)
    | ClampedTemperature(value: real)
    | ClampedTopP(value: real)
    | ClearedMaxTokens

  /** The result is valid exactly when it has no error. */
  datatype Verdict = Verdict(error: Option<Error>, warnings: seq<Warning>)

  const CLEAN := Verdict(None, [])

  function RoleOf(c: Content): string { Lower(TrimSpace(c.role)) }

  predicate IsSystem(c: Content) { RoleOf(c) == "system" }

  const FILLER: Part := TextPart(" ")

  // ---- What each phase computes ----

  function Kept(cs: seq<Content>): seq<Content> {
    if cs == [] then []
    else Kept(cs[..|cs| - 1]) + if IsSystem(cs[|cs| - 1]) then [] else [cs[|cs| - 1]]
  }

  function Moved(system: Option<seq<Part>>, cs: seq<Content>): Option<seq<Part>> {
    if cs == [] then system
    else
      var before := Moved(system, cs[..|cs| - 1]);
      if !IsSystem(cs[|cs| - 1]) then before
      else Some(GetSome(before) + cs[|cs| - 1].parts)
  }

  function GetSome(o: Option<seq<Part>>): seq<Part> {
    match o case None => [] case Some(ps) => ps
  }

  function MoveWarnings(cs: seq<Content>): seq<Warning> {
    if cs == [] then []
    else MoveWarnings(cs[..|cs| - 1]) + if IsSystem(cs[|cs| - 1]) then [MovedSystem] else []
  }

  /** The first misplaced system content at or after `i`. */
  function FirstSystem(cs: seq<Content>, i: nat): Option<nat>
    requires i <= |cs|
    decreases |cs| - i
  {
    if i == |cs| then None else if IsSystem(cs[i]) then Some(i) else FirstSystem(cs, i + 1)
  }

  function FixedRole(role: string): string {
    if role == "assistant" then "model" else if role == "user" || role == "model" then role else "user"
  }

  /** A content with the role and the parts the repair gives it. */
  function Repaired(c: Content): Content {
    Content(FixedRole(RoleOf(c)), if c.parts == [] then [FILLER] else c.parts)
  }

  function Objection(c: Content, i: nat): Option<Error> {
    if RoleOf(c) == "assistant" then Some(AssistantRole(i))
    else if RoleOf(c) != "user" && RoleOf(c) != "model" then Some(InvalidRole(i, c.role))
    else if c.parts == [] then Some(NoParts(i))
    else None
  }

  function RepairWarnings(c: Content, i: nat): seq<Warning> {
    (if RoleOf(c) == "assistant" then [ConvertedAssistant(i)]
     else if RoleOf(c) != "user" && RoleOf(c) != "model" then [ConvertedInvalid(i)]
     else [])
    + if c.parts == [] then [AddedPart(i)] else []
  }

  predicate SameTurn(out: seq<Content>, c: Content) {
    out != [] && out[|out| - 1].role == c.role
  }

  function Joined(out: seq<Content>, c: Content): seq<Content> {
    if SameTurn(out, c) then out[..|out| - 1] + [out[|out| - 1].(parts := out[|out| - 1].parts + c.parts)]
    else out + [c]
  }

  datatype Arranging = Arranging(out: seq<Content>, verdict: Verdict)

  function ArrangeOne(level: Level, a: Arranging, c: Content, i: nat): Arranging {
    if level == Strict && Objection(c, i).Some? then a.(verdict := Verdict(Objection(c, i), a.verdict.warnings))
    else
      var fixed := Repaired(c);
      var warned := a.verdict.warnings + RepairWarnings(c, i);
      if !SameTurn(a.out, fixed) then Arranging(Joined(a.out, fixed), Verdict(None, warned))
      else if level == Strict then Arranging(a.out, Verdict(Some(Consecutive(i, fixed.role)), warned))
      else Arranging(Joined(a.out, fixed), Verdict(None, warned + [Merged(fixed.role)]))
  }

  /** Arranging the contents from `i` on; a strict run stops at its first error. */
  function Arrange(level: Level, a: Arranging, cs: seq<Content>, i: nat): Arranging
    requires i <= |cs|
    decreases |cs| - i
  {
    if i == |cs| || a.verdict.error.Some? then a else Arrange(level, ArrangeOne(level, a, cs[i], i), cs, i + 1)
  }

  datatype Tuning = Tuning(config: Config, verdict: Verdict)

  function TuneTemperature(level: Level, t: Tuning): Tuning {
    if t.config.temperature.None? || 0.0 <= t.config.temperature.value <= 2.0 then t
    else
      var v := t.config.temperature.value;
      if level == Strict then t.(verdict := t.verdict.(error := Some(TemperatureOutOfRange(v))))
      else Tuning(t.config.(temperature := Some(Clamp(v, 0.0, 2.0))),
                  t.verdict.(warnings := t.verdict.warnings + [ClampedTemperature(Clamp(v, 0.0, 2.0))]))
  }

  function TuneTopP(level: Level, t: Tuning): Tuning {
    if t.verdict.error.Some? || t.config.topP.None? || 0.0 <= t.config.topP.value <= 1.0 then t
    else
      var v := t.config.topP.value;
      if level == Strict then t.(verdict := t.verdict.(error := Some(TopPOutOfRange(v))))
      else Tuning(t.config.(topP := Some(Clamp(v, 0.0, 1.0))),
                  t.verdict.(warnings := t.verdict.warnings + [ClampedTopP(Clamp(v, 0.0, 1.0))]))
  }

  function TuneMaxTokens(level: Level, t: Tuning): Tuning {
    if t.verdict.error.Some? || t.config.maxOutputTokens.None? || t.config.maxOutputTokens.value > 0 then t
    else if level == Strict then
      t.(verdict := t.verdict.(error := Some(MaxTokensNotPositive(t.config.maxOutputTokens.value))))
    else Tuning(t.config.(maxOutputTokens := None), t.verdict.(warnings := t.verdict.warnings + [ClearedMaxTokens]))
  }

  function Tuned(level: Level, t: Tuning): Tuning {
    TuneMaxTokens(level, TuneTopP(level, TuneTemperature(level, t)))
  }

  datatype Outcome = Outcome(request: Snapshot, verdict: Verdict)

  /** The third and fourth phase, on a request whose contents hold no system message. */
  function Finished(level: Level, s: Snapshot, warned: seq<Warning>): Outcome {
    var a := Arrange(level, Arranging([], Verdict(None, warned)), s.contents, 0);
    if a.verdict.error.Some? then Outcome(s, a.verdict)
    else if s.config.None? then Outcome(s.(contents := a.out), a.verdict)
    else
      var t := Tuned(level, Tuning(s.config.value, a.verdict));
      Outcome(s.(contents := a.out, config := Some(t.config)), t.verdict)
  }

  function Validated(level: Level, s: Snapshot): Outcome {
    if level == Off then Outcome(s, CLEAN)
    else if s.contents == [] then Outcome(s, Verdict(Some(NoContents), []))
    else if level == Strict && FirstSystem(s.contents, 0).Some? then
      Outcome(s, Verdict(Some(MisplacedSystem(FirstSystem(s.contents, 0).value)), []))
    else
      var moved := s.(system := Moved(s.system, s.contents));
      var warned := MoveWarnings(s.contents);
      if Kept(s.contents) == [] then Outcome(moved, Verdict(Some(OnlySystem), warned))
      else Finished(level, moved.(contents := Kept(s.contents)), warned)
  }

  // ---- The validator, which rewrites the request as it goes ----

  method ValidateGemini(req: GeminiRequest?, level: Level) returns (verdict: Verdict)
    modifies req
    ensures req == null ==> verdict == CLEAN
    ensures req != null ==> Outcome(req.Value(), verdict) == Validated(level, old(req.Value()))
  {
    hide Arrange, Tuned, IsSystem;
    if level == Off || req == null {
      return CLEAN;
    }
    if |req.contents| == 0 {
      return Verdict(Some(NoContents), []);
    }
    var moving := MoveSystem(req, level);
    if moving.error.Some? {
      return moving;
    }
    assert FirstSystem(old(req.contents), 0).None? || level != Strict;
    var warnings := moving.warnings;
    var arranged := ArrangeTurns(req, level, warnings);
    if arranged.error.Some? || req.config.None? {
      return arranged;
    }
    verdict := TuneConfig(req, level, arranged);
  }

  lemma SiftNext(system: Option<seq<Part>>, cs: seq<Content>, i: nat)
    requires i < |cs|
    ensures Kept(cs[..i + 1]) == Kept(cs[..i]) + if IsSystem(cs[i]) then [] else [cs[i]]
    ensures Moved(system, cs[..i + 1])
         == if IsSystem(cs[i]) then Some(GetSome(Moved(system, cs[..i])) + cs[i].parts) else Moved(system, cs[..i])
    ensures MoveWarnings(cs[..i + 1]) == MoveWarnings(cs[..i]) + if IsSystem(cs[i]) then [MovedSystem] else []
  {
    assert cs[..i + 1][..i] == cs[..i];
  }

  /** Phase two: system contents go to the system instruction, or are an error. */
  method MoveSystem(req: GeminiRequest, level: Level) returns (verdict: Verdict)
    requires level != Off
    modifies req
    ensures req.config == old(req.config)
    ensures var cs := old(req.contents);
            if level == Strict && FirstSystem(cs, 0).Some? then
              req.Value() == old(req.Value()) && verdict == Verdict(Some(MisplacedSystem(FirstSystem(cs, 0).value)), [])
            else
              && req.system == Moved(old(req.system), cs) && verdict.warnings == MoveWarnings(cs)
              && if Kept(cs) == [] then req.contents == cs && verdict.error == Some(OnlySystem)
                 else req.contents == Kept(cs) && verdict.error == None
  {
    hide IsSystem;
    ghost var system := req.system;
    var cs := req.contents;
    var filtered: seq<Content>, warnings: seq<Warning> := [], [];
    for i := 0 to |cs|
      invariant req.contents == cs && req.config == old(req.config)
      invariant filtered == Kept(cs[..i]) && req.system == Moved(system, cs[..i]) && warnings == MoveWarnings(cs[..i])
      invariant level == Strict ==> FirstSystem(cs, 0) == FirstSystem(cs, i) && req.system == system && warnings == []
    {
      SiftNext(system, cs, i);
      if IsSystem(cs[i]) {
        if level == Strict {
          return Verdict(Some(MisplacedSystem(i)), []);
        }
        if req.system == None {
          assert [] + cs[i].parts == cs[i].parts;
          req.system := Some(cs[i].parts);
        } else {
          req.system := Some(req.system.value + cs[i].parts);
        }
        warnings := warnings + [MovedSystem];
      } else {
        filtered := filtered + [cs[i]];
      }
    }
    assert cs[..|cs|] == cs;
    if |filtered| == 0 {
      return Verdict(Some(OnlySystem), warnings);
    }
    req.contents := filtered;
    verdict := Verdict(None, warnings);
  }

  /** Phase three: roles, parts and alternation. */
  method ArrangeTurns(req: GeminiRequest, level: Level, warned: seq<Warning>) returns (verdict: Verdict)
    modifies req
    ensures req.system == old(req.system) && req.config == old(req.config)
    ensures var a := Arrange(level, Arranging([], Verdict(None, warned)), old(req.contents), 0);
            && verdict == a.verdict
            && req.contents == if verdict.error.Some? then old(req.contents) else a.out
  {
    hide Repaired, RepairWarnings, Objection;
    var cs := req.contents;
    var merged: seq<Content>, warnings := [], warned;
    ghost var start := Arranging([], Verdict(None, warned));
    for i := 0 to |cs|
      invariant req.Value() == old(req.Value())
      invariant Arrange(level, Arranging(merged, Verdict(None, warnings)), cs, i) == Arrange(level, start, cs, 0)
    {
      var cur, error, notes := RepairTurn(level, cs[i], i, warnings);
      warnings := notes;
      if error.Some? {
        return Verdict(error, warnings);
      }
      if |merged| == 0 {
        merged := merged + [cur];
        continue;
      }
      var prev := merged[|merged| - 1];
      if prev.role == cur.role {
        if level == Strict {
          return Verdict(Some(Consecutive(i, cur.role)), warnings);
        }
        merged := merged[..|merged| - 1] + [prev.(parts := prev.parts + cur.parts)];
        warnings := warnings + [Merged(cur.role)];
      } else {
        merged := merged + [cur];
      }
    }
    req.contents := merged;
    verdict := Verdict(None, warnings);
  }

  method RepairTurn(level: Level, c: Content, i: nat, warned: seq<Warning>)
    returns (cur: Content, error: Option<Error>, warnings: seq<Warning>)
    ensures error == if level == Strict then Objection(c, i) else None
    ensures error.None? ==> cur == Repaired(c) && warnings == warned + RepairWarnings(c, i)
    ensures error.Some? ==> warnings == warned
  {
    hide RoleOf;
    cur, error, warnings := c, None, warned;
    var curRole := RoleOf(cur);
    if curRole == "assistant" {
      if level == Strict {
        error := Some(AssistantRole(i));
        return;
      }
      curRole := "model";
      warnings := warnings + [ConvertedAssistant(i)];
    } else if curRole != "user" && curRole != "model" {
      if level == Strict {
        error := Some(InvalidRole(i, cur.role));
        return;
      }
      curRole := "user";
      warnings := warnings + [ConvertedInvalid(i)];
    }
    cur := cur.(role := curRole);
    if |cur.parts| == 0 {
      if level == Strict {
        error := Some(NoParts(i));
        return;
      }
      cur := cur.(parts := [FILLER]);
      warnings := warnings + [AddedPart(i)];
    }
  }

  /** Phase four: sampling limits. */
  method TuneConfig(req: GeminiRequest, level: Level, before: Verdict) returns (verdict: Verdict)
    requires req.config.Some? && before.error.None?
    modifies req`config
    ensures req.config == Some(Tuned(level, Tuning(old(req.config.value), before)).config)
    ensures verdict == Tuned(level, Tuning(old(req.config.value), before)).verdict
  {
    var warnings := before.warnings;
    if req.config.value.temperature.Some? {
      var tVal := req.config.value.temperature.value;
      if tVal < 0.0 || tVal > 2.0 {
        if level == Strict {
          return Verdict(Some(TemperatureOutOfRange(tVal)), warnings);
        }
        var clamped := Clamp(tVal, 0.0, 2.0);
        req.config := Some(req.config.value.(temperature := Some(clamped)));
        warnings := warnings + [ClampedTemperature(clamped)];
      }
    }
    if req.config.value.topP.Some? {
      var pVal := req.config.value.topP.value;
      if pVal < 0.0 || pVal > 1.0 {
        if level == Strict {
          return Verdict(Some(TopPOutOfRange(pVal)), warnings);
        }
        var clamped := Clamp(pVal, 0.0, 1.0);
        req.config := Some(req.config.value.(topP := Some(clamped)));
        warnings := warnings + [ClampedTopP(clamped)];
      }
    }
    if req.config.value.maxOutputTokens.Some? && req.config.value.maxOutputTokens.value <= 0 {
      if level == Strict {
        return Verdict(Some(MaxTokensNotPositive(req.config.value.maxOutputTokens.value)), warnings);
      }
      req.config := Some(req.config.value.(maxOutputTokens := None));
      warnings := warnings + [ClearedMaxTokens];
    }
    verdict := Verdict(None, warnings);
  }
}
