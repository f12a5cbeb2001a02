/** Which error and which warnings a request to Anthropic gets, told from the request alone (internal/validator/anthropic.go). */
module AnthropicVerdicts {
  import opened Common
  import opened Text
  import opened Messages
  import opened AnthropicTranslation
  import opened Validation
  import opened AnthropicValidation
  import opened AnthropicRepair

  function Speaker(m: InboundMessage): string { Lower(TrimSpace(m.role)) }

  predicate Speaks(m: InboundMessage) { Speaker(m) in {"user", "assistant"} }

  predicate WithinOne(v: Option<real>) { match v case None => true case Some(x) => 0.0 <= x <= 1.0 }

  predicate NoSystem(ms: seq<InboundMessage>, n: nat) {
    forall j :: 0 <= j < n && j < |ms| ==> Speaker(ms[j]) != "system"
  }

  // ---- The strict level ----

  /** What is wrong with turn `i`, the one before it being compared as it is written. */
  function TurnFault(ms: seq<InboundMessage>, i: nat): Option<Error>
    requires i < |ms|
  {
    if !Speaks(ms[i]) then Some(InvalidRole(i, ms[i].role))
    else if i > 0 && Lower(ms[i - 1].role) == Speaker(ms[i]) then Some(Consecutive(i, Speaker(ms[i])))
    else None
  }

  predicate NoFault(ms: seq<InboundMessage>, n: nat) {
    forall i :: 0 <= i < n && i < |ms| ==> TurnFault(ms, i).None?
  }

  /** The turns can be looked at: there are some, none is the system's, and the user begins. */
  predicate Begins(s: Snapshot) {
    s.maxTokens > 0 && s.messages != [] && NoSystem(s.messages, |s.messages|) && Speaker(s.messages[0]) == "user"
  }

  /** `e` is the first thing strict validation finds wrong. */
  predicate IsStrictError(s: Snapshot, e: Error) {
    var ms := s.messages;
    match e
    case MaxTokensRequired => s.maxTokens <= 0
    case NoMessages => s.maxTokens > 0 && ms == []
    case MisplacedSystem(i) => s.maxTokens > 0 && i < |ms| && Speaker(ms[i]) == "system" && NoSystem(ms, i)
    case OnlySystem => false
    case FirstNotUser(role) =>
      s.maxTokens > 0 && ms != [] && NoSystem(ms, |ms|) && Speaker(ms[0]) != "user" && role == ms[0].role
    case InvalidRole(i, _) => Begins(s) && i < |ms| && NoFault(ms, i) && TurnFault(ms, i) == Some(e)
    case Consecutive(i, _) => Begins(s) && i < |ms| && NoFault(ms, i) && TurnFault(ms, i) == Some(e)
    case TemperatureOutOfRange(v) =>
      Begins(s) && NoFault(ms, |ms|) && s.temperature == Some(v) && !(0.0 <= v <= 1.0)
    case TopPOutOfRange(v) =>
      Begins(s) && NoFault(ms, |ms|) && WithinOne(s.temperature) && s.topP == Some(v) && !(0.0 <= v <= 1.0)
  }

  lemma {:induction false} FirstSystemIsFirst(ms: seq<InboundMessage>, i: nat)
    requires i <= |ms| && NoSystem(ms, i)
    ensures match FirstSystem(ms, i)
            case None => NoSystem(ms, |ms|)
            case Some(k) => k < |ms| && Speaker(ms[k]) == "system" && NoSystem(ms, k)
    decreases |ms| - i
  {
    hide Speaker;
    if i < |ms| {
      SystemIsSpeaker(ms[i]);
      if !IsSystemRole(ms[i]) {
        FirstSystemIsFirst(ms, i + 1);
      }
    }
  }

  lemma SystemIsSpeaker(m: InboundMessage)
    ensures IsSystemRole(m) <==> Speaker(m) == "system"
    ensures RoleOf(m) == Speaker(m) && (KnownRole(m) <==> Speaks(m))
  {
  }

  /** At the strict level the turns are kept up to the first fault, which is the error. */
  lemma {:induction false} StrictFindsFirstFault(ms: seq<InboundMessage>, i: nat)
    requires i <= |ms| && NoFault(ms, i)
    ensures var r := Arrange(Strict, Arranging(ms[..i], CLEAN), ms, i);
            && r.verdict.warnings == []
            && (NoFault(ms, |ms|) <==> r.verdict.error.None?)
            && (NoFault(ms, |ms|) ==> r.out == ms)
            && (r.verdict.error.Some? ==>
                  exists k :: i <= k < |ms| && NoFault(ms, k) && TurnFault(ms, k) == r.verdict.error)
    decreases |ms| - i
  {
    hide RoleOf, KnownRole, Lower, Speaker;
    if i == |ms| {
      assert ms[..i] == ms;
    } else {
      SystemIsSpeaker(ms[i]);
      assert ms[..i + 1] == ms[..i] + [ms[i]];
      assert CLEAN.warnings + [] == CLEAN.warnings;
      if TurnFault(ms, i).None? {
        StrictFindsFirstFault(ms, i + 1);
      } else {
        assert TurnFault(ms, i) == Arrange(Strict, Arranging(ms[..i], CLEAN), ms, i).verdict.error;
      }
    }
  }

  lemma TunedStrictly(s: Snapshot)
    ensures var o := Tuned(Strict, Outcome(s, CLEAN));
            && o.request == s && o.verdict.warnings == []
            && o.verdict.error == if !WithinOne(s.temperature) then Some(TemperatureOutOfRange(s.temperature.value))
                                  else if !WithinOne(s.topP) then Some(TopPOutOfRange(s.topP.value)) else None
  {
  }

  lemma FaultKinds(ms: seq<InboundMessage>, i: nat, e: Error)
    requires i < |ms| && TurnFault(ms, i) == Some(e)
    ensures e.InvalidRole? || e.Consecutive?
    ensures e.InvalidRole? ==> e.at == i
    ensures e.Consecutive? ==> e.at == i
  {
  }

  lemma StrictTurns(s: Snapshot)
    requires Begins(s)
    ensures var r := Finished(Strict, s, []);
            && r.request == s && r.verdict.warnings == []
            && forall e :: r.verdict.error == Some(e) <==> IsStrictError(s, e)
  {
    hide Arrange, Tuned, TurnFault, Speaker, Speaks;
    SystemIsSpeaker(s.messages[0]);
    assert s.messages[..0] == [];
    StrictFindsFirstFault(s.messages, 0);
    TunedStrictly(s);
    var a := Arrange(Strict, Arranging([], CLEAN), s.messages, 0);
    assert [] + (if RoleOf(s.messages[0]) == "user" then [] else [PrependedUser]) == CLEAN.warnings;
    assert s.(messages := s.messages) == s;
    if a.verdict.error.Some? {
      var k :| 0 <= k < |s.messages| && NoFault(s.messages, k) && TurnFault(s.messages, k) == a.verdict.error;
      FaultKinds(s.messages, k, a.verdict.error.value);
      forall e | IsStrictError(s, e) ensures a.verdict.error == Some(e) {
        OneError(s, k, a.verdict.error.value, e);
      }
    }
  }

  lemma OneError(s: Snapshot, k: nat, first: Error, e: Error)
    requires Begins(s) && k < |s.messages| && NoFault(s.messages, k) && TurnFault(s.messages, k) == Some(first)
    requires IsStrictError(s, e)
    ensures e == first
  {
    hide TurnFault, Speaker;
    if e.InvalidRole? || e.Consecutive? {
      assert NoFault(s.messages, e.at) && TurnFault(s.messages, e.at) == Some(e);
    }
  }

  /** The strict level reports exactly the first fault, warns of nothing and leaves the request as it is. */
  lemma StrictErrorIff(codec: Codec, s: Snapshot, e: Error)
    ensures var r := Validated(codec, Strict, s);
            && r.request == s && r.verdict.warnings == []
            && (r.verdict.error == Some(e) <==> IsStrictError(s, e))
  {
    hide Finished, Kept, Moved, MoveWarnings, Speaker, IsSystemRole, TurnFault, NoFault, WithinOne;
    FirstSystemIsFirst(s.messages, 0);
    if s.maxTokens > 0 && s.messages != [] && FirstSystem(s.messages, 0).None? {
      forall i | 0 <= i < |s.messages| ensures !IsSystemRole(s.messages[i]) {
        SystemIsSpeaker(s.messages[i]);
      }
      NothingToSift(codec, s.system, s.messages);
      assert s.(system := s.system).(messages := s.messages) == s && [] + MoveWarnings(s.messages) == [];
      if Speaker(s.messages[0]) == "user" {
        StrictTurns(s);
      } else {
        NotUser(s);
      }
    }
  }

  lemma NotUser(s: Snapshot)
    requires s.messages != [] && Speaker(s.messages[0]) != "user"
    ensures Finished(Strict, s, []) == Outcome(s, Verdict(Some(FirstNotUser(s.messages[0].role)), []))
  {
    SystemIsSpeaker(s.messages[0]);
    hide RoleOf;
  }

  // ---- The lenient level ----

  /** The turn with a role nobody has given to the user. */
  function Attributed(m: InboundMessage): InboundMessage {
    if Speaks(m) then m else InboundMessage("user", m.content)
  }

  /** The role, as written, of the turn that message number `n` would be joined to. */
  function RoleBefore(ms: seq<InboundMessage>, n: nat): string
    requires 0 < n <= |ms|
  {
    var m := Attributed(ms[n - 1]);
    if n > 1 && Lower(RoleBefore(ms, n - 1)) == Speaker(m) then RoleBefore(ms, n - 1) else m.role
  }

  function TurnWarnings(ms: seq<InboundMessage>, n: nat): seq<Warning>
    requires n <= |ms|
  {
    if n == 0 then []
    else
      var i: nat := n - 1;
      TurnWarnings(ms, i)
      + (if Speaks(ms[i]) then [] else [NormalizedRole(i)])
      + if i > 0 && Lower(RoleBefore(ms, i)) == Speaker(Attributed(ms[i])) then [Merged(Speaker(Attributed(ms[i])))] else []
  }

  function OfSystem(ms: seq<InboundMessage>): (r: (nat, seq<InboundMessage>)) {
    if ms == [] then (0, [])
    else
      var before, last := OfSystem(ms[..|ms| - 1]), ms[|ms| - 1];
      if Speaker(last) == "system" then (before.0 + 1, before.1) else (before.0, before.1 + [last])
  }

  function Copies(n: nat): seq<Warning> { seq(n, _ => MovedSystem) }

  function Greeted(ms: seq<InboundMessage>): seq<InboundMessage>
    requires ms != []
  {
    if Speaker(ms[0]) == "user" then ms else [InboundMessage("user", Str("Hello"))] + ms
  }

  function IntoUnit(v: Option<real>): Option<real> {
    match v
    case None => None
    case Some(x) => Some(if x < 0.0 then 0.0 else if x > 1.0 then 1.0 else x)
  }

  lemma {:induction false} SiftedBySpeaker(codec: Codec, ms: seq<InboundMessage>)
    ensures Kept(ms) == OfSystem(ms).1 && MoveWarnings(ms) == Copies(OfSystem(ms).0)
  {
    hide Speaker, IsSystemRole;
    if ms != [] {
      SiftedBySpeaker(codec, ms[..|ms| - 1]);
      SystemIsSpeaker(ms[|ms| - 1]);
    }
  }

  lemma AttributedIsRepaired(m: InboundMessage)
    ensures Repaired(m) == Attributed(m) && RoleOf(Attributed(m)) == Speaker(Attributed(m))
  {
  }

  /** The verdict and the last role, taken one message further. */
  lemma {:induction false} LenientWarns(ms: seq<InboundMessage>, start: seq<Warning>, a: Arranging, i: nat)
    requires i <= |ms| && a.verdict.error.None? && (a.out == [] <==> i == 0)
    requires i > 0 ==> a.out[|a.out| - 1].role == RoleBefore(ms, i)
    requires a.verdict.warnings == start + TurnWarnings(ms, i)
    ensures Arrange(Lenient, a, ms, i).verdict == Verdict(None, start + TurnWarnings(ms, |ms|))
    decreases |ms| - i
  {
    hide RoleOf, KnownRole, Lower, Speaker, Speaks, Attributed, MergeContents;
    if i < |ms| {
      AttributedIsRepaired(ms[i]);
      SystemIsSpeaker(ms[i]);
      var m := Attributed(ms[i]);
      var next := ArrangeOne(Lenient, a, ms[i], i);
      var warned := (if Speaks(ms[i]) then [] else [NormalizedRole(i)]);
      var joined := SameTurn(a.out, m);
      assert joined <==> i > 0 && Lower(RoleBefore(ms, i)) == Speaker(m);
      var merged := if joined then [Merged(Speaker(m))] else [];
      assert TurnWarnings(ms, i + 1) == TurnWarnings(ms, i) + warned + merged;
      assert next.verdict.warnings == a.verdict.warnings + warned + merged;
      assert start + TurnWarnings(ms, i + 1) == start + TurnWarnings(ms, i) + warned + merged;
      LenientWarns(ms, start, next, i + 1);
    }
  }

  lemma TunedLeniently(o: Outcome)
    requires o.verdict.error.None?
    ensures var r := Tuned(Lenient, o);
            && r.request == o.request.(temperature := IntoUnit(o.request.temperature), topP := IntoUnit(o.request.topP))
            && r.verdict == Verdict(None, o.verdict.warnings
                 + (if WithinOne(o.request.temperature) then [] else [ClampedTemperature(IntoUnit(o.request.temperature).value)])
                 + (if WithinOne(o.request.topP) then [] else [ClampedTopP(IntoUnit(o.request.topP).value)]))
  {
  }

  /**
   * The lenient level fails only without a message that is not the system's. Else it fills in the token limit,
   * clamps what is out of range, and warns, in order, of that, of each message moved or attributed, of the
   * greeting put in front, of each turn joined to the one before it, and of each value clamped.
   */
  lemma LenientVerdict(codec: Codec, s: Snapshot)
    ensures var r := Validated(codec, Lenient, s);
            var (systems, others) := OfSystem(s.messages);
            var moved := (if s.maxTokens <= 0 then [InjectedMaxTokens] else []) + Copies(systems);
            && r.request.maxTokens == (if s.maxTokens <= 0 then 4096 else s.maxTokens)
            && (s.messages != [] ==> r.request.system == Moved(codec, s.system, s.messages))
            && (others == [] ==> r.verdict == Verdict(Some(if s.messages == [] then NoMessages else OnlySystem), moved))
            && (others != [] ==>
                  var ms := Greeted(others);
                  && r.request.temperature == IntoUnit(s.temperature) && r.request.topP == IntoUnit(s.topP)
                  && r.request.messages == MergedAll(seq(|ms|, i requires 0 <= i < |ms| => Attributed(ms[i])))
                  && r.verdict == Verdict(None,
                       moved
                       + (if Speaker(others[0]) == "user" then [] else [PrependedUser])
                       + TurnWarnings(ms, |ms|)
                       + (if WithinOne(s.temperature) then [] else [ClampedTemperature(IntoUnit(s.temperature).value)])
                       + (if WithinOne(s.topP) then [] else [ClampedTopP(IntoUnit(s.topP).value)])))
  {
    hide Arrange, Tuned, Kept, Moved, MoveWarnings, OfSystem, Speaker, TurnWarnings, MergedAll, Copies, IntoUnit, WithinOne, FirstSystem;
    SiftedBySpeaker(codec, s.messages);
    var others := OfSystem(s.messages).1;
    if s.messages == [] {
      assert OfSystem([]) == (0, []) && Copies(0) == [] by { NothingSifted(); }
    } else if others != [] {
      var injected := if s.maxTokens <= 0 then [InjectedMaxTokens] else [];
      var t := if s.maxTokens <= 0 then s.(maxTokens := 4096) else s;
      FinishedLeniently(t.(system := Moved(codec, t.system, t.messages), messages := others), injected + MoveWarnings(t.messages));
    }
  }

  lemma NothingSifted()
    ensures OfSystem([]) == (0, []) && Copies(0) == []
  {
  }

  lemma FinishedLeniently(s: Snapshot, moved: seq<Warning>)
    requires s.messages != []
    ensures var r := Finished(Lenient, s, moved);
            var ms := Greeted(s.messages);
            && r.request == s.(messages := MergedAll(seq(|ms|, i requires 0 <= i < |ms| => Attributed(ms[i]))),
                               temperature := IntoUnit(s.temperature), topP := IntoUnit(s.topP))
            && r.verdict == Verdict(None,
                 moved
                 + (if Speaker(s.messages[0]) == "user" then [] else [PrependedUser])
                 + TurnWarnings(ms, |ms|)
                 + (if WithinOne(s.temperature) then [] else [ClampedTemperature(IntoUnit(s.temperature).value)])
                 + (if WithinOne(s.topP) then [] else [ClampedTopP(IntoUnit(s.topP).value)]))
  {
    hide Arrange, Tuned, Speaker, TurnWarnings, MergedAll, IntoUnit, WithinOne, Attributed, Repaired;
    var ms := Greeted(s.messages);
    var start := moved + if Speaker(s.messages[0]) == "user" then [] else [PrependedUser];
    SystemIsSpeaker(s.messages[0]);
    var a := Arranging([], Verdict(None, start));
    assert start + TurnWarnings(ms, 0) == start by { NoTurns(ms, start); }
    LenientWarns(ms, start, a, 0);
    MergedNone();
    NoErrorWhenLenient(a, ms, 0);
    ArrangedIsMerged(a, ms, 0);
    var turns := seq(|ms|, i requires 0 <= i < |ms| => Attributed(ms[i]));
    forall i | 0 <= i < |ms| ensures RepairedAll(ms)[i] == turns[i] {
      AttributedIsRepaired(ms[i]);
    }
    assert RepairedAll(ms) == turns;
    TunedLeniently(Outcome(s.(messages := Arrange(Lenient, a, ms, 0).out), Arrange(Lenient, a, ms, 0).verdict));
  }

  lemma NoTurns(ms: seq<InboundMessage>, start: seq<Warning>)
    ensures start + TurnWarnings(ms, 0) == start
  {
  }

  // ---- The system text ----

  function DropEmpty(texts: seq<string>): seq<string> {
    if texts == [] then [] else if texts[0] == "" then DropEmpty(texts[1..]) else texts
  }

  /** The text of a content: a string itself, of blocks the texts of those that are text, of anything else its JSON. */
  function Said(codec: Codec, content: Json): string {
    match content
    case Null => ""
    case Str(s) => s
    case Arr(bs) => SaidIn(bs)
    case _ => codec.marshal(content)
  }

  function SaidIn(bs: seq<Json>): string {
    if bs == [] then ""
    else
      var b := bs[|bs| - 1];
      SaidIn(bs[..|bs| - 1])
      + if b.Obj? && "type" in b.fields && b.fields["type"] == Str("text") && "text" in b.fields && b.fields["text"].Str?
        then b.fields["text"].s else ""
  }

  lemma {:induction false} SaidInBlocks(bs: seq<Json>)
    ensures AnthropicValidation.TextsIn(bs) == SaidIn(bs)
  {
    if bs != [] {
      SaidInBlocks(bs[..|bs| - 1]);
    }
  }

  lemma SaidIsExtracted(codec: Codec, content: Json)
    ensures ExtractString(codec, content) == Said(codec, content)
  {
    if content.Arr? {
      SaidInBlocks(content.items);
    }
  }

  /** What the system's messages say, in order. */
  function SystemTexts(codec: Codec, ms: seq<InboundMessage>): seq<string> {
    if ms == [] then []
    else
      var last := ms[|ms| - 1];
      SystemTexts(codec, ms[..|ms| - 1]) + if Speaker(last) == "system" then [Said(codec, last.content)] else []
  }

  lemma {:induction false} DropEmptySnoc(texts: seq<string>, t: string)
    ensures DropEmpty(texts + [t]) == if DropEmpty(texts) != [] then DropEmpty(texts) + [t] else if t == "" then [] else [t]
    ensures DropEmpty(texts) != [] ==> DropEmpty(texts)[0] != ""
  {
    if texts == [] {
      assert [] + [t] == [t] && [t][1..] == [];
    } else {
      assert (texts + [t])[1..] == texts[1..] + [t];
      DropEmptySnoc(texts[1..], t);
    }
  }

  lemma {:induction false} JoinSnoc(texts: seq<string>, t: string)
    ensures Join(texts + [t], "\n\n") == if texts == [] then t else Join(texts, "\n\n") + "\n\n" + t
    ensures texts != [] && texts[0] != "" ==> Join(texts, "\n\n") != ""
  {
    assert (texts + [t])[..|texts|] == texts;
    if |texts| > 1 {
      JoinSnoc(texts[..|texts| - 1], texts[|texts| - 1]);
    }
  }

  /** The request's own system text and those of its system messages, a blank line between any two, leading empty ones left out. */
  lemma {:induction false} SystemTextIsJoined(codec: Codec, system: string, ms: seq<InboundMessage>)
    ensures Moved(codec, system, ms) == Join(DropEmpty([system] + SystemTexts(codec, ms)), "\n\n")
  {
    hide Speaker, IsSystemRole, ExtractString, Said, Join, DropEmpty;
    if ms == [] {
      OneText(system);
    } else {
      var front, last := ms[..|ms| - 1], ms[|ms| - 1];
      SystemTextIsJoined(codec, system, front);
      SystemIsSpeaker(last);
      var texts := [system] + SystemTexts(codec, front);
      if Speaker(last) == "system" {
        var t := Said(codec, last.content);
        SaidIsExtracted(codec, last.content);
        assert [system] + SystemTexts(codec, ms) == texts + [t];
        DropEmptySnoc(texts, t);
        JoinSnoc(DropEmpty(texts), t);
        OneText("");
        OneText(t);
      } else {
        assert [system] + SystemTexts(codec, ms) == texts;
      }
    }
  }

  lemma OneText(t: string)
    ensures Join([t], "\n\n") == t && Join([], "\n\n") == ""
    ensures Join(DropEmpty([t] + []), "\n\n") == t
  {
    assert [t] + [] == [t] && [t][1..] == [];
  }
}
