/** Which error and which warnings a request to Gemini gets, told from the request alone (internal/validator/gemini.go). */
module GeminiVerdicts {
  import opened Common
  import opened Text
  import opened Gemini
  import opened Validation
  import opened GeminiValidation
  import opened GeminiRepair

  function Speaker(c: Content): string { Lower(TrimSpace(c.role)) }

  predicate NoSystem(cs: seq<Content>, n: nat) {
    forall j :: 0 <= j < n && j < |cs| ==> Speaker(cs[j]) != "system"
  }

  predicate Within(v: Option<real>, high: real) { match v case None => true case Some(x) => 0.0 <= x <= high }

  predicate LimitFits(v: Option<int>) { match v case None => true case Some(n) => n > 0 }

  // ---- The strict level ----

  /** What is wrong with turn `i`. */
  function TurnFault(cs: seq<Content>, i: nat): Option<Error>
    requires i < |cs|
  {
    if Speaker(cs[i]) == "assistant" then Some(AssistantRole(i))
    else if Speaker(cs[i]) !in {"user", "model"} then Some(InvalidRole(i, cs[i].role))
    else if cs[i].parts == [] then Some(NoParts(i))
    else if i > 0 && Speaker(cs[i - 1]) == Speaker(cs[i]) then Some(Consecutive(i, Speaker(cs[i])))
    else None
  }

  predicate NoFault(cs: seq<Content>, n: nat) {
    forall i :: 0 <= i < n && i < |cs| ==> TurnFault(cs, i).None?
  }

  function ConfigFault(config: Option<Config>): Option<Error> {
    match config
    case None => None
    case Some(c) =>
      if !Within(c.temperature, 2.0) then Some(TemperatureOutOfRange(c.temperature.value))
      else if !Within(c.topP, 1.0) then Some(TopPOutOfRange(c.topP.value))
      else if !LimitFits(c.maxOutputTokens) then Some(MaxTokensNotPositive(c.maxOutputTokens.value))
      else None
  }

  /** `e` is the first thing strict validation finds wrong. */
  predicate IsStrictError(s: Snapshot, e: Error) {
    var cs := s.contents;
    if cs == [] then e == NoContents
    else if !NoSystem(cs, |cs|) then e.MisplacedSystem? && e.at < |cs| && Speaker(cs[e.at]) == "system" && NoSystem(cs, e.at)
    else if !NoFault(cs, |cs|) then exists i :: 0 <= i < |cs| && NoFault(cs, i) && TurnFault(cs, i) == Some(e)
    else ConfigFault(s.config) == Some(e)
  }

  lemma SystemIsSpeaker(c: Content)
    ensures (IsSystem(c) <==> Speaker(c) == "system") && RoleOf(c) == Speaker(c)
  {
  }

  lemma {:induction false} FirstSystemIsFirst(cs: seq<Content>, i: nat)
    requires i <= |cs| && NoSystem(cs, i)
    ensures match FirstSystem(cs, i)
            case None => NoSystem(cs, |cs|)
            case Some(k) => k < |cs| && Speaker(cs[k]) == "system" && NoSystem(cs, k)
    decreases |cs| - i
  {
    hide Speaker;
    if i < |cs| {
      SystemIsSpeaker(cs[i]);
      if !IsSystem(cs[i]) {
        FirstSystemIsFirst(cs, i + 1);
      }
    }
  }

  lemma FaultIsObjection(cs: seq<Content>, i: nat)
    requires i < |cs|
    ensures Objection(cs[i], i).Some? ==> TurnFault(cs, i) == Objection(cs[i], i)
    ensures Objection(cs[i], i).None? ==>
              && Repaired(cs[i]) == cs[i].(role := Speaker(cs[i])) && RepairWarnings(cs[i], i) == []
              && TurnFault(cs, i)
              == if i > 0 && Speaker(cs[i - 1]) == Speaker(cs[i]) then Some(Consecutive(i, Speaker(cs[i]))) else None
  {
    SystemIsSpeaker(cs[i]);
    hide RoleOf, Speaker;
  }

  lemma {:induction false} StrictFindsFirstFault(cs: seq<Content>, i: nat)
    requires i <= |cs| && NoFault(cs, i)
    ensures var r := Arrange(Strict, Arranging(Named(cs)[..i], CLEAN), cs, i);
            && r.verdict.warnings == []
            && (NoFault(cs, |cs|) <==> r.verdict.error.None?)
            && (NoFault(cs, |cs|) ==> r.out == Named(cs))
            && (r.verdict.error.Some? ==>
                  exists k :: i <= k < |cs| && NoFault(cs, k) && TurnFault(cs, k) == r.verdict.error)
    decreases |cs| - i
  {
    hide RoleOf, Speaker, Objection, Repaired, RepairWarnings, TurnFault;
    var named := Named(cs);
    if i == |cs| {
      assert named[..i] == named;
    } else {
      SystemIsSpeaker(cs[i]);
      FaultIsObjection(cs, i);
      if i > 0 {
        SystemIsSpeaker(cs[i - 1]);
      }
      assert named[..i + 1] == named[..i] + [named[i]];
      assert CLEAN.warnings + [] == CLEAN.warnings;
      if TurnFault(cs, i).None? {
        StrictFindsFirstFault(cs, i + 1);
      } else {
        assert TurnFault(cs, i) == Arrange(Strict, Arranging(named[..i], CLEAN), cs, i).verdict.error;
      }
    }
  }

  lemma TunedStrictly(c: Config)
    ensures Tuned(Strict, Tuning(c, CLEAN)) == Tuning(c, Verdict(ConfigFault(Some(c)), []))
  {
  }

  lemma OneFault(cs: seq<Content>, j: nat, k: nat)
    requires j < |cs| && k < |cs| && NoFault(cs, j) && NoFault(cs, k) && TurnFault(cs, j).Some? && TurnFault(cs, k).Some?
    ensures j == k
  {
  }

  /** The strict level reports exactly the first fault and warns of nothing; it writes the roles plainly if the turns are in order. */
  lemma StrictErrorIff(s: Snapshot, e: Error)
    ensures var r := Validated(Strict, s);
            && r.verdict.warnings == []
            && (r.verdict.error == Some(e) <==> IsStrictError(s, e))
            && r.request == (if s.contents != [] && NoSystem(s.contents, |s.contents|) && NoFault(s.contents, |s.contents|)
                             then s.(contents := Named(s.contents)) else s)
  {
    hide Arrange, Tuned, Kept, Moved, MoveWarnings, Speaker, IsSystem, TurnFault, ConfigFault, Named;
    var cs := s.contents;
    FirstSystemIsFirst(cs, 0);
    if cs != [] && FirstSystem(cs, 0).None? {
      forall i | 0 <= i < |cs| ensures !IsSystem(cs[i]) {
        SystemIsSpeaker(cs[i]);
      }
      NothingToSift(s.system, cs);
      assert Named(cs)[..0] == [];
      StrictFindsFirstFault(cs, 0);
      if !NoFault(cs, |cs|) {
        var k :| 0 <= k < |cs| && NoFault(cs, k) && TurnFault(cs, k) == Arrange(Strict, Arranging([], CLEAN), cs, 0).verdict.error;
        forall i | 0 <= i < |cs| && NoFault(cs, i) && TurnFault(cs, i) == Some(e) ensures i == k {
          OneFault(cs, i, k);
        }
      } else if s.config.Some? {
        TunedStrictly(s.config.value);
      } else {
        NoConfig();
      }
    }
  }

  lemma NoConfig()
    ensures ConfigFault(None) == None
  {
  }

  // ---- The lenient level ----

  /** The turn under the role it is sent with, one blank standing for missing parts. */
  function Attributed(c: Content): Content {
    Content(if Speaker(c) == "model" || Speaker(c) == "assistant" then "model" else "user",
            if c.parts == [] then [Part(" ", None, None, None)] else c.parts)
  }

  function TurnWarnings(cs: seq<Content>, n: nat): seq<Warning>
    requires n <= |cs|
  {
    if n == 0 then []
    else
      var i: nat := n - 1;
      var role := Attributed(cs[i]).role;
      TurnWarnings(cs, i)
      + (if Speaker(cs[i]) == "assistant" then [ConvertedAssistant(i)]
         else if Speaker(cs[i]) !in {"user", "model"} then [ConvertedInvalid(i)] else [])
      + (if cs[i].parts == [] then [AddedPart(i)] else [])
      + if i > 0 && Attributed(cs[i - 1]).role == role then [Merged(role)] else []
  }

  function OfSystem(cs: seq<Content>): (nat, seq<Content>) {
    if cs == [] then (0, [])
    else
      var before, last := OfSystem(cs[..|cs| - 1]), cs[|cs| - 1];
      if Speaker(last) == "system" then (before.0 + 1, before.1) else (before.0, before.1 + [last])
  }

  function Copies(n: nat): seq<Warning> { seq(n, _ => MovedSystem) }

  lemma {:induction false} SiftedBySpeaker(cs: seq<Content>)
    ensures Kept(cs) == OfSystem(cs).1 && MoveWarnings(cs) == Copies(OfSystem(cs).0)
  {
    hide Speaker, IsSystem;
    if cs != [] {
      SiftedBySpeaker(cs[..|cs| - 1]);
      SystemIsSpeaker(cs[|cs| - 1]);
    }
  }

  function Into(v: Option<real>, high: real): Option<real> {
    match v
    case None => None
    case Some(x) => Some(if x < 0.0 then 0.0 else if x > high then high else x)
  }

  function ConfigWarnings(c: Config): seq<Warning> {
    (if Within(c.temperature, 2.0) then [] else [ClampedTemperature(Into(c.temperature, 2.0).value)])
    + (if Within(c.topP, 1.0) then [] else [ClampedTopP(Into(c.topP, 1.0).value)])
    + if LimitFits(c.maxOutputTokens) then [] else [ClearedMaxTokens]
  }

  function InLimits(c: Config): Config {
    c.(temperature := Into(c.temperature, 2.0), topP := Into(c.topP, 1.0),
       maxOutputTokens := if LimitFits(c.maxOutputTokens) then c.maxOutputTokens else None)
  }

  lemma AttributedIsRepaired(c: Content, i: nat)
    ensures Repaired(c) == Attributed(c)
    ensures RepairWarnings(c, i)
         == (if Speaker(c) == "assistant" then [ConvertedAssistant(i)]
             else if Speaker(c) !in {"user", "model"} then [ConvertedInvalid(i)] else [])
            + if c.parts == [] then [AddedPart(i)] else []
  {
    SystemIsSpeaker(c);
    hide RoleOf, Speaker;
  }

  /** One content more: its warnings follow those so far, and its role is the last. */
  lemma OneWarns(cs: seq<Content>, start: seq<Warning>, a: Arranging, i: nat)
    requires i < |cs| && a.verdict.error.None? && (a.out == [] <==> i == 0)
    requires i > 0 ==> a.out[|a.out| - 1].role == Attributed(cs[i - 1]).role
    requires a.verdict.warnings == start + TurnWarnings(cs, i)
    ensures var next := ArrangeOne(Lenient, a, cs[i], i);
            && next.verdict == Verdict(None, start + TurnWarnings(cs, i + 1))
            && next.out != [] && next.out[|next.out| - 1].role == Attributed(cs[i]).role
  {
    hide RoleOf, Speaker, Attributed, Repaired, RepairWarnings, Objection;
    AttributedIsRepaired(cs[i], i);
    var c := Attributed(cs[i]);
    var merged := if SameTurn(a.out, c) then [Merged(c.role)] else [];
    WarningsUnfold(cs, i, c);
    assert start + TurnWarnings(cs, i) + RepairWarnings(cs[i], i) + merged
        == start + (TurnWarnings(cs, i) + RepairWarnings(cs[i], i) + merged);
    assert a.verdict.warnings + RepairWarnings(cs[i], i) + [] == a.verdict.warnings + RepairWarnings(cs[i], i);
  }

  lemma WarningsUnfold(cs: seq<Content>, i: nat, c: Content)
    requires i < |cs| && c == Attributed(cs[i])
    ensures TurnWarnings(cs, i + 1) == TurnWarnings(cs, i) + RepairWarnings(cs[i], i)
              + if i > 0 && Attributed(cs[i - 1]).role == c.role then [Merged(c.role)] else []
  {
    AttributedIsRepaired(cs[i], i);
    hide RoleOf, Speaker, Attributed, RepairWarnings;
  }

  lemma {:induction false} LenientWarns(cs: seq<Content>, start: seq<Warning>, a: Arranging, i: nat)
    requires i <= |cs| && a.verdict.error.None? && (a.out == [] <==> i == 0)
    requires i > 0 ==> a.out[|a.out| - 1].role == Attributed(cs[i - 1]).role
    requires a.verdict.warnings == start + TurnWarnings(cs, i)
    ensures Arrange(Lenient, a, cs, i).verdict == Verdict(None, start + TurnWarnings(cs, |cs|))
    decreases |cs| - i
  {
    hide ArrangeOne, TurnWarnings, Attributed;
    if i < |cs| {
      OneWarns(cs, start, a, i);
      LenientWarns(cs, start, ArrangeOne(Lenient, a, cs[i], i), i + 1);
    }
  }

  lemma TunedLeniently(t: Tuning)
    requires t.verdict.error.None?
    ensures Tuned(Lenient, t) == Tuning(InLimits(t.config), Verdict(None, t.verdict.warnings + ConfigWarnings(t.config)))
  {
  }

  lemma NoTurns(cs: seq<Content>, start: seq<Warning>)
    ensures start + TurnWarnings(cs, 0) == start && start + [] == start
  {
  }

  /**
   * The lenient level fails only without a content that is not the system's. Else it keeps the parts in order under
   * the roles they are sent with, brings the limits into range, and warns, in order, of each content moved, converted,
   * filled or joined to the one before it, and of each limit changed.
   */
  lemma LenientVerdict(s: Snapshot)
    ensures var r := Validated(Lenient, s);
            var (systems, others) := OfSystem(s.contents);
            && (others == [] ==>
                  r.verdict == Verdict(Some(if s.contents == [] then NoContents else OnlySystem), Copies(systems)))
            && (others != [] ==>
                  && Tagged(r.request.contents) == Tagged(seq(|others|, i requires 0 <= i < |others| => Attributed(others[i])))
                  && r.request.config == (match s.config case None => None case Some(c) => Some(InLimits(c)))
                  && r.verdict == Verdict(None, Copies(systems) + TurnWarnings(others, |others|)
                                                + match s.config case None => [] case Some(c) => ConfigWarnings(c)))
  {
    hide Arrange, Tuned, Kept, Moved, MoveWarnings, OfSystem, Speaker, TurnWarnings, Copies, InLimits, ConfigWarnings, FirstSystem,
         Tagged, IsSystem, Repaired, Attributed;
    SiftedBySpeaker(s.contents);
    var others := OfSystem(s.contents).1;
    if s.contents == [] {
      NothingSifted();
    } else if others != [] {
      LenientKeepsEveryPart(s);
      KeptNothing(s.contents);
      forall i | 0 <= i < |others| ensures RepairedAll(others)[i] == Attributed(others[i]) {
        AttributedIsRepaired(others[i], i);
      }
      assert RepairedAll(others) == seq(|others|, i requires 0 <= i < |others| => Attributed(others[i]));
      var start := MoveWarnings(s.contents);
      NoTurns(others, start);
      NoTurns(others, start + TurnWarnings(others, |others|));
      LenientWarns(others, start, Arranging([], Verdict(None, start)), 0);
      if s.config.Some? {
        TunedLeniently(Tuning(s.config.value, Verdict(None, start + TurnWarnings(others, |others|))));
      }
    }
  }

  lemma NothingSifted()
    ensures OfSystem([]) == (0, []) && Copies(0) == []
  {
  }
}
