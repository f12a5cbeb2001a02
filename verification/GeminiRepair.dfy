/** Repair reaches what strict validation accepts, and moves no part out of its place. */
module GeminiRepair {
  import opened Common
  import opened Text
  import opened Gemini
  import opened Validation
  import opened GeminiValidation

  /** A turn the strict rules leave alone. */
  predicate Settled(c: Content) {
    (c.role == "user" || c.role == "model") && c.parts != []
  }

  predicate Alternates(cs: seq<Content>) {
    forall i :: 0 < i < |cs| ==> cs[i].role != cs[i - 1].role
  }

  predicate TidyTurns(cs: seq<Content>) {
    (forall i :: 0 <= i < |cs| ==> Settled(cs[i])) && Alternates(cs)
  }

  predicate InRange(config: Option<Config>) {
    match config
    case None => true
    case Some(c) =>
      && (c.temperature.Some? ==> 0.0 <= c.temperature.value <= 2.0)
      && (c.topP.Some? ==> 0.0 <= c.topP.value <= 1.0)
      && (c.maxOutputTokens.Some? ==> c.maxOutputTokens.value > 0)
  }

  predicate Tidy(s: Snapshot) {
    s.contents != [] && TidyTurns(s.contents) && InRange(s.config)
  }

  // ---- Parts keep their order, each with its role ----

  function Tags(c: Content): (r: seq<(string, Part)>)
    ensures |r| == |c.parts|
  {
    seq(|c.parts|, i requires 0 <= i < |c.parts| => (c.role, c.parts[i]))
  }

  function Tagged(cs: seq<Content>): seq<(string, Part)> {
    if cs == [] then [] else Tagged(cs[..|cs| - 1]) + Tags(cs[|cs| - 1])
  }

  function RepairedAll(cs: seq<Content>): (r: seq<Content>)
    ensures |r| == |cs|
  {
    seq(|cs|, i requires 0 <= i < |cs| => Repaired(cs[i]))
  }

  lemma TaggedSnoc(cs: seq<Content>, c: Content)
    ensures Tagged(cs + [c]) == Tagged(cs) + Tags(c)
  {
    assert (cs + [c])[..|cs + [c]| - 1] == cs;
  }

  lemma JoinedKeepsTags(out: seq<Content>, c: Content)
    ensures Tagged(Joined(out, c)) == Tagged(out) + Tags(c)
  {
    hide Tags;
    if SameTurn(out, c) {
      var front, last := out[..|out| - 1], out[|out| - 1];
      TaggedSnoc(front, last.(parts := last.parts + c.parts));
      TagsConcat(last, c);
    } else {
      TaggedSnoc(out, c);
    }
  }

  lemma TagsConcat(a: Content, b: Content)
    requires a.role == b.role
    ensures Tags(a.(parts := a.parts + b.parts)) == Tags(a) + Tags(b)
  {
  }

  lemma JoinedIsTidy(out: seq<Content>, c: Content)
    requires TidyTurns(out) && Settled(c)
    ensures TidyTurns(Joined(out, c)) && Joined(out, c) != []
  {
  }

  lemma RepairedIsSettled(c: Content)
    ensures Settled(Repaired(c))
  {
    hide RoleOf;
  }

  lemma {:induction false} ArrangedTurns(level: Level, a: Arranging, cs: seq<Content>, i: nat)
    requires i <= |cs| && TidyTurns(a.out)
    ensures var r := Arrange(level, a, cs, i);
            && TidyTurns(r.out) && (a.out != [] ==> r.out != [])
            && (r.verdict.error.None? ==>
                  && (i < |cs| ==> r.out != [])
                  && Tagged(r.out) == Tagged(a.out) + Tagged(RepairedAll(cs[i..])))
            && (level != Strict && a.verdict.error.None? ==> r.verdict.error.None?)
    decreases |cs| - i
  {
    hide Tagged, Joined, Repaired, RepairWarnings, Objection, Settled, TidyTurns;
    if i == |cs| {
      assert RepairedAll(cs[i..]) == [];
      assert Tagged([]) == [] by { TaggedNone(); }
    } else if a.verdict.error.None? {
      var c := Repaired(cs[i]);
      var next := ArrangeOne(level, a, cs[i], i);
      RepairedIsSettled(cs[i]);
      JoinedIsTidy(a.out, c);
      JoinedKeepsTags(a.out, c);
      if next.verdict.error.None? {
        assert next.out == Joined(a.out, c);
      }
      ArrangedTurns(level, next, cs, i + 1);
      assert RepairedAll(cs[i..]) == [c] + RepairedAll(cs[i + 1..]);
      TaggedCons(c, RepairedAll(cs[i + 1..]));
    }
  }

  lemma TaggedNone()
    ensures Tagged([]) == []
  {
  }

  lemma {:induction false} TaggedCons(c: Content, cs: seq<Content>)
    ensures Tagged([c] + cs) == Tags(c) + Tagged(cs)
  {
    hide Tags;
    if cs == [] {
      assert [c] + cs == [] + [c];
      TaggedSnoc([], c);
    } else {
      var front, last := cs[..|cs| - 1], cs[|cs| - 1];
      TaggedCons(c, front);
      assert [c] + cs == ([c] + front) + [last];
      TaggedSnoc([c] + front, last);
    }
  }

  lemma TunedIsInRange(level: Level, t: Tuning)
    requires t.verdict.error.None?
    ensures Tuned(level, t).verdict.error.None? ==> InRange(Some(Tuned(level, t).config))
    ensures level != Strict ==> Tuned(level, t).verdict.error.None?
    ensures InRange(Some(t.config)) ==> Tuned(level, t) == t
    ensures level == Strict ==> Tuned(level, t).config == t.config
    ensures level == Strict && Tuned(level, t).verdict.error.None? ==> Tuned(level, t) == t
  {
  }

  // ---- Tidy requests are left alone ----

  lemma SettledKeepsRole(c: Content)
    requires Settled(c)
    ensures RoleOf(c) == c.role && !IsSystem(c) && Repaired(c) == c
    ensures forall i :: Objection(c, i) == None && RepairWarnings(c, i) == []
  {
    TrimmedRole(c);
    hide RoleOf;
    assert (if c.parts == [] then [FILLER] else c.parts) == c.parts;
  }

  lemma TrimmedRole(c: Content)
    requires c.role == "user" || c.role == "model"
    ensures RoleOf(c) == c.role && c.role != "system" && c.role != "assistant"
  {
    hide IsSpace;
    assert Lower("user") == "user" && Lower("model") == "model";
    assert TrimSpace(c.role) == c.role by { NoBlanks(c.role); }
  }

  lemma NoBlanks(role: string)
    requires role == "user" || role == "model"
    ensures TrimSpace(role) == role
  {
  }

  lemma {:induction false} TidyTurnsStay(level: Level, cs: seq<Content>, i: nat)
    requires TidyTurns(cs) && i <= |cs|
    ensures Arrange(level, Arranging(cs[..i], CLEAN), cs, i) == Arranging(cs, CLEAN)
    decreases |cs| - i
  {
    hide RoleOf, Repaired, Objection, RepairWarnings, IsSystem;
    if i == |cs| {
      assert cs[..i] == cs;
    } else {
      SettledKeepsRole(cs[i]);
      assert cs[..i + 1] == cs[..i] + [cs[i]];
      assert !SameTurn(cs[..i], cs[i]);
      assert CLEAN.warnings + RepairWarnings(cs[i], i) == [];
      assert ArrangeOne(level, Arranging(cs[..i], CLEAN), cs[i], i) == Arranging(cs[..i + 1], CLEAN);
      TidyTurnsStay(level, cs, i + 1);
    }
  }

  lemma {:induction false} NothingToSift(system: Option<seq<Part>>, cs: seq<Content>)
    requires forall i :: 0 <= i < |cs| ==> !IsSystem(cs[i])
    ensures Kept(cs) == cs && Moved(system, cs) == system && MoveWarnings(cs) == []
  {
    hide IsSystem;
    if cs != [] {
      NothingToSift(system, cs[..|cs| - 1]);
    }
  }

  lemma {:induction false} FirstSystemMeans(cs: seq<Content>, i: nat)
    requires i <= |cs|
    ensures match FirstSystem(cs, i)
            case None => forall j :: i <= j < |cs| ==> !IsSystem(cs[j])
            case Some(k) => i <= k < |cs| && IsSystem(cs[k]) && forall j :: i <= j < k ==> !IsSystem(cs[j])
    decreases |cs| - i
  {
    hide IsSystem;
    if i < |cs| {
      FirstSystemMeans(cs, i + 1);
    }
  }

  /** At every level a tidy request is accepted without a warning and not changed. */
  lemma TidyIsFixed(level: Level, s: Snapshot)
    requires Tidy(s)
    ensures Validated(level, s) == Outcome(s, CLEAN)
  {
    hide Arrange, Tuned, IsSystem, Kept, Moved, MoveWarnings, InRange, RoleOf;
    forall i | 0 <= i < |s.contents| ensures !IsSystem(s.contents[i]) {
      SettledKeepsRole(s.contents[i]);
    }
    NothingToSift(s.system, s.contents);
    FirstSystemMeans(s.contents, 0);
    assert s.contents[..0] == [];
    TidyTurnsStay(level, s.contents, 0);
    if s.config.Some? {
      TunedIsInRange(level, Tuning(s.config.value, CLEAN));
    }
  }

  lemma FinishedIsTidy(level: Level, s: Snapshot, warned: seq<Warning>)
    requires s.contents != []
    ensures var r := Finished(level, s, warned);
            && (r.verdict.error.None? ==>
                  && Tidy(r.request) && Tagged(r.request.contents) == Tagged(RepairedAll(s.contents)))
            && r.request.system == s.system
            && (level != Strict ==> r.verdict.error.None?)
  {
    hide Arrange, Tuned, InRange, TidyTurns, Tagged;
    assert TidyTurns([]) by { EmptyIsTidy(); }
    ArrangedTurns(level, Arranging([], Verdict(None, warned)), s.contents, 0);
    assert s.contents[0..] == s.contents;
    TaggedNone();
    var a := Arrange(level, Arranging([], Verdict(None, warned)), s.contents, 0);
    if a.verdict.error.None? && s.config.Some? {
      TunedIsInRange(level, Tuning(s.config.value, a.verdict));
    }
    assert s.config.None? ==> InRange(s.config) by { NoConfigIsInRange(); }
  }

  lemma EmptyIsTidy()
    ensures TidyTurns([])
  {
  }

  lemma NoConfigIsInRange()
    ensures InRange(None)
  {
  }

  /**
   * Whenever validation succeeds, at either level, validating the result strictly succeeds,
   * warns of nothing and changes nothing.
   */
  lemma RepairIsAFixedPoint(level: Level, s: Snapshot)
    requires level != Off && Validated(level, s).verdict.error.None?
    ensures var repaired := Validated(level, s).request;
            && Validated(Strict, repaired) == Outcome(repaired, CLEAN)
            && Validated(Lenient, repaired) == Outcome(repaired, CLEAN)
  {
    hide Arrange, Tuned, InRange, TidyTurns, Tagged, FirstSystem, Finished;
    FinishedIsTidy(level, s.(system := Moved(s.system, s.contents), contents := Kept(s.contents)), MoveWarnings(s.contents));
    TidyIsFixed(Strict, Validated(level, s).request);
    TidyIsFixed(Lenient, Validated(level, s).request);
  }

  // ---- What the lenient level accepts and keeps ----

  function SystemParts(cs: seq<Content>): seq<Part> {
    if cs == [] then []
    else SystemParts(cs[..|cs| - 1]) + if IsSystem(cs[|cs| - 1]) then cs[|cs| - 1].parts else []
  }

  lemma {:induction false} MovedAppends(system: Option<seq<Part>>, cs: seq<Content>)
    ensures GetSome(Moved(system, cs)) == GetSome(system) + SystemParts(cs)
  {
    hide IsSystem;
    if cs != [] {
      MovedAppends(system, cs[..|cs| - 1]);
    }
  }

  lemma {:induction false} KeptNothing(cs: seq<Content>)
    ensures Kept(cs) == [] <==> forall i :: 0 <= i < |cs| ==> IsSystem(cs[i])
  {
    hide IsSystem;
    if cs != [] {
      var front := cs[..|cs| - 1];
      KeptNothing(front);
      assert forall i :: 0 <= i < |front| ==> front[i] == cs[i];
    }
  }

  /**
   * Lenient repair succeeds exactly when some content is not a system one. Then the parts of the
   * others follow each other as before under their repaired roles, an empty content giving one
   * blank, and the system parts follow each other behind the instruction's own.
   */
  lemma LenientKeepsEveryPart(s: Snapshot)
    ensures var r := Validated(Lenient, s);
            && (r.verdict.error.None? <==> exists i :: 0 <= i < |s.contents| && !IsSystem(s.contents[i]))
            && (r.verdict.error.None? ==> Tagged(r.request.contents) == Tagged(RepairedAll(Kept(s.contents))))
            && GetSome(r.request.system) == GetSome(s.system) + SystemParts(s.contents)
  {
    hide Arrange, Tuned, InRange, TidyTurns, Tagged, Finished, IsSystem, Moved, GetSome;
    MovedAppends(s.system, s.contents);
    KeptNothing(s.contents);
    if s.contents == [] {
      assert SystemParts(s.contents) == [];
    } else if Kept(s.contents) != [] {
      FinishedIsTidy(Lenient, s.(system := Moved(s.system, s.contents), contents := Kept(s.contents)), MoveWarnings(s.contents));
    }
  }

  // ---- What the strict level accepts ----

  /** The contents with their roles trimmed and in lower case. */
  function Named(cs: seq<Content>): (r: seq<Content>)
    ensures |r| == |cs|
  {
    seq(|cs|, i requires 0 <= i < |cs| => cs[i].(role := RoleOf(cs[i])))
  }

  lemma ObjectionMeans(c: Content, i: nat)
    ensures Objection(c, i).None? <==> Settled(c.(role := RoleOf(c)))
    ensures Objection(c, i).None? ==> Repaired(c) == c.(role := RoleOf(c)) && RepairWarnings(c, i) == [] && !IsSystem(c)
  {
    hide RoleOf;
  }

  lemma {:induction false} StrictArranges(cs: seq<Content>, i: nat)
    requires i <= |cs| && TidyTurns(Named(cs)[..i])
    ensures var r := Arrange(Strict, Arranging(Named(cs)[..i], CLEAN), cs, i);
            if TidyTurns(Named(cs)) then r == Arranging(Named(cs), CLEAN) else r.verdict.error.Some?
    decreases |cs| - i
  {
    hide RoleOf, Repaired, Objection, RepairWarnings, IsSystem, Settled;
    var named := Named(cs);
    if i == |cs| {
      assert named[..i] == named;
    } else {
      ObjectionMeans(cs[i], i);
      assert named[..i + 1] == named[..i] + [named[i]];
      assert CLEAN.warnings + [] == CLEAN.warnings;
      if Objection(cs[i], i).None? && !SameTurn(named[..i], named[i]) {
        StrictArranges(cs, i + 1);
      } else {
        assert i > 0 && Objection(cs[i], i).None? ==> named[i].role == named[i - 1].role;
        assert !TidyTurns(named);
      }
    }
  }

  /** Strict validation accepts exactly the requests that are tidy up to the case of roles and blanks around them. */
  lemma StrictAcceptsIff(s: Snapshot)
    ensures var named := s.(contents := Named(s.contents));
            if Tidy(named) then Validated(Strict, s) == Outcome(named, CLEAN)
            else Validated(Strict, s).verdict.error.Some?
  {
    hide Arrange, Tuned, IsSystem, Kept, Moved, MoveWarnings, InRange, RoleOf, Settled, Objection, Repaired;
    FirstSystemMeans(s.contents, 0);
    var named := Named(s.contents);
    forall i | 0 <= i < |named| && Settled(named[i]) ensures !IsSystem(s.contents[i]) {
      ObjectionMeans(s.contents[i], i);
    }
    if s.contents != [] && FirstSystem(s.contents, 0).None? {
      NothingToSift(s.system, s.contents);
      assert named[..0] == [];
      StrictArranges(s.contents, 0);
      if s.config.Some? {
        TunedIsInRange(Strict, Tuning(s.config.value, CLEAN));
        StrictTunes(Tuning(s.config.value, CLEAN));
      } else {
        NoConfigIsInRange();
      }
    }
  }

  lemma StrictTunes(t: Tuning)
    requires t.verdict.error.None?
    ensures Tuned(Strict, t).verdict.error.None? <==> InRange(Some(t.config))
  {
  }
}
