/** Repair reaches what strict validation accepts and loses nothing that was said. */
module AnthropicRepair {
  import opened Common
  import opened Text
  import opened Messages
  import opened AnthropicTranslation
  import opened Validation
  import opened AnthropicValidation

  /** Neighbours differ as the validator compares them. */
  predicate Differs(prev: InboundMessage, m: InboundMessage) { Lower(prev.role) != RoleOf(m) }

  predicate TidyTurns(ms: seq<InboundMessage>) {
    && (forall i :: 0 <= i < |ms| ==> KnownRole(ms[i]))
    && forall i :: 0 < i < |ms| ==> Differs(ms[i - 1], ms[i])
  }

  predicate Tidy(s: Snapshot) {
    && s.maxTokens > 0 && s.messages != [] && RoleOf(s.messages[0]) == "user"
    && TidyTurns(s.messages) && Unit(s.temperature) && Unit(s.topP)
  }

  // ---- Strict acceptance ----

  lemma {:induction false} FirstSystemMeans(ms: seq<InboundMessage>, i: nat)
    requires i <= |ms|
    ensures match FirstSystem(ms, i)
            case None => forall j :: i <= j < |ms| ==> !IsSystemRole(ms[j])
            case Some(k) => i <= k < |ms| && IsSystemRole(ms[k])
    decreases |ms| - i
  {
    hide IsSystemRole;
    if i < |ms| {
      FirstSystemMeans(ms, i + 1);
    }
  }

  lemma {:induction false} NothingToSift(codec: Codec, system: string, ms: seq<InboundMessage>)
    requires forall i :: 0 <= i < |ms| ==> !IsSystemRole(ms[i])
    ensures Kept(ms) == ms && Moved(codec, system, ms) == system && MoveWarnings(ms) == []
  {
    hide IsSystemRole;
    if ms != [] {
      NothingToSift(codec, system, ms[..|ms| - 1]);
    }
  }

  lemma KnownIsNotSystem(m: InboundMessage)
    ensures KnownRole(m) ==> !IsSystemRole(m)
  {
    hide RoleOf;
  }

  /** At each level tidy turns are kept as they are; at the strict one, others are an error. */
  lemma {:induction false} ArrangeMeans(level: Level, ms: seq<InboundMessage>, i: nat)
    requires i <= |ms| && TidyTurns(ms[..i])
    ensures var r := Arrange(level, Arranging(ms[..i], CLEAN), ms, i);
            && (TidyTurns(ms) ==> r == Arranging(ms, CLEAN))
            && (level == Strict && !TidyTurns(ms) ==> r.verdict.error.Some?)
    decreases |ms| - i
  {
    hide RoleOf, KnownRole, Lower;
    if i == |ms| {
      assert ms[..i] == ms;
    } else {
      assert ms[..i + 1] == ms[..i] + [ms[i]];
      assert CLEAN.warnings + [] == CLEAN.warnings;
      if KnownRole(ms[i]) && !SameTurn(ms[..i], ms[i]) {
        ArrangeMeans(level, ms, i + 1);
      } else {
        assert i > 0 && KnownRole(ms[i]) ==> !Differs(ms[i - 1], ms[i]);
        assert !TidyTurns(ms);
      }
    }
  }

  lemma TunedMeans(level: Level, o: Outcome)
    requires o.verdict.error.None?
    ensures Unit(o.request.temperature) && Unit(o.request.topP) ==> Tuned(level, o) == o
    ensures level == Strict && !(Unit(o.request.temperature) && Unit(o.request.topP)) ==> Tuned(level, o).verdict.error.Some?
    ensures level != Strict ==> Tuned(level, o).verdict.error.None?
    ensures Tuned(level, o).verdict.error.None? ==>
              Unit(Tuned(level, o).request.temperature) && Unit(Tuned(level, o).request.topP)
    ensures Tuned(level, o).request.messages == o.request.messages && Tuned(level, o).request.system == o.request.system
    ensures Tuned(level, o).request.maxTokens == o.request.maxTokens
  {
  }

  /** A tidy request is accepted at both levels, unchanged; strict validation accepts no other. */
  lemma AcceptedUnchangedIffTidy(codec: Codec, s: Snapshot)
    ensures if Tidy(s) then Validated(codec, Strict, s) == Validated(codec, Lenient, s) == Outcome(s, CLEAN)
            else Validated(codec, Strict, s).verdict.error.Some?
  {
    hide Arrange, Tuned, Kept, Moved, MoveWarnings, RoleOf, IsSystemRole, KnownRole, Differs, Unit;
    FirstSystemMeans(s.messages, 0);
    forall i | 0 <= i < |s.messages| && KnownRole(s.messages[i]) ensures !IsSystemRole(s.messages[i]) {
      KnownIsNotSystem(s.messages[i]);
    }
    if s.messages != [] && FirstSystem(s.messages, 0).None? {
      NothingToSift(codec, s.system, s.messages);
      assert s.messages[..0] == [];
      ArrangeMeans(Strict, s.messages, 0);
      ArrangeMeans(Lenient, s.messages, 0);
      assert CLEAN.warnings + [] == CLEAN.warnings;
      TunedMeans(Strict, Outcome(s, CLEAN));
      TunedMeans(Lenient, Outcome(s, CLEAN));
    }
  }

  // ---- What is said, piece by piece ----

  /** A character of a text, line breaks aside, or a block that is no text. */
  datatype Item = Ink(c: char) | Other(block: Json)

  function Inked(text: string): seq<Item> {
    if text == "" then []
    else Inked(text[..|text| - 1]) + if text[|text| - 1] == '\n' then [] else [Ink(text[|text| - 1])]
  }

  function BlockItems(b: Json): seq<Item> {
    if Field(b, "type") == Str("text") && Field(b, "text").Str? then Inked(Field(b, "text").s) else [Other(b)]
  }

  function BlocksItems(bs: seq<Json>): seq<Item> {
    if bs == [] then [] else BlocksItems(bs[..|bs| - 1]) + BlockItems(bs[|bs| - 1])
  }

  function Items(c: Json): seq<Item> {
    BlocksItems(ToSlice(c))
  }

  lemma {:induction false} InkedConcat(a: string, b: string)
    ensures Inked(a + b) == Inked(a) + Inked(b)
  {
    if b == "" {
      assert a + b == a;
    } else {
      assert (a + b)[..|a + b| - 1] == a + b[..|b| - 1];
      InkedConcat(a, b[..|b| - 1]);
    }
  }

  lemma {:induction false} BlocksItemsConcat(a: seq<Json>, b: seq<Json>)
    ensures BlocksItems(a + b) == BlocksItems(a) + BlocksItems(b)
  {
    hide BlockItems;
    if b == [] {
      assert a + b == a;
    } else {
      assert (a + b)[..|a + b| - 1] == a + b[..|b| - 1];
      BlocksItemsConcat(a, b[..|b| - 1]);
    }
  }

  lemma TextItems(t: string)
    ensures Items(Str(t)) == Inked(t)
  {
    hide Inked;
    assert [TextBlock(t)][..0] == [];
    assert BlocksItems([]) == [];
  }

  /** Merging two contents, texts or blocks, says first the one and then the other. */
  lemma MergeKeepsItems(a: Json, b: Json)
    ensures Items(MergeContents(a, b)) == Items(a) + Items(b)
  {
    hide BlocksItems;
    if a.Str? && b.Str? {
      hide Items;
      MergeTexts(a.s, b.s);
    } else {
      BlocksItemsConcat(ToSlice(a), ToSlice(b));
    }
  }

  lemma MergeTexts(a: string, b: string)
    ensures Items(Str(a + "\n\n" + b)) == Items(Str(a)) + Items(Str(b))
  {
    hide Inked, Items;
    TextItems(a);
    TextItems(b);
    TextItems(a + "\n\n" + b);
    InkedConcat(a + "\n\n", b);
    InkedConcat(a, "\n\n");
    NoInkInBreaks();
  }

  lemma NoInkInBreaks()
    ensures Inked("\n\n") == []
  {
    assert "\n\n"[..1] == "\n" && "\n"[..0] == "";
  }

  // ---- Whole requests ----

  function Tag(role: string, items: seq<Item>): seq<(string, Item)> {
    seq(|items|, i requires 0 <= i < |items| => (role, items[i]))
  }

  function Tags(m: InboundMessage): seq<(string, Item)> {
    Tag(RoleOf(m), Items(m.content))
  }

  /** Everything said, in order, each piece with the role that says it. */
  function Tagged(ms: seq<InboundMessage>): seq<(string, Item)> {
    if ms == [] then [] else Tagged(ms[..|ms| - 1]) + Tags(ms[|ms| - 1])
  }

  function RepairedAll(ms: seq<InboundMessage>): (r: seq<InboundMessage>)
    ensures |r| == |ms|
  {
    seq(|ms|, i requires 0 <= i < |ms| => Repaired(ms[i]))
  }

  lemma TaggedSnoc(ms: seq<InboundMessage>, m: InboundMessage)
    ensures Tagged(ms + [m]) == Tagged(ms) + Tags(m)
  {
    assert (ms + [m])[..|ms + [m]| - 1] == ms;
  }

  lemma {:induction false} TaggedCons(m: InboundMessage, ms: seq<InboundMessage>)
    ensures Tagged([m] + ms) == Tags(m) + Tagged(ms)
  {
    hide Tags;
    if ms == [] {
      assert [m] + ms == [] + [m];
      TaggedSnoc([], m);
    } else {
      var front, last := ms[..|ms| - 1], ms[|ms| - 1];
      TaggedCons(m, front);
      assert [m] + ms == ([m] + front) + [last];
      TaggedSnoc([m] + front, last);
    }
  }

  /** A role whose lower case is a known one has no blanks around it. */
  lemma LowerRoleIsTrimmed(m: InboundMessage)
    requires Lower(m.role) == "user" || Lower(m.role) == "assistant"
    ensures RoleOf(m) == Lower(m.role)
  {
    var s := m.role;
    assert LowerChar(s[0]) == Lower(s)[0] && LowerChar(s[|s| - 1]) == Lower(s)[|s| - 1];
  }

  lemma TagConcat(role: string, a: seq<Item>, b: seq<Item>)
    ensures Tag(role, a + b) == Tag(role, a) + Tag(role, b)
  {
  }

  lemma JoinedKeepsTags(out: seq<InboundMessage>, m: InboundMessage)
    requires KnownRole(m)
    ensures Tagged(Joined(out, m)) == Tagged(out) + Tags(m)
  {
    hide Tag, Items, Lower, MergeContents, TrimSpace, Tagged;
    if SameTurn(out, m) {
      var front, last := out[..|out| - 1], out[|out| - 1];
      LowerRoleIsTrimmed(last);
      MergeKeepsItems(last.content, m.content);
      TagConcat(RoleOf(m), Items(last.content), Items(m.content));
      assert out == front + [last];
      TaggedSnoc(front, last);
      TaggedSnoc(front, last.(content := MergeContents(last.content, m.content)));
    } else {
      TaggedSnoc(out, m);
    }
  }

  lemma JoinedIsTidy(out: seq<InboundMessage>, m: InboundMessage)
    requires TidyTurns(out) && KnownRole(m)
    ensures TidyTurns(Joined(out, m)) && Joined(out, m) != []
    ensures Joined(out, m)[0].role == if out == [] then m.role else out[0].role
  {
    hide Lower, MergeContents, RoleOf, KnownRole;
    if SameTurn(out, m) {
      var last := out[|out| - 1];
      OnlyRolesMatter(last, MergeContents(last.content, m.content));
    }
  }

  lemma OnlyRolesMatter(m: InboundMessage, content: Json)
    ensures RoleOf(m.(content := content)) == RoleOf(m) && KnownRole(m.(content := content)) == KnownRole(m)
  {
    hide Lower, TrimSpace;
  }

  lemma RepairedIsKnown(m: InboundMessage)
    ensures KnownRole(Repaired(m))
  {
    assert Lower("user") == "user";
  }

  lemma {:induction false} ArrangedTurns(level: Level, a: Arranging, ms: seq<InboundMessage>, i: nat)
    requires i <= |ms| && TidyTurns(a.out)
    ensures var r := Arrange(level, a, ms, i);
            && TidyTurns(r.out)
            && (a.out != [] ==> r.out != [] && r.out[0].role == a.out[0].role)
            && (r.verdict.error.None? ==>
                  && (a.out == [] && i < |ms| ==> r.out != [] && r.out[0].role == Repaired(ms[i]).role)
                  && Tagged(r.out) == Tagged(a.out) + Tagged(RepairedAll(ms[i..])))
            && (level != Strict && a.verdict.error.None? ==> r.verdict.error.None?)
    decreases |ms| - i
  {
    hide Tagged, Tags, Joined, Repaired, KnownRole, TidyTurns, RoleOf;
    if i == |ms| {
      assert RepairedAll(ms[i..]) == [];
      assert Tagged([]) == [] by { TaggedNone(); }
    } else if a.verdict.error.None? {
      var m := Repaired(ms[i]);
      var next := ArrangeOne(level, a, ms[i], i);
      RepairedIsKnown(ms[i]);
      JoinedIsTidy(a.out, m);
      JoinedKeepsTags(a.out, m);
      if next.verdict.error.None? {
        assert next.out == Joined(a.out, m);
      }
      ArrangedTurns(level, next, ms, i + 1);
      assert RepairedAll(ms[i..]) == [m] + RepairedAll(ms[i + 1..]);
      TaggedCons(m, RepairedAll(ms[i + 1..]));
    }
  }

  lemma TaggedNone()
    ensures Tagged([]) == []
  {
  }

  /** The first turn, with the greeting put in front where it is not the user's. */
  function Opened(ms: seq<InboundMessage>): seq<InboundMessage>
    requires ms != []
  {
    if RoleOf(ms[0]) == "user" then ms else [HELLO] + ms
  }

  lemma FinishedIsTidy(level: Level, s: Snapshot, warned: seq<Warning>)
    requires s.messages != [] && s.maxTokens > 0
    ensures var r := Finished(level, s, warned);
            && (r.verdict.error.None? ==>
                  Tidy(r.request) && Tagged(r.request.messages) == Tagged(RepairedAll(Opened(s.messages))))
            && r.request.system == s.system
            && (level != Strict ==> r.verdict.error.None?)
  {
    hide Arrange, Tuned, TidyTurns, Tagged, KnownRole, Lower, Unit;
    var ms := Opened(s.messages);
    GreetingIsUser();
    UserIsKnown(ms[0]);
    var start := Arranging([], Verdict(None, warned + if RoleOf(s.messages[0]) == "user" then [] else [PrependedUser]));
    EmptyIsTidy();
    TaggedNone();
    ArrangedTurns(level, start, ms, 0);
    assert ms[0..] == ms;
    var a := Arrange(level, start, ms, 0);
    if a.verdict.error.None? {
      TunedMeans(level, Outcome(s.(messages := a.out), a.verdict));
    }
  }

  lemma GreetingIsUser()
    ensures RoleOf(HELLO) == "user"
  {
  }

  lemma UserIsKnown(m: InboundMessage)
    requires RoleOf(m) == "user"
    ensures KnownRole(m)
  {
  }

  lemma EmptyIsTidy()
    ensures TidyTurns([])
  {
  }

  /** Whenever validation succeeds, at either level, both levels accept the result and change nothing more. */
  lemma RepairIsAFixedPoint(codec: Codec, level: Level, s: Snapshot)
    requires level != Off && Validated(codec, level, s).verdict.error.None?
    ensures var repaired := Validated(codec, level, s).request;
            Validated(codec, Strict, repaired) == Validated(codec, Lenient, repaired) == Outcome(repaired, CLEAN)
  {
    hide Tidy, Tagged, FirstSystem, Finished, Kept, Moved, MoveWarnings;
    var t := if s.maxTokens <= 0 then s.(maxTokens := 4096) else s;
    var warned := if s.maxTokens <= 0 then [InjectedMaxTokens] else [];
    FinishedIsTidy(level, t.(system := Moved(codec, t.system, t.messages), messages := Kept(t.messages)),
                   warned + MoveWarnings(t.messages));
    AcceptedUnchangedIffTidy(codec, Validated(codec, level, s).request);
  }

  lemma {:induction false} KeptNothing(ms: seq<InboundMessage>)
    ensures Kept(ms) == [] <==> forall i :: 0 <= i < |ms| ==> IsSystemRole(ms[i])
  {
    hide IsSystemRole;
    if ms != [] {
      var front := ms[..|ms| - 1];
      KeptNothing(front);
      assert forall i :: 0 <= i < |front| ==> front[i] == ms[i];
    }
  }

  /**
   * Lenient repair succeeds exactly when some message is not a system one. Then everything the others
   * say comes in the same order under their repaired roles, behind a greeting if they do not begin
   * with the user.
   */
  lemma LenientKeepsWhatIsSaid(codec: Codec, s: Snapshot)
    ensures var r := Validated(codec, Lenient, s);
            && (r.verdict.error.None? <==> exists i :: 0 <= i < |s.messages| && !IsSystemRole(s.messages[i]))
            && (r.verdict.error.None? ==>
                  && Kept(s.messages) != []
                  && Tagged(r.request.messages) == Tagged(RepairedAll(Opened(Kept(s.messages)))))
  {
    hide Tidy, Tagged, FirstSystem, Finished, Kept, Moved, MoveWarnings, IsSystemRole, RepairedAll, Opened;
    KeptNothing(s.messages);
    var t := if s.maxTokens <= 0 then s.(maxTokens := 4096) else s;
    var warned := if s.maxTokens <= 0 then [InjectedMaxTokens] else [];
    if Kept(s.messages) != [] {
      FinishedIsTidy(Lenient, t.(system := Moved(codec, t.system, t.messages), messages := Kept(t.messages)),
                     warned + MoveWarnings(t.messages));
    }
  }

  function SystemInk(codec: Codec, ms: seq<InboundMessage>): seq<Item> {
    if ms == [] then []
    else
      var last := ms[|ms| - 1];
      SystemInk(codec, ms[..|ms| - 1]) + if IsSystemRole(last) then Inked(ExtractString(codec, last.content)) else []
  }

  /** The text of misplaced system messages follows the request's own system text, in their order. */
  lemma {:induction false} SystemTextIsKept(codec: Codec, system: string, ms: seq<InboundMessage>)
    ensures Inked(Moved(codec, system, ms)) == Inked(system) + SystemInk(codec, ms)
  {
    hide IsSystemRole, ExtractString, Inked;
    if ms != [] {
      var front, last := ms[..|ms| - 1], ms[|ms| - 1];
      SystemTextIsKept(codec, system, front);
      if IsSystemRole(last) {
        AddSystemKeepsInk(Moved(codec, system, front), ExtractString(codec, last.content));
      }
    }
  }

  lemma AddSystemKeepsInk(system: string, more: string)
    ensures Inked(AddSystem(system, more)) == Inked(system) + Inked(more)
  {
    hide Inked;
    InkedConcat(system + "\n\n", more);
    InkedConcat(system, "\n\n");
    NoInkInBreaks();
    InkedConcat("", more);
    assert "" + more == more;
  }

  // ---- Blanks around roles ----

  /** Neighbouring turns belong to different speakers. */
  predicate TakeTurns(ms: seq<InboundMessage>) {
    forall i :: 0 < i < |ms| ==> RoleOf(ms[i - 1]) != RoleOf(ms[i])
  }

  /** A turn that escapes the comparison: written with blanks around its role, and followed by the same speaker. */
  predicate Escapes(prev: InboundMessage, m: InboundMessage) {
    TrimSpace(prev.role) != prev.role && RoleOf(prev) == RoleOf(m)
  }

  /** Two turns differ for the validator exactly when their speakers differ or the first escapes the comparison. */
  lemma DiffersIff(prev: InboundMessage, m: InboundMessage)
    requires KnownRole(prev) && KnownRole(m)
    ensures Differs(prev, m) <==> RoleOf(prev) != RoleOf(m) || Escapes(prev, m)
  {
    if Lower(prev.role) == RoleOf(m) {
      LowerRoleIsTrimmed(prev);
      LowerRoleHasNoBlanks(prev.role);
    }
  }

  lemma LowerRoleHasNoBlanks(s: string)
    requires Lower(s) == "user" || Lower(s) == "assistant"
    ensures TrimSpace(s) == s
  {
    assert LowerChar(s[0]) == Lower(s)[0] && LowerChar(s[|s| - 1]) == Lower(s)[|s| - 1];
  }

  /**
   * The turns of an accepted request alternate between user and assistant if and only if no message
   * with blanks around its role is followed by one of the same speaker.
   */
  lemma AcceptedTurnsAlternateIff(s: Snapshot)
    requires Tidy(s)
    ensures TakeTurns(s.messages) <==>
              forall i :: 0 < i < |s.messages| ==> !Escapes(s.messages[i - 1], s.messages[i])
  {
    hide RoleOf, Lower, KnownRole;
    forall i | 0 < i < |s.messages|
      ensures RoleOf(s.messages[i - 1]) != RoleOf(s.messages[i]) || Escapes(s.messages[i - 1], s.messages[i])
    {
      DiffersIff(s.messages[i - 1], s.messages[i]);
    }
  }

  // ---- When repaired turns alternate, read off the request itself ----

  /** Who speaks, and whether the role is written without blanks around it. */
  datatype Voice = Voice(speaker: string, plain: bool)

  function VoiceOf(m: InboundMessage): Voice { Voice(RoleOf(m), TrimSpace(m.role) == m.role) }

  function Voices(ms: seq<InboundMessage>): (r: seq<Voice>)
    ensures |r| == |ms|
  {
    seq(|ms|, i requires 0 <= i < |ms| => VoiceOf(ms[i]))
  }

  /** The `i`-th voice opens a run of two or more of one speaker. */
  predicate OpensRun(vs: seq<Voice>, i: nat) {
    i + 1 < |vs| && vs[i].speaker == vs[i + 1].speaker && (i == 0 || vs[i - 1].speaker != vs[i].speaker)
  }

  predicate RunsOpenPlainly(vs: seq<Voice>) {
    forall i: nat :: i < |vs| && OpensRun(vs, i) ==> vs[i].plain
  }

  predicate ChangesAt(vs: seq<Voice>, i: nat) {
    0 < i < |vs| ==> vs[i - 1].speaker != vs[i].speaker
  }

  predicate VoicesAlternate(vs: seq<Voice>) {
    forall i: nat :: i < |vs| ==> ChangesAt(vs, i)
  }

  /** A voice is taken into the turn before it if that is plain and of the same speaker. */
  function JoinedVoice(out: seq<Voice>, v: Voice): seq<Voice> {
    if out != [] && out[|out| - 1].plain && out[|out| - 1].speaker == v.speaker then out else out + [v]
  }

  function MergedVoices(vs: seq<Voice>): seq<Voice> {
    if vs == [] then [] else JoinedVoice(MergedVoices(vs[..|vs| - 1]), vs[|vs| - 1])
  }

  /** The voice that opens the last run of one speaker. */
  function LastOpener(vs: seq<Voice>): (o: nat)
    requires vs != []
    ensures o < |vs|
    ensures forall j :: o <= j < |vs| ==> vs[j].speaker == vs[|vs| - 1].speaker
    ensures o > 0 ==> vs[o - 1].speaker != vs[o].speaker
  {
    var n := |vs| - 1;
    if n == 0 || vs[n - 1].speaker != vs[n].speaker then n else LastOpener(vs[..n])
  }

  lemma EarlierOpenersStay(vs: seq<Voice>, v: Voice, i: nat)
    requires i + 1 < |vs|
    ensures OpensRun(vs + [v], i) <==> OpensRun(vs, i)
  {
    assert forall j :: 0 <= j < |vs| ==> (vs + [v])[j] == vs[j];
  }

  lemma LastVoiceOpens(vs: seq<Voice>, v: Voice)
    requires vs != []
    ensures OpensRun(vs + [v], |vs| - 1) <==> LastOpener(vs) == |vs| - 1 && vs[|vs| - 1].speaker == v.speaker
  {
    assert (vs + [v])[|vs|] == v && forall j :: 0 <= j < |vs| ==> (vs + [v])[j] == vs[j];
  }

  lemma LastOpenerSnoc(vs: seq<Voice>, v: Voice)
    requires vs != []
    ensures LastOpener(vs + [v]) == if vs[|vs| - 1].speaker == v.speaker then LastOpener(vs) else |vs|
  {
    assert (vs + [v])[..|vs|] == vs;
  }

  lemma LastOpenerOpens(vs: seq<Voice>)
    requires vs != [] && LastOpener(vs) < |vs| - 1
    ensures OpensRun(vs, LastOpener(vs))
  {
  }

  lemma OpenersArePlain(vs: seq<Voice>, i: nat)
    requires RunsOpenPlainly(vs) && i < |vs| && OpensRun(vs, i)
    ensures vs[i].plain
  {
  }

  lemma PrefixOpensPlainly(vs: seq<Voice>, v: Voice)
    requires RunsOpenPlainly(vs + [v])
    ensures RunsOpenPlainly(vs)
  {
    var all := vs + [v];
    forall i: nat | i < |vs| && OpensRun(vs, i) ensures vs[i].plain {
      assert OpensRun(all, i);
    }
  }

  lemma OpenedPlainlyBefore(vs: seq<Voice>, v: Voice)
    requires vs != [] && RunsOpenPlainly(vs + [v]) && vs[|vs| - 1].speaker == v.speaker
    ensures vs[LastOpener(vs)].plain
  {
    hide LastOpener, OpensRun, RunsOpenPlainly;
    var o := LastOpener(vs);
    if o == |vs| - 1 {
      LastVoiceOpens(vs, v);
      OpenersArePlain(vs + [v], o);
    } else {
      LastOpenerOpens(vs);
      EarlierOpenersStay(vs, v, o);
      OpenersArePlain(vs + [v], o);
    }
    assert (vs + [v])[o] == vs[o];
  }

  lemma OpensPlainlyAfter(vs: seq<Voice>, v: Voice, i: nat)
    requires vs != [] && RunsOpenPlainly(vs) && i < |vs| + 1 && OpensRun(vs + [v], i)
    requires vs[|vs| - 1].speaker == v.speaker ==> vs[LastOpener(vs)].plain
    ensures (vs + [v])[i].plain
  {
    hide LastOpener, OpensRun, RunsOpenPlainly;
    NoOpenerAtEnd(vs + [v], |vs|);
    if i == |vs| - 1 {
      LastVoiceOpens(vs, v);
    } else {
      EarlierOpenersStay(vs, v, i);
      OpenersArePlain(vs, i);
    }
    assert (vs + [v])[i] == vs[i];
  }

  lemma RunsOpenPlainlySnoc(vs: seq<Voice>, v: Voice)
    requires vs != []
    ensures RunsOpenPlainly(vs + [v]) <==>
              RunsOpenPlainly(vs) && (vs[|vs| - 1].speaker == v.speaker ==> vs[LastOpener(vs)].plain)
    ensures LastOpener(vs + [v]) == if vs[|vs| - 1].speaker == v.speaker then LastOpener(vs) else |vs|
  {
    hide LastOpener, OpensRun, RunsOpenPlainly;
    LastOpenerSnoc(vs, v);
    if RunsOpenPlainly(vs + [v]) {
      PrefixOpensPlainly(vs, v);
      if vs[|vs| - 1].speaker == v.speaker {
        OpenedPlainlyBefore(vs, v);
      }
    }
    if RunsOpenPlainly(vs) && (vs[|vs| - 1].speaker == v.speaker ==> vs[LastOpener(vs)].plain) {
      AllOpenPlainly(vs, v);
    }
  }

  lemma AllOpenPlainly(vs: seq<Voice>, v: Voice)
    requires vs != [] && RunsOpenPlainly(vs) && (vs[|vs| - 1].speaker == v.speaker ==> vs[LastOpener(vs)].plain)
    ensures RunsOpenPlainly(vs + [v])
  {
    hide LastOpener, OpensRun;
    forall i: nat | i < |vs| + 1 && OpensRun(vs + [v], i) ensures (vs + [v])[i].plain {
      OpensPlainlyAfter(vs, v, i);
    }
  }

  lemma NoOpenerAtEnd(vs: seq<Voice>, i: nat)
    requires |vs| <= i + 1
    ensures !OpensRun(vs, i)
  {
  }

  /** Merged voices alternate exactly if runs open plainly; then the last one is the one that opened its run. */
  lemma {:induction false} MergedVoicesAlternate(vs: seq<Voice>)
    requires vs != []
    ensures MergedVoices(vs) != [] && (VoicesAlternate(MergedVoices(vs)) <==> RunsOpenPlainly(vs))
    ensures RunsOpenPlainly(vs) ==> MergedVoices(vs)[|MergedVoices(vs)| - 1] == vs[LastOpener(vs)]
  {
    var n := |vs| - 1;
    hide RunsOpenPlainly, VoicesAlternate, LastOpener, MergedVoices;
    LastVoice(vs);
    if n == 0 {
      OneVoice(vs);
    } else {
      var front := vs[..n];
      assert vs == front + [vs[n]];
      MergedVoicesAlternate(front);
      RunsOpenPlainlySnoc(front, vs[n]);
      OneMoreVoice(MergedVoices(front), vs[n]);
    }
  }

  lemma LastVoice(vs: seq<Voice>)
    requires vs != []
    ensures MergedVoices(vs) == JoinedVoice(MergedVoices(vs[..|vs| - 1]), vs[|vs| - 1])
  {
  }

  lemma OneVoice(vs: seq<Voice>)
    requires |vs| == 1
    ensures MergedVoices(vs) == vs && VoicesAlternate(vs) && RunsOpenPlainly(vs) && LastOpener(vs) == 0
  {
    assert vs[..0] == [] && vs == [] + [vs[0]];
  }

  lemma OneMoreVoice(out: seq<Voice>, v: Voice)
    requires out != []
    ensures VoicesAlternate(JoinedVoice(out, v)) <==>
              VoicesAlternate(out) && (out[|out| - 1].plain || out[|out| - 1].speaker != v.speaker)
  {
    hide ChangesAt;
    var next := JoinedVoice(out, v);
    forall i: nat | i < |out| ensures ChangesAt(next, i) <==> ChangesAt(out, i) {
      SameChange(out, next, i);
    }
    if next != out {
      LastChange(out, v);
    }
  }

  lemma SameChange(out: seq<Voice>, next: seq<Voice>, i: nat)
    requires out <= next && i < |out|
    ensures ChangesAt(next, i) <==> ChangesAt(out, i)
  {
  }

  lemma LastChange(out: seq<Voice>, v: Voice)
    requires out != []
    ensures ChangesAt(out + [v], |out|) <==> out[|out| - 1].speaker != v.speaker
  {
  }

  // ---- Turns and their voices ----

  /** The turns put together one after the other. */
  function MergedAll(ms: seq<InboundMessage>): seq<InboundMessage> {
    if ms == [] then [] else Joined(MergedAll(ms[..|ms| - 1]), ms[|ms| - 1])
  }

  lemma TurnsAreVoices(ms: seq<InboundMessage>)
    ensures TakeTurns(ms) <==> VoicesAlternate(Voices(ms))
  {
    hide RoleOf, TrimSpace;
    assert forall i :: 0 <= i < |ms| ==> Voices(ms)[i].speaker == RoleOf(ms[i]);
    assert forall i: nat :: 0 < i < |ms| ==> (ChangesAt(Voices(ms), i) <==> RoleOf(ms[i - 1]) != RoleOf(ms[i]));
  }

  lemma VoiceNeedsOnlyRole(m: InboundMessage, content: Json)
    ensures VoiceOf(m.(content := content)) == VoiceOf(m) && KnownRole(m.(content := content)) == KnownRole(m)
  {
    hide Lower, TrimSpace;
  }

  /** A turn is joined exactly when its voice is. */
  lemma SameTurnIff(last: InboundMessage, m: InboundMessage)
    requires KnownRole(last) && KnownRole(m)
    ensures Lower(last.role) == RoleOf(m) <==> VoiceOf(last).plain && VoiceOf(last).speaker == VoiceOf(m).speaker
  {
    if Lower(last.role) == RoleOf(m) {
      LowerRoleIsTrimmed(last);
      LowerRoleHasNoBlanks(last.role);
    }
  }

  lemma JoinedSpeaksAs(out: seq<InboundMessage>, m: InboundMessage)
    requires KnownRole(m) && forall i :: 0 <= i < |out| ==> KnownRole(out[i])
    ensures Voices(Joined(out, m)) == JoinedVoice(Voices(out), VoiceOf(m))
    ensures forall i :: 0 <= i < |Joined(out, m)| ==> KnownRole(Joined(out, m)[i])
  {
    hide RoleOf, KnownRole, Lower, MergeContents, VoiceOf;
    if out != [] {
      var last := out[|out| - 1];
      SameTurnIff(last, m);
      VoiceNeedsOnlyRole(last, MergeContents(last.content, m.content));
    }
  }

  lemma {:induction false} MergedSpeakAs(ms: seq<InboundMessage>)
    requires forall i :: 0 <= i < |ms| ==> KnownRole(ms[i])
    ensures Voices(MergedAll(ms)) == MergedVoices(Voices(ms))
    ensures forall i :: 0 <= i < |MergedAll(ms)| ==> KnownRole(MergedAll(ms)[i])
  {
    hide KnownRole, VoiceOf, Joined, JoinedVoice;
    if ms != [] {
      var n := |ms| - 1;
      MergedSpeakAs(ms[..n]);
      JoinedSpeaksAs(MergedAll(ms[..n]), ms[n]);
      assert Voices(ms)[..n] == Voices(ms[..n]);
    }
  }

  /** Lenient arranging is merging the repaired turns. */
  lemma {:induction false} ArrangedIsMerged(a: Arranging, ms: seq<InboundMessage>, i: nat)
    requires i <= |ms| && a.verdict.error.None? && a.out == MergedAll(RepairedAll(ms[..i]))
    ensures Arrange(Lenient, a, ms, i).out == MergedAll(RepairedAll(ms))
    decreases |ms| - i
  {
    hide Repaired, KnownRole, Joined, SameTurn;
    if i == |ms| {
      assert ms[..i] == ms;
    } else {
      var m := Repaired(ms[i]);
      assert RepairedAll(ms[..i + 1]) == RepairedAll(ms[..i]) + [m];
      assert RepairedAll(ms[..i + 1])[..i] == RepairedAll(ms[..i]);
      OneArranged(a, ms[i], i);
      ArrangedIsMerged(ArrangeOne(Lenient, a, ms[i], i), ms, i + 1);
    }
  }

  lemma OneArranged(a: Arranging, m: InboundMessage, i: nat)
    ensures ArrangeOne(Lenient, a, m, i).out == Joined(a.out, Repaired(m))
    ensures ArrangeOne(Lenient, a, m, i).verdict.error.None?
  {
    hide Repaired, KnownRole;
  }

  lemma FinishedIsMerged(s: Snapshot, warned: seq<Warning>)
    requires s.messages != []
    ensures Finished(Lenient, s, warned).request.messages == MergedAll(RepairedAll(Opened(s.messages)))
  {
    hide Arrange, Tuned, RoleOf, Repaired, KnownRole, Joined, MergedAll;
    var ms := Opened(s.messages);
    var start := Arranging([], Verdict(None, warned + if RoleOf(s.messages[0]) == "user" then [] else [PrependedUser]));
    assert RepairedAll(ms[..0]) == [] && MergedAll([]) == [] by { MergedNone(); }
    ArrangedIsMerged(start, ms, 0);
    NoErrorWhenLenient(start, ms, 0);
    var a := Arrange(Lenient, start, ms, 0);
    TunedMeans(Lenient, Outcome(s.(messages := a.out), a.verdict));
  }

  lemma MergedNone()
    ensures MergedAll([]) == []
  {
  }

  lemma {:induction false} NoErrorWhenLenient(a: Arranging, ms: seq<InboundMessage>, i: nat)
    requires i <= |ms| && a.verdict.error.None?
    ensures Arrange(Lenient, a, ms, i).verdict.error.None?
    decreases |ms| - i
  {
    hide ArrangeOne;
    if i < |ms| {
      OneArranged(a, ms[i], i);
      NoErrorWhenLenient(ArrangeOne(Lenient, a, ms[i], i), ms, i + 1);
    }
  }

  /**
   * Read off the request: after lenient repair the turns alternate if and only if, among its repaired messages
   * with the greeting in front where one is needed, every message that opens a run of one speaker is written
   * without blanks around its role.
   */
  lemma LenientTurnsAlternateIff(codec: Codec, s: Snapshot)
    requires Kept(s.messages) != []
    ensures TakeTurns(Validated(codec, Lenient, s).request.messages) <==>
              RunsOpenPlainly(Voices(RepairedAll(Opened(Kept(s.messages)))))
  {
    hide TakeTurns, RunsOpenPlainly, VoicesAlternate, MergedVoices, Finished, Kept, Moved, MoveWarnings, FirstSystem, MergedAll, Opened,
         KnownRole, VoiceOf;
    var t := if s.maxTokens <= 0 then s.(maxTokens := 4096) else s;
    var warned := if s.maxTokens <= 0 then [InjectedMaxTokens] else [];
    KeptNothing(s.messages);
    FinishedIsMerged(t.(system := Moved(codec, t.system, t.messages), messages := Kept(t.messages)), warned + MoveWarnings(t.messages));
    var ms := RepairedAll(Opened(Kept(s.messages)));
    assert Opened(Kept(s.messages)) != [] by { OpenedIsNotEmpty(Kept(s.messages)); }
    forall i | 0 <= i < |ms| ensures KnownRole(ms[i]) {
      RepairedIsKnown(Opened(Kept(s.messages))[i]);
    }
    MergedSpeakAs(ms);
    MergedVoicesAlternate(Voices(ms));
    TurnsAreVoices(MergedAll(ms));
  }

  lemma OpenedIsNotEmpty(ms: seq<InboundMessage>)
    requires ms != []
    ensures Opened(ms) != []
  {
  }

  /** Two user turns in a row, the first written " user", pass strict validation as they are. */
  lemma BlankRolePassesStrict(codec: Codec, first: Json, second: Json, system: string)
    ensures var s := Snapshot(system, [InboundMessage(" user", first), InboundMessage("user", second)], 1, None, None);
            Validated(codec, Strict, s) == Outcome(s, CLEAN) && !TakeTurns(s.messages)
  {
    var a, b := InboundMessage(" user", first), InboundMessage("user", second);
    var s := Snapshot(system, [a, b], 1, None, None);
    BlankUser();
    assert Lower("user") == "user" && |Lower(" user")| == 5;
    assert TidyTurns(s.messages);
    AcceptedUnchangedIffTidy(codec, s);
    assert RoleOf(s.messages[0]) == RoleOf(s.messages[1]);
  }

  lemma BlankUser()
    ensures TrimSpace(" user") == "user"
  {
    assert " user"[1..] == "user";
  }
}
