/** When two models share a stored weight, and what that does to fairness (internal/router/load_balancer.go). */
module SharedWeights {
  import opened Common
  import opened Channels
  import opened LoadBalancer
  import opened SwrrMachine
  import opened SwrrFairness

  // ---- Equal keys ----

  /** `m1` and a colon begin `m2`, and the channel of `m1` is called by the rest of `m2`, a colon and `n2`. */
  predicate RunsInto(m1: string, n1: string, m2: string, n2: string) {
    |m1| < |m2| && m1 + ":" <= m2 && n1 == m2[|m1| + 1..] + ":" + n2
  }

  predicate SharesKey(m1: string, n1: string, m2: string, n2: string) {
    (m1 == m2 && n1 == n2) || RunsInto(m1, n1, m2, n2) || RunsInto(m2, n2, m1, n1)
  }

  lemma KeyOfLongerModel(m1: string, n1: string, m2: string, n2: string)
    requires |m1| < |m2|
    ensures Key(m1, n1) == Key(m2, n2) <==> RunsInto(m1, n1, m2, n2)
  {
    var k1, k2 := Key(m1, n1), Key(m2, n2);
    assert k1[..|m1| + 1] == m1 + ":" && k1[|m1| + 1..] == n1;
    assert k2[..|m1| + 1] == m2[..|m1| + 1] && k2[|m1| + 1..] == m2[|m1| + 1..] + ":" + n2;
    assert k1 == k1[..|m1| + 1] + k1[|m1| + 1..] && k2 == k2[..|m1| + 1] + k2[|m1| + 1..];
  }

  lemma KeyOfEqualLength(m1: string, n1: string, m2: string, n2: string)
    requires |m1| == |m2|
    ensures Key(m1, n1) == Key(m2, n2) <==> m1 == m2 && n1 == n2
  {
    var k1, k2 := Key(m1, n1), Key(m2, n2);
    assert k1[..|m1|] == m1 && k1[|m1| + 1..] == n1;
    assert k2[..|m2|] == m2 && k2[|m2| + 1..] == n2;
  }

  /** Two pairs of model and channel have one stored weight if and only if they are equal or one model runs into the other. */
  lemma KeysEqualIff(m1: string, n1: string, m2: string, n2: string)
    ensures Key(m1, n1) == Key(m2, n2) <==> SharesKey(m1, n1, m2, n2)
  {
    if |m1| < |m2| {
      KeyOfLongerModel(m1, n1, m2, n2);
    } else if |m2| < |m1| {
      KeyOfLongerModel(m2, n2, m1, n1);
    } else {
      KeyOfEqualLength(m1, n1, m2, n2);
    }
  }

  /** So models do share weights: wherever a colon stands in a model's name, the name may be cut there instead. */
  lemma ModelsCanShareAKey(model: string, suffix: string, name: string)
    ensures Key(model + ":" + suffix, name) == Key(model, suffix + ":" + name)
  {
    var long := model + ":" + suffix;
    assert long[|model| + 1..] == suffix;
    KeysEqualIff(model, suffix + ":" + name, long, name);
  }

  // ---- When the other calls of a run stay apart ----

  /** No channel of `other` shares its key with one of `mine`. */
  predicate NothingShared(mine: Call, other: Call) {
    forall i, j :: 0 <= i < |mine.group| && 0 <= j < |other.group| ==>
      !SharesKey(mine.model, mine.group[i].name, other.model, other.group[j].name)
  }

  lemma SharedKeyMeans(mine: Call, other: Call)
    ensures NothingShared(mine, other) <==> forall k :: KeyOf(k, mine.model, mine.group) ==> !KeyOf(k, other.model, other.group)
  {
    hide SharesKey, Key;
    forall i, j | 0 <= i < |mine.group| && 0 <= j < |other.group|
      ensures SharesKey(mine.model, mine.group[i].name, other.model, other.group[j].name)
         <==> Key(mine.model, mine.group[i].name) == Key(other.model, other.group[j].name)
    {
      KeysEqualIff(mine.model, mine.group[i].name, other.model, other.group[j].name);
    }
    if !NothingShared(mine, other) {
      var i, j :| 0 <= i < |mine.group| && 0 <= j < |other.group|
        && SharesKey(mine.model, mine.group[i].name, other.model, other.group[j].name);
      var k := Key(mine.model, mine.group[i].name);
      assert KeyOf(k, mine.model, mine.group) && KeyOf(k, other.model, other.group);
    }
  }

  /** The calls of a run are apart from `mine` exactly when no other call shares a key with it. */
  lemma ApartIff(calls: seq<Call>, mine: Call)
    ensures Apart(calls, mine) <==> forall i :: 0 <= i < |calls| && calls[i] != mine ==> NothingShared(mine, calls[i])
  {
    hide NothingShared, KeyOf;
    forall i | 0 <= i < |calls|
      ensures NothingShared(mine, calls[i])
         <==> forall k :: KeyOf(k, mine.model, mine.group) ==> !KeyOf(k, calls[i].model, calls[i].group)
    {
      SharedKeyMeans(mine, calls[i]);
    }
  }

  predicate ColonFreeModels(mine: Call, other: Call) { ':' !in mine.model && ':' !in other.model }

  predicate ColonFreeNames(group: seq<Channel>) {
    forall i :: 0 <= i < |group| ==> ':' !in group[i].name
  }

  /** Names that a key cannot confuse: no colon in either model, or none in any channel's name. */
  predicate Unmistakable(mine: Call, other: Call) {
    ColonFreeModels(mine, other) || (ColonFreeNames(mine.group) && ColonFreeNames(other.group))
  }

  predicate NoCommonName(mine: Call, other: Call) {
    forall i, j :: 0 <= i < |mine.group| && 0 <= j < |other.group| ==> mine.group[i].name != other.group[j].name
  }

  lemma RunningIntoNeedsColons(m1: string, n1: string, m2: string, n2: string)
    requires RunsInto(m1, n1, m2, n2)
    ensures ':' in m2 && ':' in n1
  {
    assert m2[|m1|] == (m1 + ":")[|m1|] == ':';
    assert n1[|m2| - |m1| - 1] == ':';
  }

  /** With unmistakable names, calls are apart exactly when they are of different models or have no channel name in common. */
  lemma UnmistakableNamesAreApart(mine: Call, other: Call)
    requires Unmistakable(mine, other)
    ensures NothingShared(mine, other) <==> mine.model != other.model || NoCommonName(mine, other)
  {
    hide RunsInto;
    forall i, j | 0 <= i < |mine.group| && 0 <= j < |other.group|
      ensures SharesKey(mine.model, mine.group[i].name, other.model, other.group[j].name)
         <==> mine.model == other.model && mine.group[i].name == other.group[j].name
    {
      var a, b := mine.group[i].name, other.group[j].name;
      if RunsInto(mine.model, a, other.model, b) {
        RunningIntoNeedsColons(mine.model, a, other.model, b);
      } else if RunsInto(other.model, b, mine.model, a) {
        RunningIntoNeedsColons(other.model, b, mine.model, a);
      }
    }
  }

  /**
   * Fairness from conditions a caller can read off the configuration: colons only in the models' names or
   * only in the channels', and other tiers of the same model with other channel names.
   */
  lemma FairAmongUnmistakableNames(weights: map<string, int>, calls: seq<Call>, mine: Call, s: nat, i: nat)
    requires mine.group != [] && DistinctNames(mine.group)
    requires forall c :: c in calls && c != mine ==>
               Unmistakable(mine, c) && (mine.model != c.model || NoCommonName(mine, c))
    requires Stored(weights, mine.model, mine.group) == Zeros(|mine.group|)
    requires i < |mine.group| && s + Total(mine.group) <= |Heads(weights, calls, mine)|
    ensures Count(Heads(weights, calls, mine)[s..s + Total(mine.group)], mine.group[i]) == Weight(mine.group[i])
  {
    hide Unmistakable, NoCommonName, NothingShared, Apart, Stored, Total, Heads, Count, DistinctNames;
    forall j | 0 <= j < |calls| && calls[j] != mine
      ensures NothingShared(mine, calls[j])
    {
      assert calls[j] in calls;
      UnmistakableNamesAreApart(mine, calls[j]);
    }
    ApartIff(calls, mine);
    FairInAnyWindow(weights, calls, mine, s, i);
  }

  // ---- What sharing does ----

  /** One selection between two channels. */
  lemma TwoChannels(weights: map<string, int>, model: string, a: Channel, b: Channel)
    requires a.name != b.name
    requires GetOr(weights, Key(model, a.name), 0) + Weight(a) > NO_MAX
    ensures var ra := GetOr(weights, Key(model, a.name), 0) + Weight(a);
            var rb := GetOr(weights, Key(model, b.name), 0) + Weight(b);
            var total := Weight(a) + Weight(b);
            var after := Selected(weights, model, [a, b]);
            && Total([a, b]) == total
            && Winner(weights, model, [a, b]) == (if rb > ra then 1 else 0)
            && GetOr(after, Key(model, a.name), 0) == (if rb > ra then ra else ra - total)
            && GetOr(after, Key(model, b.name), 0) == (if rb > ra then rb - total else rb)
            && forall k :: k != Key(model, a.name) && k != Key(model, b.name) ==> GetOr(after, k, 0) == GetOr(weights, k, 0)
  {
    hide Key, Weight;
    KeysDiffer(model, a.name, b.name);
    var group := [a, b];
    PassStart(weights, model, group);
    PassStep(weights, model, group, 0);
    PassStep(weights, model, group, 1);
    assert group[..2] == group;
  }

  lemma RunSnoc(weights: map<string, int>, calls: seq<Call>, call: Call, mine: Call)
    requires mine.group != []
    ensures After(weights, calls + [call]) == Selected(After(weights, calls), call.model, call.group)
    ensures Firsts(weights, calls + [call], mine)
         == Firsts(weights, calls, mine) + if call != mine then [] else [PutFirst(After(weights, calls), mine)]
  {
    hide Selected, PutFirst;
    var all := calls + [call];
    assert all[..|all| - 1] == calls && all[|all| - 1] == call;
  }

  lemma RunNothing(weights: map<string, int>, mine: Call)
    requires mine.group != []
    ensures After(weights, []) == weights && Firsts(weights, [], mine) == []
  {
  }

  /**
   * A shared weight breaks fairness. Let a channel `a` of one model share its key with `c` of another, `b` and `d`
   * being the other channels of the two tiers, all of weight 1 but `d` of weight 5. Two selections of the other
   * tier between two of `mine` let `a` win both times: in a window of two it should win once.
   */
  lemma SharedKeyIsUnfair(mine: Call, other: Call, a: Channel, b: Channel, c: Channel, d: Channel)
    requires mine.group == [a, b] && other.group == [c, d] && mine != other
    requires a.name != b.name && c.name != d.name
    requires SharesKey(mine.model, a.name, other.model, c.name) && !SharesKey(mine.model, b.name, other.model, d.name)
    requires Weight(a) == Weight(b) == Weight(c) == 1 && Weight(d) == 5
    ensures var heads := Heads(map[], [mine, other, other, mine], mine);
            |heads| == Total(mine.group) == 2 && Count(heads[0..Total(mine.group)], a) == 2 != Weight(a)
  {
    hide Key, Weight, SharesKey, Selected, Winner, Firsts, Heads, After, Total, Count;
    KeysEqualIff(mine.model, a.name, other.model, c.name);
    KeysEqualIff(mine.model, b.name, other.model, d.name);
    KeysDiffer(mine.model, a.name, b.name);
    KeysDiffer(other.model, c.name, d.name);
    RunNothing(map[], mine);
    var w1 := Selected(map[], mine.model, mine.group);
    var w2 := Selected(w1, other.model, other.group);
    var w3 := Selected(w2, other.model, other.group);
    TwoChannels(map[], mine.model, a, b);
    TwoChannels(w1, other.model, c, d);
    TwoChannels(w2, other.model, c, d);
    TwoChannels(w3, mine.model, a, b);
    RunSnoc(map[], [], mine, mine);
    RunSnoc(map[], [mine], other, mine);
    RunSnoc(map[], [mine, other], other, mine);
    RunSnoc(map[], [mine, other, other], mine, mine);
    assert [] + [mine] == [mine] && [mine] + [other] == [mine, other];
    assert [mine, other] + [other] == [mine, other, other];
    assert [mine, other, other] + [mine] == [mine, other, other, mine];
    var firsts := Firsts(map[], [mine, other, other, mine], mine);
    HeadsArePicked(map[], [mine, other, other, mine], mine);
    var heads := Heads(map[], [mine, other, other, mine], mine);
    assert firsts == [0, 0] && heads == [a, a] && heads[0..2] == heads;
    CountTwo(a);
  }

  lemma CountTwo<T>(x: T)
    ensures Count([x, x], x) == 2
  {
    assert [x, x][..1] == [x] && [x][..0] == [];
    assert Count([x], x) == Count([], x) + 1;
  }
}
