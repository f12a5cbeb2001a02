/** Ordering of the channels inside one priority tier (internal/router/load_balancer.go). */
module LoadBalancer {
  import opened Common
  import opened Channels

  /** `-1 << 31`, the value `maxWeight` starts from. */
  const NO_MAX := -0x8000_0000

  function Key(model: string, name: string): string {
    model + ":" + name
  }

  function Weight(ch: Channel): (w: int)
    ensures w >= 1
  {
    if ch.weight <= 0 then 1 else ch.weight
  }

  function Total(group: seq<Channel>): (t: int)
    ensures t >= |group|
  {
    if group == [] then 0
    else Total(group[..|group| - 1]) + Weight(group[|group| - 1])
  }

  /** The weights after the first pass has added each channel's own weight. */
  function Raised(weights: map<string, int>, model: string, group: seq<Channel>): map<string, int> {
    if group == [] then weights
    else
      var r := Raised(weights, model, group[..|group| - 1]);
      var last := group[|group| - 1];
      var k := Key(model, last.name);
      r[k := GetOr(r, k, 0) + Weight(last)]
  }

  /** Index and value of the best running weight met by the first pass. */
  function Best(weights: map<string, int>, model: string, group: seq<Channel>): (b: (int, int))
    ensures 0 <= b.0
    ensures group != [] ==> b.0 < |group|
  {
    if group == [] then (0, NO_MAX)
    else
      var n := |group| - 1;
      var b := Best(weights, model, group[..n]);
      var cur := GetOr(Raised(weights, model, group), Key(model, group[n].name), 0);
      if cur > b.1 then (n, cur) else b
  }

  function Winner(weights: map<string, int>, model: string, group: seq<Channel>): (i: nat)
    requires group != []
    ensures i < |group|
  {
    Best(weights, model, group).0
  }

  /** The stored weights after one selection. */
  function Selected(weights: map<string, int>, model: string, group: seq<Channel>): map<string, int> {
    if |group| <= 1 then weights
    else
      var r := Raised(weights, model, group);
      var k := Key(model, group[Winner(weights, model, group)].name);
      r[k := GetOr(r, k, 0) - Total(group)]
  }

  function Ordered(weights: map<string, int>, model: string, group: seq<Channel>): seq<Channel> {
    if |group| <= 1 then group else WinnerFirst(group, Winner(weights, model, group))
  }

  /** The three running results of the first pass, taken one channel further. */
  lemma PassStep(weights: map<string, int>, model: string, group: seq<Channel>, i: nat)
    requires i < |group|
    ensures var r := Raised(weights, model, group[..i]);
            var b := Best(weights, model, group[..i]);
            var k := Key(model, group[i].name);
            var cur := GetOr(r, k, 0) + Weight(group[i]);
            && Total(group[..i + 1]) == Total(group[..i]) + Weight(group[i])
            && Raised(weights, model, group[..i + 1]) == r[k := cur]
            && Best(weights, model, group[..i + 1]) == if cur > b.1 then (i, cur) else b
  {
    assert group[..i + 1][..i] == group[..i];
  }

  lemma PassStart(weights: map<string, int>, model: string, group: seq<Channel>)
    ensures Total(group[..0]) == 0
    ensures Raised(weights, model, group[..0]) == weights
    ensures Best(weights, model, group[..0]) == (0, NO_MAX)
  {
  }

  class SWRRSelector {
    var weights: map<string, int>

    constructor (weights: map<string, int>)
      ensures this.weights == weights
    {
      this.weights := weights;
    }

    method Select(group: seq<Channel>, model: string) returns (result: seq<Channel>)
      modifies this
      ensures weights == Selected(old(weights), model, group)
      ensures result == Ordered(old(weights), model, group)
    {
      hide Raised, Total, Best, Key, WinnerFirst;
      if |group| <= 1 {
        return group;
      }
      var totalWeight, winnerIdx := RaiseAll(group, model);
      var winnerKey := Key(model, group[winnerIdx].name);
      weights := weights[winnerKey := GetOr(weights, winnerKey, 0) - totalWeight];
      result := Others(group, winnerIdx);
    }

    /** The pass over the tier: every weight is raised, and the first maximum found. */
    method RaiseAll(group: seq<Channel>, model: string) returns (totalWeight: int, winnerIdx: nat)
      requires group != []
      modifies this
      ensures weights == Raised(old(weights), model, group)
      ensures totalWeight == Total(group) && winnerIdx == Winner(old(weights), model, group)
    {
      hide Raised, Total, Best, Key, GetOr;
      totalWeight, winnerIdx := 0, 0;
      var maxWeight := NO_MAX;
      PassStart(weights, model, group);
      for i := 0 to |group|
        invariant totalWeight == Total(group[..i])
        invariant weights == Raised(old(weights), model, group[..i])
        invariant (winnerIdx, maxWeight) == Best(old(weights), model, group[..i])
      {
        PassStep(old(weights), model, group, i);
        var w := if group[i].weight <= 0 then 1 else group[i].weight;
        totalWeight := totalWeight + w;
        var key := Key(model, group[i].name);
        var cur := GetOr(weights, key, 0) + w;
        weights := weights[key := cur];
        if cur > maxWeight {
          maxWeight := cur;
          winnerIdx := i;
        }
      }
      assert group[..|group|] == group;
    }
  }

  /** The winner, then every other channel of the tier in its order. */
  method Others(group: seq<Channel>, chosen: nat) returns (result: seq<Channel>)
    requires chosen < |group|
    ensures result == WinnerFirst(group, chosen)
  {
    result := [group[chosen]];
    for i := 0 to |group|
      invariant result == [group[chosen]] + (if i <= chosen then group[..i] else group[..chosen] + group[chosen + 1..i])
    {
      if i != chosen {
        result := result + [group[i]];
      }
    }
  }

  /** Index of the first channel called `name`, if any. */
  function FirstNamed(group: seq<Channel>, name: string): (r: Option<nat>)
    ensures r.Some? ==> r.value < |group| && group[r.value].name == name
                        && forall j :: 0 <= j < r.value ==> group[j].name != name
    ensures r.None? ==> forall j :: 0 <= j < |group| ==> group[j].name != name
  {
    if group == [] then None
    else if group[0].name == name then Some(0)
    else
      match FirstNamed(group[1..], name)
      case None => assert forall j :: 0 < j < |group| ==> group[j] == group[1..][j - 1]; None
      case Some(i) => assert forall j :: 0 < j < |group| ==> group[j] == group[1..][j - 1]; Some(i + 1)
  }

  /** The channel a session is sent to: the pinned one if the tier has it, else the hashed one. */
  function Chosen(group: seq<Channel>, pinned: string, hash: nat): (i: nat)
    requires group != []
    ensures i < |group|
  {
    match if pinned == "" then None else FirstNamed(group, pinned)
    case Some(i) => i
    case None => hash % |group|
  }

  /** The tier with the session's channel in front. */
  function ByAffinity(group: seq<Channel>, pinned: string, hash: nat): seq<Channel>
    requires group != []
  {
    WinnerFirst(group, Chosen(group, pinned, hash))
  }

  /** The name written back as the session's pin, when the pin did not decide. */
  function NewPin(group: seq<Channel>, pinned: string, hash: nat): Option<string>
    requires group != []
  {
    if pinned != "" && FirstNamed(group, pinned).Some? then None else Some(group[hash % |group|].name)
  }

  /**
   * Sticky session order. `pinned` is what Redis answers ("" when it has no pin or is not
   * reachable); `hash` is the 32-bit FNV-1a sum of the session and model names. `pin` is what
   * an active Redis is told to remember.
   */
  method SelectBySession(group: seq<Channel>, sessionID: string, pinned: string, hash: nat)
    returns (result: seq<Channel>, pin: Option<string>)
    ensures sessionID == "" || |group| <= 1 ==> result == group && pin == None
    ensures sessionID != "" && |group| > 1 ==>
              result == ByAffinity(group, pinned, hash) && pin == NewPin(group, pinned, hash)
    ensures multiset(result) == multiset(group)
  {
    pin := None;
    if sessionID == "" || |group| <= 1 {
      return group, None;
    }
    var chosenIdx := -1;
    if pinned != "" {
      var i := 0;
      while i < |group|
        invariant 0 <= i <= |group|
        invariant forall j :: 0 <= j < i ==> group[j].name != pinned
        invariant chosenIdx == -1
      {
        if group[i].name == pinned {
          chosenIdx := i;
          break;
        }
        i := i + 1;
      }
    }
    if chosenIdx < 0 {
      chosenIdx := hash % |group|;
      pin := Some(group[chosenIdx].name);
    }
    result := Others(group, chosenIdx);
    WinnerFirstIsPermutation(group, chosenIdx);
  }

  /** The pinned channel, or the hashed one, is in front, and the others keep their order. */
  lemma AffinityPutsFirst(group: seq<Channel>, pinned: string, hash: nat)
    requires group != []
    ensures var answer := ByAffinity(group, pinned, hash);
            var isPinned := pinned != "" && exists i :: 0 <= i < |group| && group[i].name == pinned;
            && |answer| == |group|
            && (isPinned ==> answer[0].name == pinned && NewPin(group, pinned, hash) == None)
            && (!isPinned ==> answer[0] == group[hash % |group|] && NewPin(group, pinned, hash) == Some(answer[0].name))
            && exists i :: 0 <= i < |group| && answer[0] == group[i] && answer[1..] == group[..i] + group[i + 1..]
                             && (isPinned ==> forall j :: 0 <= j < i ==> group[j].name != pinned)
  {
    var answer, i := ByAffinity(group, pinned, hash), Chosen(group, pinned, hash);
    assert answer == [group[i]] + (group[..i] + group[i + 1..]);
    assert answer[0] == group[i] && answer[1..] == group[..i] + group[i + 1..];
  }

  /**
   * Sessions stick: with the pin a selection leaves behind, any later tier that still has a channel of that
   * name sends the session there, however the tier has changed and whatever the hash says.
   */
  lemma SessionSticks(group: seq<Channel>, pinned: string, hash: nat, later: seq<Channel>, laterHash: nat)
    requires group != [] && ByAffinity(group, pinned, hash)[0].name != ""
    requires exists i :: 0 <= i < |later| && later[i].name == ByAffinity(group, pinned, hash)[0].name
    ensures var pin := match NewPin(group, pinned, hash) case Some(name) => name case None => pinned;
            && ByAffinity(later, pin, laterHash)[0].name == ByAffinity(group, pinned, hash)[0].name
            && NewPin(later, pin, laterHash) == None
  {
    var name := group[Chosen(group, pinned, hash)].name;
    var i :| 0 <= i < |later| && later[i].name == name;
    assert FirstNamed(later, name).Some?;
  }
}
