/** The selector over whole runs, with other tiers and models in between, against the abstract machine. */
module SwrrFairness {
  import opened Common
  import opened Channels
  import opened LoadBalancer
  import opened SwrrMachine

  // ---- The stored weights follow the abstract machine ----

  predicate DistinctNames(group: seq<Channel>) {
    forall i, j :: 0 <= i < j < |group| ==> group[i].name != group[j].name
  }

  function Weights(group: seq<Channel>): (w: seq<int>)
    ensures |w| == |group|
  {
    seq(|group|, i requires 0 <= i < |group| => Weight(group[i]))
  }

  function Stored(weights: map<string, int>, model: string, group: seq<Channel>): (c: seq<int>)
    ensures |c| == |group|
  {
    seq(|group|, i requires 0 <= i < |group| => GetOr(weights, Key(model, group[i].name), 0))
  }

  predicate KeyOf(k: string, model: string, group: seq<Channel>) {
    exists i :: 0 <= i < |group| && k == Key(model, group[i].name)
  }

  lemma KeysDiffer(model: string, a: string, b: string)
    requires a != b
    ensures Key(model, a) != Key(model, b)
  {
    assert Key(model, a)[|model| + 1..] == a;
    assert Key(model, b)[|model| + 1..] == b;
  }

  lemma {:induction false} TotalIsSum(group: seq<Channel>)
    ensures Total(group) == Sum(Weights(group))
  {
    if group != [] {
      var n := |group| - 1;
      assert Weights(group)[..n] == Weights(group[..n]);
      TotalIsSum(group[..n]);
    }
  }

  lemma {:induction false} RaisedFrame(weights: map<string, int>, model: string, group: seq<Channel>, k: string)
    requires !KeyOf(k, model, group)
    ensures GetOr(Raised(weights, model, group), k, 0) == GetOr(weights, k, 0)
  {
    if group != [] {
      var n := |group| - 1;
      assert k != Key(model, group[n].name);
      forall i | 0 <= i < n
        ensures k != Key(model, group[..n][i].name)
      {
        assert group[..n][i] == group[i];
      }
      RaisedFrame(weights, model, group[..n], k);
    }
  }

  lemma {:induction false} RaisedAt(weights: map<string, int>, model: string, group: seq<Channel>, i: nat)
    requires DistinctNames(group) && i < |group|
    ensures GetOr(Raised(weights, model, group), Key(model, group[i].name), 0)
         == GetOr(weights, Key(model, group[i].name), 0) + Weight(group[i])
  {
    hide Key, Weight;
    var n := |group| - 1;
    var front := group[..n];
    if i < n {
      KeysDiffer(model, group[i].name, group[n].name);
      RaisedAt(weights, model, front, i);
    } else {
      forall j | 0 <= j < n ensures Key(model, front[j].name) != Key(model, group[n].name) {
        KeysDiffer(model, group[j].name, group[n].name);
      }
      RaisedFrame(weights, model, front, Key(model, group[n].name));
    }
  }

  lemma RaisedAdds(weights: map<string, int>, model: string, group: seq<Channel>)
    requires DistinctNames(group)
    ensures Stored(Raised(weights, model, group), model, group) == Add(Stored(weights, model, group), Weights(group))
  {
    hide Key, Weight, Raised, GetOr, DistinctNames;
    forall i | 0 <= i < |group|
      ensures Stored(Raised(weights, model, group), model, group)[i] == Add(Stored(weights, model, group), Weights(group))[i]
    {
      RaisedAt(weights, model, group, i);
    }
  }

  /** What the scan of a tier finds, `c` being the raised weights. */
  ghost predicate ScanResult(c: seq<int>, b: (int, int)) {
    && (forall j :: 0 <= j < |c| ==> c[j] <= b.1)
    && b.1 >= NO_MAX
    && (if b.1 > NO_MAX then 0 <= b.0 < |c| && c[b.0] == b.1 else b.0 == 0)
    && (forall j :: 0 <= j < b.0 && j < |c| ==> c[j] < b.1)
  }

  lemma ScanOneMore(front: seq<int>, cur: int, b: (int, int))
    requires ScanResult(front, b)
    ensures ScanResult(front + [cur], if cur > b.1 then (|front|, cur) else b)
  {
  }

  lemma {:induction false} BestIsScanResult(weights: map<string, int>, model: string, group: seq<Channel>)
    requires DistinctNames(group)
    ensures ScanResult(Add(Stored(weights, model, group), Weights(group)), Best(weights, model, group))
  {
    hide ScanResult, Raised, Stored, Weights, GetOr, Weight;
    var c := Add(Stored(weights, model, group), Weights(group));
    if group == [] {
      assert ScanResult(c, (0, NO_MAX)) by { ScanEmpty(c); }
    } else {
      var n := |group| - 1;
      var front := group[..n];
      BestIsScanResult(weights, model, front);
      LastRaised(weights, model, group);
      ScanOneMore(Add(Stored(weights, model, front), Weights(front)), c[n], Best(weights, model, front));
    }
  }

  lemma LastRaised(weights: map<string, int>, model: string, group: seq<Channel>)
    requires DistinctNames(group) && group != []
    ensures var n := |group| - 1;
            var c := Add(Stored(weights, model, group), Weights(group));
            && c == Add(Stored(weights, model, group[..n]), Weights(group[..n])) + [c[n]]
            && GetOr(Raised(weights, model, group), Key(model, group[n].name), 0) == c[n]
  {
    hide GetOr, Key, Weight, Raised, DistinctNames;
    RaisedAt(weights, model, group, |group| - 1);
  }

  lemma ScanEmpty(c: seq<int>)
    requires c == []
    ensures ScanResult(c, (0, NO_MAX))
  {
  }

  /** Raised weights of a tier in balance sum to W > 0, so the maximum lies far above the floor. */
  lemma MaximumIsPositive(raised: seq<int>, i: nat)
    requires i < |raised| && Sum(raised) >= 1
    requires IsFirstMax(raised, i)
    ensures raised[i] >= 1
  {
    if raised[i] <= 0 {
      SumUpperBound(raised, 0);
    }
  }

  lemma WinnerIsFirstMax(weights: map<string, int>, model: string, group: seq<Channel>)
    requires DistinctNames(group) && group != []
    requires Sum(Stored(weights, model, group)) == 0
    ensures Winner(weights, model, group) == FirstMax(Add(Stored(weights, model, group), Weights(group)))
  {
    hide Sum, Add, Best, Stored, Weights;
    var c := Stored(weights, model, group);
    var w := Weights(group);
    var raised := Add(c, w);
    SumOfAdd(c, w);
    WeightsArePositive(group);
    SumIsPositive(w);
    MaximumIsPositive(raised, FirstMax(raised));
    BestIsScanResult(weights, model, group);
  }

  lemma WeightsArePositive(group: seq<Channel>)
    requires group != []
    ensures Positive(Weights(group))
  {
  }

  /** One `Select` call on a tier in balance is one step of the abstract machine. */
  lemma SelectIsStep(weights: map<string, int>, model: string, group: seq<Channel>)
    requires DistinctNames(group) && |group| >= 2
    requires Sum(Stored(weights, model, group)) == 0
    ensures var c := Stored(weights, model, group);
            && Winner(weights, model, group) == FirstMax(Add(c, Weights(group)))
            && Stored(Selected(weights, model, group), model, group) == Step(c, Weights(group))
  {
    hide Sum, Add, Raised, Total, Winner, FirstMax, IsFirstMax;
    var c := Stored(weights, model, group);
    var w := Weights(group);
    WinnerIsFirstMax(weights, model, group);
    var i := FirstMax(Add(c, w));
    var r := Raised(weights, model, group);
    assert Stored(r, model, group) == Add(c, w) by { RaisedAdds(weights, model, group); }
    TotalIsSum(group);
    var after := Selected(weights, model, group);
    forall j | 0 <= j < |group|
      ensures Stored(after, model, group)[j] == Step(c, w)[j]
    {
      assert Stored(r, model, group)[j] == Add(c, w)[j];
      if j != i {
        KeysDiffer(model, group[i].name, group[j].name);
      }
    }
  }

  lemma SelectFrame(weights: map<string, int>, model: string, group: seq<Channel>, k: string)
    requires !KeyOf(k, model, group)
    ensures GetOr(Selected(weights, model, group), k, 0) == GetOr(weights, k, 0)
  {
    RaisedFrame(weights, model, group, k);
    if |group| > 1 {
      assert k != Key(model, group[Winner(weights, model, group)].name);
    }
  }

  // ---- Runs that interleave selections of any tiers and models ----

  datatype Call = Call(model: string, group: seq<Channel>)

  function After(weights: map<string, int>, calls: seq<Call>): map<string, int> {
    if calls == [] then weights
    else
      var last := calls[|calls| - 1];
      Selected(After(weights, calls[..|calls| - 1]), last.model, last.group)
  }

  /** Index of the channel that a call puts first. */
  function PutFirst(weights: map<string, int>, call: Call): (i: nat)
    requires call.group != []
    ensures i < |call.group|
  {
    if |call.group| == 1 then 0 else Winner(weights, call.model, call.group)
  }

  /** The indices put first by the calls equal to `mine`, in order. */
  function Firsts(weights: map<string, int>, calls: seq<Call>, mine: Call): seq<nat>
    requires mine.group != []
  {
    if calls == [] then []
    else
      var n := |calls| - 1;
      Firsts(weights, calls[..n], mine)
        + if calls[n] != mine then []
          else [PutFirst(After(weights, calls[..n]), mine)]
  }

  /** Every other call writes none of the keys that `mine` uses. */
  ghost predicate Apart(calls: seq<Call>, mine: Call) {
    forall i, k {:trigger KeyOf(k, calls[i].model, calls[i].group)} ::
      0 <= i < |calls| && calls[i] != mine && KeyOf(k, mine.model, mine.group)
      ==> !KeyOf(k, calls[i].model, calls[i].group)
  }

  /** Two tiers of one model that share no channel name are apart. */
  lemma SharedKeyNeedsSharedName(model: string, mine: seq<Channel>, other: seq<Channel>, k: string)
    requires KeyOf(k, model, mine) && KeyOf(k, model, other)
    ensures exists i, j :: 0 <= i < |mine| && 0 <= j < |other| && mine[i].name == other[j].name
  {
    var i :| 0 <= i < |mine| && k == Key(model, mine[i].name);
    var j :| 0 <= j < |other| && k == Key(model, other[j].name);
    if mine[i].name != other[j].name {
      KeysDiffer(model, mine[i].name, other[j].name);
    }
  }

  /** What a run tells about `mine`: the picks so far and the running weights. */
  ghost predicate InStep(weights: map<string, int>, calls: seq<Call>, mine: Call)
    requires mine.group != []
  {
    var w := Weights(mine.group);
    var f := Firsts(weights, calls, mine);
    && (forall k :: 0 <= k < |f| ==> f[k] == Pick(w, k))
    && Stored(After(weights, calls), mine.model, mine.group) == State(w, |f|)
  }

  lemma OtherCallKeepsStep(weights: map<string, int>, calls: seq<Call>, mine: Call)
    requires calls != [] && mine.group != [] && calls[|calls| - 1] != mine && Apart(calls, mine)
    requires InStep(weights, calls[..|calls| - 1], mine)
    ensures InStep(weights, calls, mine)
  {
    var n := |calls| - 1;
    var before := After(weights, calls[..n]);
    assert Firsts(weights, calls, mine) == Firsts(weights, calls[..n], mine);
    forall j | 0 <= j < |mine.group|
      ensures Stored(After(weights, calls), mine.model, mine.group)[j] == Stored(before, mine.model, mine.group)[j]
    {
      var k := Key(mine.model, mine.group[j].name);
      assert KeyOf(k, mine.model, mine.group);
      assert !KeyOf(k, calls[n].model, calls[n].group);
      SelectFrame(before, calls[n].model, calls[n].group, k);
    }
  }

  lemma SoleChannelStaysZero(w: seq<int>, k: nat)
    requires Positive(w) && |w| == 1
    ensures State(w, k) == Zeros(1) && Pick(w, k) == 0
  {
    Balanced(w, k);
    var c := State(w, k);
    assert c[..0] == [];
    assert c == [c[0]];
  }

  lemma MachineStep(before: map<string, int>, mine: Call, k: nat)
    requires mine.group != [] && DistinctNames(mine.group)
    requires Stored(before, mine.model, mine.group) == State(Weights(mine.group), k)
    ensures PutFirst(before, mine) == Pick(Weights(mine.group), k)
    ensures Stored(Selected(before, mine.model, mine.group), mine.model, mine.group)
         == State(Weights(mine.group), k + 1)
  {
    var w := Weights(mine.group);
    if |mine.group| == 1 {
      SoleChannelStaysZero(w, k);
      SoleChannelStaysZero(w, k + 1);
    } else {
      Balanced(w, k);
      SelectIsStep(before, mine.model, mine.group);
    }
  }

  lemma OwnCallSteps(weights: map<string, int>, calls: seq<Call>, mine: Call)
    requires calls != [] && mine.group != [] && calls[|calls| - 1] == mine && DistinctNames(mine.group)
    requires InStep(weights, calls[..|calls| - 1], mine)
    ensures InStep(weights, calls, mine)
  {
    hide Pick, State, Selected, PutFirst;
    var front := calls[..|calls| - 1];
    MachineStep(After(weights, front), mine, |Firsts(weights, front, mine)|);
  }

  lemma {:induction false} RunFollowsMachine(weights: map<string, int>, calls: seq<Call>, mine: Call)
    requires mine.group != [] && DistinctNames(mine.group) && Apart(calls, mine)
    requires Stored(weights, mine.model, mine.group) == Zeros(|mine.group|)
    ensures InStep(weights, calls, mine)
  {
    if calls != [] {
      var front := calls[..|calls| - 1];
      forall i, k | 0 <= i < |front| && front[i] != mine && KeyOf(k, mine.model, mine.group)
        ensures !KeyOf(k, front[i].model, front[i].group)
      {
        assert front[i] == calls[i];
      }
      RunFollowsMachine(weights, front, mine);
      if calls[|calls| - 1] == mine {
        OwnCallSteps(weights, calls, mine);
      } else {
        OtherCallKeepsStep(weights, calls, mine);
      }
    }
  }

  function Count<T(==)>(s: seq<T>, x: T): nat {
    if s == [] then 0 else Count(s[..|s| - 1], x) + if s[|s| - 1] == x then 1 else 0
  }

  lemma {:induction false} CountSplits<T>(f: seq<T>, s: nat, e: nat, x: T)
    requires s <= e <= |f|
    ensures Count(f[..e], x) == Count(f[..s], x) + Count(f[s..e], x)
  {
    if s < e {
      assert f[s..e][..e - s - 1] == f[s..e - 1];
      assert f[..e][..e - 1] == f[..e - 1];
      CountSplits(f, s, e - 1, x);
    }
  }

  lemma {:induction false} CountIsWins(w: seq<int>, f: seq<nat>, e: nat, i: nat)
    requires w != [] && e <= |f|
    requires forall k :: 0 <= k < |f| ==> f[k] == Pick(w, k)
    ensures Count(f[..e], i) == Wins(w, e, i)
  {
    if e > 0 {
      assert f[..e][..e - 1] == f[..e - 1];
      CountIsWins(w, f, e - 1, i);
    }
  }

  lemma WindowOfPicks(w: seq<int>, f: seq<nat>, s: nat, i: nat)
    requires Positive(w) && i < |w| && Sum(w) >= 0 && s + Sum(w) <= |f|
    requires forall k :: 0 <= k < |f| ==> f[k] == Pick(w, k)
    ensures Count(f[s..s + Sum(w)], i) == w[i]
  {
    hide Pick, Wins, Count;
    WindowIsFair(w, s, i);
    CountIsWins(w, f, s, i);
    CountIsWins(w, f, s + Sum(w), i);
    CountSplits(f, s, s + Sum(w), i);
  }

  // ---- The channels that answer ----

  /** The answer to a call: its tier with the chosen channel in front. */
  function Answer(weights: map<string, int>, call: Call): seq<Channel> { Ordered(weights, call.model, call.group) }

  /** The channels in front of the answers to the calls equal to `mine`, in order. */
  function Heads(weights: map<string, int>, calls: seq<Call>, mine: Call): seq<Channel>
    requires mine.group != []
  {
    if calls == [] then []
    else
      var n := |calls| - 1;
      Heads(weights, calls[..n], mine)
        + if calls[n] != mine then []
          else [Answer(After(weights, calls[..n]), mine)[0]]
  }

  /** An answer is the picked channel and then the others of the tier in their order. */
  lemma AnswerIsPickedFirst(weights: map<string, int>, call: Call)
    requires call.group != []
    ensures var (answer, i) := (Answer(weights, call), PutFirst(weights, call));
            && |answer| == |call.group| && answer[0] == call.group[i]
            && forall k :: 0 < k < |answer| ==> answer[k] == call.group[if k <= i then k - 1 else k]
  {
  }

  lemma {:induction false} HeadsArePicked(weights: map<string, int>, calls: seq<Call>, mine: Call)
    requires mine.group != []
    ensures |Heads(weights, calls, mine)| == |Firsts(weights, calls, mine)|
    ensures forall k :: 0 <= k < |Firsts(weights, calls, mine)| ==> Firsts(weights, calls, mine)[k] < |mine.group|
    ensures forall k :: 0 <= k < |Heads(weights, calls, mine)| ==>
              Heads(weights, calls, mine)[k] == mine.group[Firsts(weights, calls, mine)[k]]
  {
    hide Answer, PutFirst, After;
    if calls != [] {
      var n := |calls| - 1;
      HeadsArePicked(weights, calls[..n], mine);
      AnswerIsPickedFirst(After(weights, calls[..n]), mine);
    }
  }

  lemma {:induction false} CountHeads(heads: seq<Channel>, f: seq<nat>, group: seq<Channel>, i: nat)
    requires DistinctNames(group) && i < |group| && |heads| == |f|
    requires forall k :: 0 <= k < |f| ==> f[k] < |group| && heads[k] == group[f[k]]
    ensures Count(heads, group[i]) == Count(f, i)
  {
    if f != [] {
      var n := |f| - 1;
      CountHeads(heads[..n], f[..n], group, i);
      assert group[f[n]] == group[i] ==> f[n] == i;
    }
  }

  /**
   * Fairness: whatever else is selected in between, in each window of W answers to one tier
   * each of its channels stands first exactly as often as its weight says.
   */
  lemma FairInAnyWindow(weights: map<string, int>, calls: seq<Call>, mine: Call, s: nat, i: nat)
    requires mine.group != [] && DistinctNames(mine.group) && Apart(calls, mine)
    requires Stored(weights, mine.model, mine.group) == Zeros(|mine.group|)
    requires i < |mine.group| && s + Total(mine.group) <= |Heads(weights, calls, mine)|
    ensures Count(Heads(weights, calls, mine)[s..s + Total(mine.group)], mine.group[i])
         == if mine.group[i].weight > 0 then mine.group[i].weight else 1
  {
    hide Heads, Firsts, Apart, Stored, Total, Sum, Wins, Pick, State, Zeros, Count, DistinctNames;
    var w, W := Weights(mine.group), Total(mine.group);
    var f, heads := Firsts(weights, calls, mine), Heads(weights, calls, mine);
    RunFollowsMachine(weights, calls, mine);
    TotalIsSum(mine.group);
    HeadsArePicked(weights, calls, mine);
    WindowOfPicks(w, f, s, i);
    CountHeads(heads[s..s + W], f[s..s + W], mine.group, i);
  }

  /** Lead bound over every run: in k answers, channel i stands first less than k*w/W + 1 times. */
  lemma NeverAheadByATurn(weights: map<string, int>, calls: seq<Call>, mine: Call, i: nat)
    requires mine.group != [] && DistinctNames(mine.group) && Apart(calls, mine)
    requires Stored(weights, mine.model, mine.group) == Zeros(|mine.group|)
    requires i < |mine.group|
    ensures var heads := Heads(weights, calls, mine);
            Count(heads, mine.group[i]) * Total(mine.group) < |heads| * Weight(mine.group[i]) + Total(mine.group)
  {
    hide Heads, Firsts, Apart, Stored, Total, Wins, State, Zeros, Count, DistinctNames;
    var w := Weights(mine.group);
    var f := Firsts(weights, calls, mine);
    RunFollowsMachine(weights, calls, mine);
    TotalIsSum(mine.group);
    WeightsArePositive(mine.group);
    HeadsArePicked(weights, calls, mine);
    CountHeads(Heads(weights, calls, mine), f, mine.group, i);
    CountIsWins(w, f, |f|, i);
    assert f[..|f|] == f;
    PrefixShare(w, |f|, i);
  }

  // ---- Conservation: the whole table of stored weights never changes its sum ----

  ghost function TableSum(m: map<string, int>): int
    decreases m.Keys
  {
    if m == map[] then 0
    else
      var k :| k in m;
      m[k] + TableSum(m - {k})
  }

  lemma {:induction false} TableSumPull(m: map<string, int>, k: string)
    requires k in m
    ensures TableSum(m) == m[k] + TableSum(m - {k})
    decreases m.Keys
  {
    var p :| p in m && TableSum(m) == m[p] + TableSum(m - {p});
    if p != k {
      TableSumPull(m - {p}, k);
      TableSumPull(m - {k}, p);
      assert m - {p} - {k} == m - {k} - {p};
    }
  }

  lemma TableSumUpdate(m: map<string, int>, k: string, v: int)
    ensures TableSum(m[k := v]) == TableSum(m) - GetOr(m, k, 0) + v
  {
    TableSumPull(m[k := v], k);
    if k in m {
      TableSumPull(m, k);
      assert m[k := v] - {k} == m - {k};
    } else {
      assert m[k := v] - {k} == m;
    }
  }

  lemma {:induction false} RaisedSum(weights: map<string, int>, model: string, group: seq<Channel>)
    ensures TableSum(Raised(weights, model, group)) == TableSum(weights) + Total(group)
  {
    if group != [] {
      var n := |group| - 1;
      RaisedSum(weights, model, group[..n]);
      var r := Raised(weights, model, group[..n]);
      var k := Key(model, group[n].name);
      TableSumUpdate(r, k, GetOr(r, k, 0) + Weight(group[n]));
    }
  }

  lemma SelectKeepsSum(weights: map<string, int>, model: string, group: seq<Channel>)
    ensures TableSum(Selected(weights, model, group)) == TableSum(weights)
  {
    RaisedSum(weights, model, group);
    if |group| > 1 {
      var r := Raised(weights, model, group);
      var k := Key(model, group[Winner(weights, model, group)].name);
      TableSumUpdate(r, k, GetOr(r, k, 0) - Total(group));
    }
  }

  /** Under any interleaving of tiers and models, shared keys included, the table sums to zero. */
  lemma {:induction false} StoredWeightsSumToZero(calls: seq<Call>)
    ensures TableSum(After(map[], calls)) == 0
  {
    if calls != [] {
      var n := |calls| - 1;
      StoredWeightsSumToZero(calls[..n]);
      SelectKeepsSum(After(map[], calls[..n]), calls[n].model, calls[n].group);
    }
  }
}
