/** Fairness beside a second tier, whatever its weights: exactly when the tiers share no key (internal/router/load_balancer.go). */
module SharedUnfairness {
  import opened Common
  import opened Channels
  import opened LoadBalancer
  import opened SwrrMachine
  import opened SwrrFairness
  import opened SharedWeights

  // ---- A tier with one heavy channel lets the others fall behind ----

  lemma SumWithout(w: seq<int>, d: nat)
    requires d < |w| && forall y :: 0 <= y < |w| && y != d ==> 1 <= w[y] <= 2
    ensures 0 <= Sum(w) - w[d] <= 2 * |w|
  {
    SumOfUpdate(w, d, 0);
    SumUpperBound(w[d := 0], 2);
    SumLowerBound(w[d := 0]);
  }

  /** All but channel `d` have weight 1 or 2, and `d` has enough to win `m` times in a row. */
  predicate Heavy(w: seq<int>, d: nat, m: nat) {
    && d < |w| && (forall y :: 0 <= y < |w| && y != d ==> 1 <= w[y] <= 2)
    && w[d] >= m * (2 * |w| + 2) && w[d] >= 1
  }

  lemma HeavyRoom(k: nat, m: nat, n: nat, gap: int, heavy: int)
    requires k < m && n >= 1 && heavy >= m * (2 * n + 2) && gap <= 2 * n
    ensures heavy - k * gap > 2 * (k + 1)
  {
    assert m * (2 * n + 2) >= (k + 1) * (2 * n + 2);
    assert k * gap <= k * (2 * n);
    assert (k + 1) * (2 * n + 2) == k * (2 * n) + 2 * n + 2 * (k + 1);
  }

  lemma OnlyMaximum(c: seq<int>, d: nat)
    requires d < |c| && forall y :: 0 <= y < |c| && y != d ==> c[y] < c[d]
    ensures FirstMax(c) == d
  {
  }

  /** As long as the heavy channel has won every selection it wins the next. */
  lemma HeavyWinsAgain(w: seq<int>, d: nat, m: nat, k: nat)
    requires Heavy(w, d, m) && k < m
    requires forall y :: 0 <= y < |w| ==> Wins(w, k, y) == if y == d then k else 0
    ensures Pick(w, k) == d
  {
    hide Sum, Wins, State, FirstMax;
    var raised := Add(State(w, k), w);
    SumWithout(w, d);
    HeavyRoom(k, m, |w|, Sum(w) - w[d], w[d]);
    forall y | 0 <= y < |w| && y != d ensures raised[y] < raised[d] {
      Accounting(w, k, y);
      Accounting(w, k, d);
      LightIsLow(k, w[y]);
    }
    OnlyMaximum(raised, d);
  }

  lemma LightIsLow(k: nat, share: int)
    requires share <= 2
    ensures k * share + share <= 2 * (k + 1)
  {
    assert k * share <= k * 2;
  }

  lemma {:induction false} HeavyWinsAll(w: seq<int>, d: nat, m: nat, k: nat)
    requires Heavy(w, d, m) && k <= m
    ensures forall y :: 0 <= y < |w| ==> Wins(w, k, y) == if y == d then k else 0
  {
    hide Heavy, Pick;
    if k > 0 {
      HeavyWinsAll(w, d, m, k - 1);
      HeavyWinsAgain(w, d, m, k - 1);
    }
  }

  lemma HeavyLeavesAt(w: seq<int>, d: nat, m: nat, y: nat)
    requires Heavy(w, d, m) && y < |w|
    ensures if y == d then State(w, m)[y] <= 0 else State(w, m)[y] == m * w[y]
  {
    hide Sum, Wins, State;
    HeavyWinsAll(w, d, m, m);
    SumWithout(w, d);
    Accounting(w, m, y);
    if y == d {
      LagOfHeavy(m, w[d], Sum(w));
    }
  }

  lemma LagOfHeavy(m: nat, share: int, total: int)
    requires share <= total
    ensures m * share - total * m <= 0
  {
    assert m * (share - total) <= 0;
  }

  lemma HeavyLeaves(w: seq<int>, d: nat, m: nat)
    requires Heavy(w, d, m)
    ensures State(w, m)[d] <= 0 && forall y :: 0 <= y < |w| && y != d ==> State(w, m)[y] == m * w[y]
  {
    hide State;
    HeavyLeavesAt(w, d, m, d);
    forall y: nat | y < |w| && y != d ensures State(w, m)[y] == m * w[y] {
      HeavyLeavesAt(w, d, m, y);
    }
  }

  // ---- A tier with one channel far ahead ----

  /** Channel `i` is far enough ahead to win `r` more selections of total weight `total`. */
  predicate Ahead(c: seq<int>, i: nat, r: nat, total: int) {
    && i < |c| && c[i] >= r * total
    && forall j :: 0 <= j < |c| && j != i ==> c[i] - c[j] >= 2 * (r * total)
  }

  lemma AheadWins(weights: map<string, int>, model: string, group: seq<Channel>, i: nat, r: nat)
    requires DistinctNames(group) && |group| >= 2 && r >= 1
    requires Ahead(Stored(weights, model, group), i, r, Total(group))
    ensures Winner(weights, model, group) == i
    ensures Ahead(Stored(Selected(weights, model, group), model, group), i, r - 1, Total(group))
  {
    hide Raised, Best, Weights, Stored, Key, GetOr, DistinctNames;
    var c, w := Stored(weights, model, group), Weights(group);
    var after := Stored(Selected(weights, model, group), model, group);
    WeightsAreUnderTotal(group);
    assert r * Total(group) == (r - 1) * Total(group) + Total(group);
    BestIsScanResult(weights, model, group);
    AheadIsScanned(c, w, i, r, Total(group), Best(weights, model, group));
    SelectedAt(weights, model, group);
    forall j | 0 <= j < |group| && j != i ensures after[i] - after[j] >= 2 * ((r - 1) * Total(group)) {
      assert after[j] == c[j] + w[j];
    }
  }

  lemma AheadIsScanned(c: seq<int>, w: seq<int>, i: nat, r: nat, total: int, b: (int, int))
    requires |c| == |w| && Ahead(c, i, r, total) && r >= 1 && total >= 1
    requires forall j :: 0 <= j < |w| ==> 1 <= w[j] <= total
    requires ScanResult(Add(c, w), b)
    ensures b.0 == i
  {
    hide ScanResult;
    var raised := Add(c, w);
    assert r * total >= total;
    forall j | 0 <= j < |raised| && j != i ensures raised[j] < raised[i] {
      assert c[i] - c[j] >= 2 * (r * total);
    }
    OnlyMaximumIsScanned(raised, i, b);
  }

  lemma OnlyMaximumIsScanned(c: seq<int>, i: nat, b: (int, int))
    requires i < |c| && c[i] >= 1 && forall j :: 0 <= j < |c| && j != i ==> c[j] < c[i]
    requires ScanResult(c, b)
    ensures b.0 == i
  {
  }

  lemma WeightsAreUnderTotal(group: seq<Channel>)
    requires |group| >= 2
    ensures forall i :: 0 <= i < |group| ==> 1 <= Weights(group)[i] < Total(group)
  {
    hide Sum, Weight, Total;
    var w := Weights(group);
    TotalIsSum(group);
    WeightsArePositive(group);
    forall i | 0 <= i < |group| ensures w[i] < Sum(w) {
      var rest := w[i := 0];
      SumOfUpdate(w, i, 0);
      SumLowerBound(rest);
      assert rest[if i == 0 then 1 else 0] >= 1;
    }
  }

  /** One selection, in balance or not. */
  lemma SelectedAt(weights: map<string, int>, model: string, group: seq<Channel>)
    requires DistinctNames(group) && |group| >= 2
    ensures var i := Winner(weights, model, group);
            forall j :: 0 <= j < |group| ==>
              (Stored(Selected(weights, model, group), model, group)[j]
               == Stored(weights, model, group)[j] + Weights(group)[j] - if j == i then Total(group) else 0)
  {
    hide Raised, Total, Winner, Key, Weight;
    var i := Winner(weights, model, group);
    forall j | 0 <= j < |group|
      ensures Stored(Selected(weights, model, group), model, group)[j]
           == Stored(weights, model, group)[j] + Weights(group)[j] - if j == i then Total(group) else 0
    {
      RaisedAt(weights, model, group, j);
      if j != i {
        KeysDiffer(model, group[i].name, group[j].name);
      }
    }
  }

  // ---- Runs of one call ----

  function Times(call: Call, n: nat): (calls: seq<Call>)
    ensures |calls| == n
  {
    seq(n, _ => call)
  }

  lemma TimesSnoc(call: Call, n: nat)
    requires n > 0
    ensures Times(call, n) == Times(call, n - 1) + [call]
  {
  }

  /** From nothing, `k` selections of one tier leave it in the machine's state and every other key unset. */
  lemma {:induction false} OnlyOneTier(other: Call, k: nat)
    requires other.group != [] && DistinctNames(other.group)
    ensures Stored(After(map[], Times(other, k)), other.model, other.group) == State(Weights(other.group), k)
    ensures forall key :: !KeyOf(key, other.model, other.group) ==> GetOr(After(map[], Times(other, k)), key, 0) == 0
  {
    hide State, Selected, Key, KeyOf, DistinctNames;
    if k == 0 {
      assert State(Weights(other.group), 0) == Zeros(|other.group|) by { StateStart(Weights(other.group)); }
    } else {
      OnlyOneTier(other, k - 1);
      TimesSnoc(other, k);
      RunSnoc(map[], Times(other, k - 1), other, other);
      var before := After(map[], Times(other, k - 1));
      MachineStep(before, other, k - 1);
      forall key | !KeyOf(key, other.model, other.group)
        ensures GetOr(Selected(before, other.model, other.group), key, 0) == 0
      {
        SelectFrame(before, other.model, other.group, key);
      }
    }
  }

  lemma StateStart(w: seq<int>)
    requires w != []
    ensures State(w, 0) == Zeros(|w|)
  {
  }

  lemma {:induction false} NoneOfMine(mine: Call, other: Call, k: nat)
    requires mine.group != [] && mine != other
    ensures Firsts(map[], Times(other, k), mine) == []
  {
    if k > 0 {
      NoneOfMine(mine, other, k - 1);
      TimesSnoc(other, k);
      RunSnoc(map[], Times(other, k - 1), other, mine);
    }
  }

  function Wall(i: nat, n: nat): (s: seq<nat>)
    ensures |s| == n
  {
    seq(n, _ => i)
  }

  lemma {:induction false} CountWall(i: nat, n: nat)
    ensures Count(Wall(i, n), i) == n
  {
    if n > 0 {
      assert Wall(i, n)[..n - 1] == Wall(i, n - 1);
      CountWall(i, n - 1);
    }
  }

  /** A channel far ahead when the selections of its tier begin wins all of the first `s`. */
  lemma {:induction false} AheadWinsAll(before: seq<Call>, mine: Call, i: nat, s: nat)
    requires |mine.group| >= 2 && DistinctNames(mine.group) && s <= Total(mine.group)
    requires Firsts(map[], before, mine) == []
    requires Ahead(Stored(After(map[], before), mine.model, mine.group), i, Total(mine.group), Total(mine.group))
    ensures Firsts(map[], before + Times(mine, s), mine) == Wall(i, s)
    ensures Ahead(Stored(After(map[], before + Times(mine, s)), mine.model, mine.group), i, Total(mine.group) - s, Total(mine.group))
  {
    hide Firsts, After, Ahead, Stored, Total, DistinctNames, Selected;
    if s == 0 {
      assert before + Times(mine, 0) == before;
    } else {
      AheadWinsAll(before, mine, i, s - 1);
      TimesSnoc(mine, s);
      var run := before + Times(mine, s - 1);
      assert before + Times(mine, s) == run + [mine];
      RunSnoc(map[], run, mine, mine);
      AheadWins(After(map[], run), mine.model, mine.group, i, Total(mine.group) - (s - 1));
      assert Wall(i, s) == Wall(i, s - 1) + [i];
    }
  }

  // ---- Fair whatever the other tier's weights ----

  function Reweighted(group: seq<Channel>, ws: seq<int>): (r: seq<Channel>)
    requires |ws| == |group|
    ensures |r| == |group|
    ensures forall i :: 0 <= i < |group| ==> r[i] == group[i].(weight := ws[i])
  {
    seq(|group|, i requires 0 <= i < |group| => group[i].(weight := ws[i]))
  }

  predicate RunOf(calls: seq<Call>, mine: Call, other: Call) {
    forall i :: 0 <= i < |calls| ==> calls[i] == mine || calls[i] == other
  }

  /** The window of W selections of `mine` from its number `s`, if the run has it, gives channel `i` its weight. */
  predicate FairFrom(calls: seq<Call>, mine: Call, s: nat, i: nat)
    requires i < |mine.group|
  {
    var heads := Heads(map[], calls, mine);
    s + Total(mine.group) <= |heads| ==> Count(heads[s..s + Total(mine.group)], mine.group[i]) == Weight(mine.group[i])
  }

  /** With the weights `ws` on the other tier, a run of the two from the start is fair to every channel of `mine`. */
  ghost predicate FairBeside(mine: Call, other: Call, ws: seq<int>, calls: seq<Call>)
    requires |ws| == |other.group|
  {
    RunOf(calls, mine, Call(other.model, Reweighted(other.group, ws))) ==>
      forall i: nat, s: nat :: i < |mine.group| ==> FairFrom(calls, mine, s, i)
  }

  lemma ReweightedShares(mine: Call, other: Call, ws: seq<int>)
    requires |ws| == |other.group|
    ensures NothingShared(mine, Call(other.model, Reweighted(other.group, ws))) <==> NothingShared(mine, other)
  {
    hide SharesKey;
    assert forall j :: 0 <= j < |other.group| ==> Reweighted(other.group, ws)[j].name == other.group[j].name;
  }

  lemma NothingSharedIsFair(mine: Call, other: Call, ws: seq<int>, calls: seq<Call>)
    requires mine.group != [] && DistinctNames(mine.group) && |ws| == |other.group| && NothingShared(mine, other)
    ensures FairBeside(mine, other, ws, calls)
  {
    hide NothingShared, Apart, Heads, Count, Total, DistinctNames;
    var beside := Call(other.model, Reweighted(other.group, ws));
    ReweightedShares(mine, other, ws);
    if RunOf(calls, mine, beside) {
      ApartIff(calls, mine);
      NothingIsStored(mine);
      forall i: nat, s: nat | i < |mine.group| ensures FairFrom(calls, mine, s, i) {
        if s + Total(mine.group) <= |Heads(map[], calls, mine)| {
          FairInAnyWindow(map[], calls, mine, s, i);
        }
      }
    }
  }

  lemma NothingIsStored(mine: Call)
    ensures Stored(map[], mine.model, mine.group) == Zeros(|mine.group|)
  {
  }

  /** How often the other tier has to be selected for its channel to pull ahead. */
  function Enough(mine: Call): nat { 2 * (Total(mine.group) * Total(mine.group)) }

  /** Weights of `n` channels: 2 for `x`, 1 for the others, but `heavy` for `d`. */
  function Biased(n: nat, x: nat, d: nat, heavy: int): (ws: seq<int>)
    ensures |ws| == n
    ensures forall y :: 0 <= y < n ==> ws[y] == if y == d then heavy else if y == x then 2 else 1
  {
    seq(n, y => if y == d then heavy else if y == x then 2 else 1)
  }

  /** After enough selections of the biased tier, the channel sharing the key of its channel `x` is far ahead. */
  lemma BiasPutsAhead(mine: Call, i: nat, other: Call, x: nat, d: nat)
    requires |mine.group| >= 2 && DistinctNames(mine.group) && DistinctNames(other.group)
    requires i < |mine.group| && x < |other.group| && d < |other.group| && x != d
    requires Key(mine.model, mine.group[i].name) == Key(other.model, other.group[x].name)
    requires Heavy(Weights(other.group), d, Enough(mine)) && Weights(other.group)[x] == 2
    requires forall y :: 0 <= y < |other.group| && y != d && y != x ==> Weights(other.group)[y] == 1
    ensures Ahead(Stored(After(map[], Times(other, Enough(mine))), mine.model, mine.group), i, Total(mine.group), Total(mine.group))
  {
    hide State, Weights, Key, After, Times, Total, Heavy, DistinctNames, Enough;
    var m := Enough(mine);
    var table := After(map[], Times(other, m));
    OnlyOneTier(other, m);
    HeavyLeaves(Weights(other.group), d, m);
    var at := State(Weights(other.group), m);
    assert Stored(table, other.model, other.group)[x] == at[x] == m * 2;
    forall j | 0 <= j < |mine.group| && j != i ensures Stored(table, mine.model, mine.group)[j] <= m {
      var key := Key(mine.model, mine.group[j].name);
      if KeyOf(key, other.model, other.group) {
        var y :| 0 <= y < |other.group| && key == Key(other.model, other.group[y].name);
        DistinctKeys(mine, i, j);
        assert y != x;
        assert Stored(table, other.model, other.group)[y] == at[y] <= m * 1;
      }
    }
    EnoughIsEnough(mine);
  }

  lemma DistinctKeys(mine: Call, i: nat, j: nat)
    requires DistinctNames(mine.group) && i < |mine.group| && j < |mine.group| && i != j
    ensures Key(mine.model, mine.group[i].name) != Key(mine.model, mine.group[j].name)
  {
    KeysDiffer(mine.model, mine.group[i].name, mine.group[j].name);
  }

  lemma EnoughIsEnough(mine: Call)
    ensures Enough(mine) == 2 * (Total(mine.group) * Total(mine.group)) && Enough(mine) >= Total(mine.group) * Total(mine.group) >= 0
  {
  }

  /** Whatever two keys the tiers share, some weights of the other tier and some run let one channel win a whole window. */
  lemma SharingCanBeUnfair(mine: Call, other: Call) returns (ws: seq<int>, calls: seq<Call>)
    requires |mine.group| >= 2 && DistinctNames(mine.group) && |other.group| >= 2 && DistinctNames(other.group)
    requires !NothingShared(mine, other)
    ensures |ws| == |other.group| && !FairBeside(mine, other, ws, calls)
  {
    hide SharesKey, Total, Enough, FairFrom, Biased, DistinctNames, Key;
    var i: nat, x: nat :| i < |mine.group| && x < |other.group|
      && SharesKey(mine.model, mine.group[i].name, other.model, other.group[x].name);
    KeysEqualIff(mine.model, mine.group[i].name, other.model, other.group[x].name);
    var d := if x == 0 then 1 else 0;
    ws := Biased(|other.group|, x, d, Enough(mine) * (2 * |other.group| + 2) + Total(mine.group));
    var beside := Call(other.model, Reweighted(other.group, ws));
    WeightsOfReweighted(other.group, ws);
    calls := UnfairRun(mine, i, beside, x, d);
  }

  /** The run: the biased tier is selected until its channel `x` is far ahead, then `mine` for one window. */
  lemma UnfairRun(mine: Call, i: nat, beside: Call, x: nat, d: nat) returns (calls: seq<Call>)
    requires |mine.group| >= 2 && DistinctNames(mine.group) && DistinctNames(beside.group)
    requires i < |mine.group| && x < |beside.group| && d < |beside.group| && x != d
    requires Key(mine.model, mine.group[i].name) == Key(beside.model, beside.group[x].name)
    requires Weights(beside.group)
          == Biased(|beside.group|, x, d, Enough(mine) * (2 * |beside.group| + 2) + Total(mine.group))
    ensures RunOf(calls, mine, beside) && !FairFrom(calls, mine, 0, i)
  {
    hide Firsts, Heavy, Ahead, Stored, After, Total, FairFrom, Enough, DistinctNames, Key;
    var m, total := Enough(mine), Total(mine.group);
    BiasedIsHeavy(Weights(beside.group), x, d, m, total);
    HeavyIsElsewhere(mine, beside, d);
    BiasPutsAhead(mine, i, beside, x, d);
    NoneOfMine(mine, beside, m);
    AheadWinsAll(Times(beside, m), mine, i, total);
    calls := Times(beside, m) + Times(mine, total);
    WallIsUnfair(calls, mine, i);
  }

  lemma WeightsOfReweighted(group: seq<Channel>, ws: seq<int>)
    requires |ws| == |group| && forall i :: 0 <= i < |ws| ==> ws[i] >= 1
    ensures Weights(Reweighted(group, ws)) == ws
    ensures DistinctNames(group) ==> DistinctNames(Reweighted(group, ws))
  {
  }

  lemma BiasedIsHeavy(ws: seq<int>, x: nat, d: nat, m: nat, total: int)
    requires d < |ws| && x != d && total >= 1
    requires ws == Biased(|ws|, x, d, m * (2 * |ws| + 2) + total)
    ensures Heavy(ws, d, m) && ws[d] >= total
  {
    assert m * (2 * |ws| + 2) >= 0;
  }

  lemma HeavyIsElsewhere(mine: Call, beside: Call, d: nat)
    requires |mine.group| >= 2 && d < |beside.group| && Weights(beside.group)[d] >= Total(mine.group)
    ensures mine != beside
  {
    WeightsAreUnderTotal(mine.group);
  }

  lemma WallIsUnfair(calls: seq<Call>, mine: Call, i: nat)
    requires |mine.group| >= 2 && i < |mine.group| && DistinctNames(mine.group)
    requires Firsts(map[], calls, mine) == Wall(i, Total(mine.group))
    ensures !FairFrom(calls, mine, 0, i)
  {
    hide Firsts, Heads, Count, Total, DistinctNames;
    var total := Total(mine.group);
    var heads := Heads(map[], calls, mine);
    CountWall(i, total);
    WeightsAreUnderTotal(mine.group);
    assert Weights(mine.group)[i] == Weight(mine.group[i]);
    HeadsArePicked(map[], calls, mine);
    CountHeads(heads, Wall(i, total), mine.group, i);
    assert heads[0..0 + total] == heads;
  }

  /**
   * A tier stays fair in every window of every run beside another tier, whatever weights that one has,
   * exactly when the two share no key. Both have at least two channels, of distinct names.
   */
  lemma FairBesideIff(mine: Call, other: Call)
    requires |mine.group| >= 2 && DistinctNames(mine.group) && |other.group| >= 2 && DistinctNames(other.group)
    ensures NothingShared(mine, other) <==>
              forall ws: seq<int>, calls: seq<Call> :: |ws| == |other.group| ==> FairBeside(mine, other, ws, calls)
  {
    hide NothingShared, FairBeside, DistinctNames;
    if NothingShared(mine, other) {
      forall ws: seq<int>, calls: seq<Call> | |ws| == |other.group| ensures FairBeside(mine, other, ws, calls) {
        NothingSharedIsFair(mine, other, ws, calls);
      }
    } else {
      var ws, calls := SharingCanBeUnfair(mine, other);
      assert !FairBeside(mine, other, ws, calls);
    }
  }
}
