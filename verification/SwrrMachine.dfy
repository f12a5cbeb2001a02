/**
 * Smooth weighted round-robin over whole runs.
 *
 * `Step` is an independent account of one selection on the running weights of a single tier:
 * add every weight, take the first maximum, subtract the total. `SwrrFairness.SelectIsStep` ties
 * the stored weights of `LoadBalancer` to it.
 */
module SwrrMachine {
  // ---- Sequences of numbers ----

  function Sum(s: seq<int>): int {
    if s == [] then 0 else Sum(s[..|s| - 1]) + s[|s| - 1]
  }

  function Add(a: seq<int>, b: seq<int>): (r: seq<int>)
    requires |a| == |b|
    ensures |r| == |a|
    ensures forall i {:trigger r[i]} :: 0 <= i < |a| ==> r[i] == a[i] + b[i]
  {
    seq(|a|, i requires 0 <= i < |a| => a[i] + b[i])
  }

  function Zeros(n: nat): seq<int> { seq(n, _ => 0) }

  predicate Positive(w: seq<int>) {
    w != [] && forall i :: 0 <= i < |w| ==> w[i] >= 1
  }

  lemma {:induction false} SumOfAdd(a: seq<int>, b: seq<int>)
    requires |a| == |b|
    ensures Sum(Add(a, b)) == Sum(a) + Sum(b)
  {
    if a != [] {
      var n := |a| - 1;
      assert Add(a, b)[..n] == Add(a[..n], b[..n]);
      SumOfAdd(a[..n], b[..n]);
    }
  }

  lemma {:induction false} SumOfUpdate(s: seq<int>, i: nat, v: int)
    requires i < |s|
    ensures Sum(s[i := v]) == Sum(s) - s[i] + v
  {
    var n := |s| - 1;
    if i == n {
      assert s[i := v][..n] == s[..n];
    } else {
      assert s[i := v][..n] == s[..n][i := v];
      SumOfUpdate(s[..n], i, v);
    }
  }

  lemma {:induction false} SumOfZeros(n: nat)
    ensures Sum(Zeros(n)) == 0
  {
    if n > 0 {
      assert Zeros(n)[..n - 1] == Zeros(n - 1);
      SumOfZeros(n - 1);
    }
  }

  /** A sequence bounded above by `m` everywhere sums to at most `m` times its length. */
  lemma {:induction false} SumUpperBound(s: seq<int>, m: int)
    requires forall i :: 0 <= i < |s| ==> s[i] <= m
    ensures Sum(s) <= m * |s|
  {
    if s != [] {
      SumUpperBound(s[..|s| - 1], m);
    }
  }

  lemma {:induction false} SumLowerBound(s: seq<int>)
    requires forall i :: 0 <= i < |s| ==> s[i] >= 0
    ensures Sum(s) >= 0
    ensures Sum(s) == 0 ==> s == Zeros(|s|)
    ensures forall i :: 0 <= i < |s| ==> s[i] <= Sum(s)
  {
    if s != [] {
      var n := |s| - 1;
      SumLowerBound(s[..n]);
      assert s == s[..n] + [s[n]];
      assert Zeros(|s|) == Zeros(n) + [0];
    }
  }

  // ---- One tier as an abstract machine ----

  predicate IsFirstMax(c: seq<int>, i: int) {
    && 0 <= i < |c|
    && (forall j :: 0 <= j < |c| ==> c[j] <= c[i])
    && (forall j :: 0 <= j < i ==> c[j] < c[i])
  }

  function FirstMax(c: seq<int>): (i: nat)
    requires c != []
    ensures i < |c| && IsFirstMax(c, i)
  {
    var n := |c| - 1;
    if n == 0 then 0
    else
      var i := FirstMax(c[..n]);
      if c[n] > c[i] then n else i
  }

  function Step(c: seq<int>, w: seq<int>): (r: seq<int>)
    requires |c| == |w| && w != []
    ensures |r| == |w|
  {
    var raised := Add(c, w);
    var i := FirstMax(raised);
    raised[i := raised[i] - Sum(w)]
  }

  /** The running weights after `k` selections from zero. */
  function State(w: seq<int>, k: nat): (c: seq<int>)
    requires w != []
    ensures |c| == |w|
  {
    if k == 0 then Zeros(|w|) else Step(State(w, k - 1), w)
  }

  /** The channel the selection number `k` (from 0) puts first. */
  function Pick(w: seq<int>, k: nat): (i: nat)
    requires w != []
    ensures i < |w|
  {
    FirstMax(Add(State(w, k), w))
  }

  /** How many of the first `k` selections put channel `i` first. */
  function Wins(w: seq<int>, k: nat, i: nat): nat
    requires w != []
  {
    if k == 0 then 0 else Wins(w, k - 1, i) + if Pick(w, k - 1) == i then 1 else 0
  }

  lemma StepKeepsSum(c: seq<int>, w: seq<int>)
    requires |c| == |w| && w != []
    ensures Sum(Step(c, w)) == Sum(c)
  {
    hide Sum, IsFirstMax, FirstMax, Add;
    var raised := Add(c, w);
    var i := FirstMax(raised);
    assert Sum(raised) == Sum(c) + Sum(w) by { SumOfAdd(c, w); }
    var v := raised[i] - Sum(w);
    assert Sum(raised[i := v]) == Sum(raised) - raised[i] + v by { SumOfUpdate(raised, i, v); }
  }

  lemma {:induction false} Balanced(w: seq<int>, k: nat)
    requires w != []
    ensures Sum(State(w, k)) == 0
  {
    hide Step, Sum;
    if k == 0 {
      SumOfZeros(|w|);
    } else {
      Balanced(w, k - 1);
      StepKeepsSum(State(w, k - 1), w);
    }
  }

  /** The raised weight of the winner is at least 1, since the raised weights sum to W > 0. */
  lemma WinnerIsPositive(w: seq<int>, k: nat)
    requires Positive(w)
    ensures Add(State(w, k), w)[Pick(w, k)] >= 1
  {
    var raised := Add(State(w, k), w);
    Balanced(w, k);
    SumOfAdd(State(w, k), w);
    SumLowerBound(w);
    assert w[0] <= Sum(w);
    if raised[Pick(w, k)] <= 0 {
      SumUpperBound(raised, 0);
    }
  }

  lemma StepAt(c: seq<int>, w: seq<int>, i: nat)
    requires |c| == |w| && i < |w|
    ensures Step(c, w)[i] == c[i] + w[i] - if FirstMax(Add(c, w)) == i then Sum(w) else 0
  {
  }

  lemma SumIsPositive(w: seq<int>)
    requires Positive(w)
    ensures Sum(w) >= 1
  {
    SumLowerBound(w);
    assert w[0] <= Sum(w);
  }

  lemma {:induction false} LagBound(w: seq<int>, k: nat, i: nat)
    requires Positive(w) && i < |w|
    ensures State(w, k)[i] > -Sum(w)
  {
    hide Step, Sum, Add, FirstMax, IsFirstMax;
    if k == 0 {
      SumIsPositive(w);
    } else {
      LagBound(w, k - 1, i);
      WinnerIsPositive(w, k - 1);
      StepAt(State(w, k - 1), w, i);
      assert Add(State(w, k - 1), w)[i] == State(w, k - 1)[i] + w[i];
    }
  }

  lemma AccountStep(W: int, share: int, k: int, before: int, wins: int, hit: int)
    requires before == (k - 1) * share - W * wins
    ensures before + share - W * hit == k * share - W * (wins + hit)
  {
  }

  lemma {:induction false} Accounting(w: seq<int>, k: nat, i: nat)
    requires Positive(w) && i < |w|
    ensures State(w, k)[i] == k * w[i] - Sum(w) * Wins(w, k, i)
  {
    hide Step, Sum, Add, FirstMax, IsFirstMax;
    if k > 0 {
      Accounting(w, k - 1, i);
      var hit := if Pick(w, k - 1) == i then 1 else 0;
      StepAt(State(w, k - 1), w, i);
      AccountStep(Sum(w), w[i], k, State(w, k - 1)[i], Wins(w, k - 1, i), hit);
    }
  }

  /** No channel runs ahead of its share by more than one full turn, after any number of selections. */
  lemma PrefixShare(w: seq<int>, k: nat, i: nat)
    requires Positive(w) && i < |w|
    ensures Wins(w, k, i) * Sum(w) < k * w[i] + Sum(w)
  {
    LagBound(w, k, i);
    Accounting(w, k, i);
  }

  lemma MulAtMost(a: int, d: int)
    requires a >= 1 && d <= -1
    ensures a * d <= -a
  {
    assert a * (d + 1) <= 0;
    assert a * d == a * (d + 1) - a;
  }

  lemma AtTurnNotBehind(W: int, share: int, wins: int, lag: int)
    requires lag == W * share - W * wins && lag > -W && W >= 1
    ensures lag >= 0
  {
    var d := share - wins;
    assert lag == W * d;
    if d <= -1 {
      MulAtMost(W, d);
    }
  }

  /** After W selections every running weight is back at zero. */
  lemma CycleCloses(w: seq<int>)
    requires Positive(w)
    ensures Sum(w) >= 1 && State(w, Sum(w)) == Zeros(|w|)
  {
    SumIsPositive(w);
    var W := Sum(w);
    var c := State(w, W);
    Balanced(w, W);
    forall i | 0 <= i < |w|
      ensures c[i] >= 0
    {
      LagBound(w, W, i);
      Accounting(w, W, i);
      AtTurnNotBehind(W, w[i], Wins(w, W, i), c[i]);
    }
    SumLowerBound(c);
  }

  lemma {:induction false} Periodic(w: seq<int>, k: nat)
    requires Positive(w)
    ensures Sum(w) >= 1 && State(w, k + Sum(w)) == State(w, k)
  {
    hide Step, Sum;
    if k == 0 {
      CycleCloses(w);
    } else {
      Periodic(w, k - 1);
    }
  }

  lemma GainedExactly(W: int, share: int, s: int, before: int, after: int)
    requires W >= 1 && s * share - W * before == (s + W) * share - W * after
    ensures after == before + share
  {
    var d := after - before - share;
    assert (s + W) * share == s * share + W * share;
    assert W * d == W * after - W * before - W * share;
    assert W * -d == -(W * d);
    if d <= -1 {
      MulAtMost(W, d);
    } else if -d <= -1 {
      MulAtMost(W, -d);
    }
  }

  /** Any W consecutive selections, aligned or not, put channel `i` first exactly w[i] times. */
  lemma WindowIsFair(w: seq<int>, s: nat, i: nat)
    requires Positive(w) && i < |w|
    ensures Sum(w) >= 1 && Wins(w, s + Sum(w), i) == Wins(w, s, i) + w[i]
  {
    hide Wins, State, Positive;
    Periodic(w, s);
    Accounting(w, s, i);
    Accounting(w, s + Sum(w), i);
    GainedExactly(Sum(w), w[i], s, Wins(w, s, i), Wins(w, s + Sum(w), i));
  }
}
