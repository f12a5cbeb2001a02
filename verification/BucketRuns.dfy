/** The bucket admits exactly what its rate allows over every stretch of time. */
module BucketRuns {
  import opened TokenBuckets

  /** The bucket after the calls at `times`. */
  function After(b: Bucket, times: seq<real>): Bucket {
    if times == [] then b else Asked(After(b, times[..|times| - 1]), times[|times| - 1])
  }

  predicate Granted(b: Bucket, times: seq<real>, i: nat)
    requires i < |times|
  {
    Grants(After(b, times[..i]), times[i])
  }

  /** How many of the calls from the `i`-th on are granted. */
  function CountFrom(b: Bucket, times: seq<real>, i: nat): nat
    requires i <= |times|
  {
    if i == |times| then 0
    else CountFrom(b, times[..|times| - 1], i) + if Grants(After(b, times[..|times| - 1]), times[|times| - 1]) then 1 else 0
  }

  /** What the bucket can hold when the calls from the `i`-th on are paid out of a full one. */
  function Budget(b: Bucket, times: seq<real>, i: nat, now: real): real
    requires i < |times|
  {
    b.capacity + Gain(b.rate, times[i], now) - CountFrom(b, times, i) as real
  }

  lemma GainAdds(rate: real, a: real, b: real, c: real)
    ensures Gain(rate, a, c) == Gain(rate, a, b) + Gain(rate, b, c)
    ensures Gain(rate, a, a) == 0.0
  {
  }

  lemma GainGrows(rate: real, a: real, b: real)
    requires rate >= 0.0 && a <= b
    ensures Gain(rate, a, b) >= 0.0
  {
  }

  lemma {:induction false} Fixed(b: Bucket, times: seq<real>)
    ensures After(b, times).capacity == b.capacity && After(b, times).rate == b.rate
    ensures After(b, times).last == if times == [] then b.last else times[|times| - 1]
  {
    if times != [] {
      Fixed(b, times[..|times| - 1]);
    }
  }

  /** A full bucket's level is the least budget over all starting points, a full bucket included. */
  lemma {:induction false} LevelIsLeastBudget(b: Bucket, times: seq<real>, now: real) returns (start: nat)
    requires b.tokens == b.capacity && b.rate >= 0.0 && b.last <= (if times == [] then now else times[0])
    requires times != [] ==> times[|times| - 1] <= now
    requires forall i, j :: 0 <= i < j < |times| ==> times[i] <= times[j]
    ensures Refilled(After(b, times), now) <= b.capacity
    ensures forall i :: 0 <= i < |times| ==> Refilled(After(b, times), now) <= Budget(b, times, i, now)
    ensures start <= |times|
    ensures Refilled(After(b, times), now) == if start == |times| then b.capacity else Budget(b, times, start, now)
  {
    hide Gain, CountFrom;
    if times == [] {
      GainGrows(b.rate, b.last, now);
      start := 0;
    } else {
      var front, last := times[..|times| - 1], times[|times| - 1];
      var start0 := LevelIsLeastBudget(b, front, last);
      Fixed(b, front);
      var grown := Asked(After(b, front), last).tokens + Gain(b.rate, last, now);
      forall i | 0 <= i <= |front|
        ensures (if i == |front| then b.capacity else Budget(b, front, i, last)) - Paid(b, front, last) + Gain(b.rate, last, now)
             == Budget(b, times, i, now)
      {
        BudgetStep(b, front, last, i, now);
        assert front + [last] == times;
      }
      if grown > b.capacity {
        start := |times|;
      } else {
        start := start0;
      }
    }
  }

  function Paid(b: Bucket, front: seq<real>, last: real): real {
    if Grants(After(b, front), last) then 1.0 else 0.0
  }

  /** One more call, and time passing, act on every budget alike; the newest starts from a full bucket. */
  lemma BudgetStep(b: Bucket, front: seq<real>, last: real, i: nat, now: real)
    requires i <= |front|
    ensures Budget(b, front + [last], i, now)
         == (if i == |front| then b.capacity else Budget(b, front, i, last)) - Paid(b, front, last) + Gain(b.rate, last, now)
  {
    hide After, Grants, Gain;
    var times := front + [last];
    assert times[..|times| - 1] == front;
    assert CountFrom(b, front, |front|) == 0;
    GainAdds(b.rate, times[i], last, now);
  }

  /** A run of a bucket from the moment it was made, on a clock that never goes back. */
  predicate Clocked(b: Bucket, times: seq<real>) {
    && b.tokens == b.capacity && b.rate >= 0.0
    && (times != [] ==> b.last <= times[0])
    && forall i, j :: 0 <= i < j < |times| ==> times[i] <= times[j]
  }

  /** How many granted calls have `s <= time <= t`. */
  function CountIn(b: Bucket, times: seq<real>, s: real, t: real): nat {
    if times == [] then 0
    else
      var front, last := times[..|times| - 1], times[|times| - 1];
      CountIn(b, front, s, t) + if s <= last <= t && Grants(After(b, front), last) then 1 else 0
  }

  lemma ClockedFront(b: Bucket, times: seq<real>, now: real)
    requires Clocked(b, times + [now])
    ensures Clocked(b, times) && b.tokens == b.capacity && b.rate >= 0.0
    ensures b.last <= (if times == [] then now else times[0]) && (times != [] ==> times[|times| - 1] <= now)
    ensures forall i, j :: 0 <= i < j < |times| ==> times[i] <= times[j]
  {
    var all := times + [now];
    assert forall i :: 0 <= i < |times| ==> all[i] == times[i];
    assert all[|times|] == now && all[0] == (if times == [] then now else times[0]);
  }

  /**
   * A call is granted exactly when, from every earlier call on, one more grant still fits into a
   * full bucket and what has flowed in since.
   */
  lemma GrantedIffWithinEveryBudget(b: Bucket, times: seq<real>, now: real)
    requires Clocked(b, times + [now])
    ensures Grants(After(b, times), now) <==>
              && b.capacity >= 1.0
              && forall i :: 0 <= i < |times| ==> Budget(b, times, i, now) >= 1.0
  {
    hide Gain, CountFrom, After, Refilled, Clocked, Budget;
    ClockedFront(b, times, now);
    var start := LevelIsLeastBudget(b, times, now);
  }

  lemma {:induction false} CountsAgree(b: Bucket, times: seq<real>, i: nat, s: real, t: real)
    requires i <= |times| && forall j :: 0 <= j < |times| ==> times[j] <= t && (s <= times[j] <==> i <= j)
    ensures CountIn(b, times, s, t) == CountFrom(b, times, i)
  {
    if times != [] {
      hide Grants, After;
      var front := times[..|times| - 1];
      if i == |times| {
        CountsAgree(b, front, i - 1, s, t);
      } else {
        CountsAgree(b, front, i, s, t);
      }
    }
  }

  lemma {:induction false} FirstSince(times: seq<real>, s: real) returns (i: nat)
    requires forall i, j :: 0 <= i < j < |times| ==> times[i] <= times[j]
    ensures i <= |times| && forall j :: 0 <= j < |times| ==> (s <= times[j] <==> i <= j)
  {
    if times == [] || times[|times| - 1] < s {
      i := |times|;
    } else {
      i := FirstSince(times[..|times| - 1], s);
    }
  }

  /** Over any stretch [s, t] of any run, at most a full bucket and what flows in during it is granted. */
  lemma {:induction false} NoStretchExceedsTheRate(b: Bucket, times: seq<real>, s: real, t: real)
    requires Clocked(b, times) && b.capacity >= 0.0 && s <= t
    ensures CountIn(b, times, s, t) as real <= b.capacity + Gain(b.rate, s, t)
  {
    hide Gain, Grants, After, CountFrom;
    if times == [] {
      GainGrows(b.rate, s, t);
    } else {
      var front, last := times[..|times| - 1], times[|times| - 1];
      assert front + [last] == times;
      NoStretchExceedsTheRate(b, front, s, t);
      if s <= last <= t && Grants(After(b, front), last) {
        GrantedIffWithinEveryBudget(b, front, last);
        var i := FirstSince(front, s);
        CountsAgree(b, front, i, s, t);
        if i == |front| {
          assert CountFrom(b, front, i) == 0 by { NothingFromEnd(b, front); }
          GainGrows(b.rate, s, t);
        } else {
          assert Budget(b, front, i, last) >= 1.0;
          GainAdds(b.rate, s, times[i], t);
          GainAdds(b.rate, times[i], last, t);
          GainGrows(b.rate, s, times[i]);
          GainGrows(b.rate, last, t);
        }
      }
    }
  }

  lemma NothingFromEnd(b: Bucket, times: seq<real>)
    ensures CountFrom(b, times, |times|) == 0
  {
  }

  /** A caller that leaves a token's worth of time between calls is never refused. */
  lemma {:induction false} SpacedCallsAreGranted(b: Bucket, times: seq<real>)
    requires Clocked(b, times) && b.capacity >= 1.0
    requires forall i :: 0 < i < |times| ==> Gain(b.rate, times[i - 1], times[i]) >= 1.0
    ensures forall i :: 0 <= i < |times| ==> Granted(b, times, i)
    ensures times != [] ==> After(b, times).tokens >= b.capacity - 1.0
  {
    if times != [] {
      hide Gain;
      var front, last := times[..|times| - 1], times[|times| - 1];
      SpacedCallsAreGranted(b, front);
      Fixed(b, front);
      GainGrows(b.rate, if front == [] then b.last else front[|front| - 1], last);
      assert front != [] ==> front[|front| - 1] == times[|times| - 2];
      assert Refilled(After(b, front), last) == b.capacity;
      forall i | 0 <= i < |times| ensures Granted(b, times, i) {
        if i < |front| {
          assert times[..i] == front[..i];
          assert Granted(b, front, i);
        }
      }
    }
  }

  /** So a key's bucket grants, in any stretch of whole minutes, at most its limit for each of them and once more. */
  lemma AtMostTheLimitPerMinute(rpm: nat, made: real, times: seq<real>, s: real, minutes: nat)
    requires Clocked(NewBucket(rpm, made), times)
    ensures CountIn(NewBucket(rpm, made), times, s, s + 60.0 * minutes as real) <= rpm * (minutes + 1)
    ensures rpm > 0 && times != [] ==> Granted(NewBucket(rpm, made), times, 0)
  {
    hide CountIn, Clocked, Gain, Granted;
    NewBucketIsFull(rpm, made);
    NoStretchExceedsTheRate(NewBucket(rpm, made), times, s, s + 60.0 * minutes as real);
    MinutesOfRate(rpm, made, s, minutes);
    if rpm > 0 && times != [] {
      FirstIsGranted(rpm, made, times);
    }
  }

  lemma NewBucketIsFull(rpm: nat, made: real)
    ensures NewBucket(rpm, made).capacity == NewBucket(rpm, made).tokens == rpm as real >= 0.0
  {
  }

  lemma MinutesOfRate(rpm: nat, made: real, s: real, minutes: nat)
    ensures rpm as real + Gain(NewBucket(rpm, made).rate, s, s + 60.0 * minutes as real) == (rpm * (minutes + 1)) as real
  {
    var r, m := rpm as real, minutes as real;
    assert (60.0 * m) * (r / 60.0) == m * r;
    assert (rpm * (minutes + 1)) as real == r * m + r;
  }

  lemma FirstIsGranted(rpm: nat, made: real, times: seq<real>)
    requires rpm > 0 && times != [] && Clocked(NewBucket(rpm, made), times)
    ensures Granted(NewBucket(rpm, made), times, 0)
  {
    assert times[..0] == [];
    GainGrows(NewBucket(rpm, made).rate, made, times[0]);
    hide Gain;
  }
}
