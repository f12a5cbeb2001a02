/** The script keeps a plain rule: admit while fewer than the limit were admitted in the last minute. */
module WindowRuns {
  import opened SlidingWindow

  datatype Call = Call(limit: int, now: int)

  /** Times do not run backwards. */
  predicate Clocked(calls: seq<Call>) {
    && (forall i :: 0 <= i < |calls| ==> 0 <= calls[i].now)
    && forall i, j :: 0 <= i < j < |calls| ==> calls[i].now <= calls[j].now
  }

  function After(calls: seq<Call>): Keys {
    if calls == [] then NO_KEYS
    else Asked(After(calls[..|calls| - 1]), calls[|calls| - 1].limit, calls[|calls| - 1].now)
  }

  function Noted(times: seq<int>, admitted: bool, now: int): seq<int> {
    times + if admitted then [now] else []
  }

  /** The times of the admitted calls. */
  function Admitted(calls: seq<Call>): seq<int> {
    if calls == [] then []
    else
      var before, last := calls[..|calls| - 1], calls[|calls| - 1];
      Noted(Admitted(before), Admits(After(before), last.limit, last.now), last.now)
  }

  /** How many of `times` lie in (low, high]. */
  function Count(times: seq<int>, low: int, high: int): nat {
    if times == [] then 0
    else Count(times[..|times| - 1], low, high) + if low < times[|times| - 1] <= high then 1 else 0
  }

  /** `ids` are the members given to the calls admitted at `times`, none of them after `now`. */
  predicate Timed(times: seq<int>, ids: seq<(int, nat)>, now: int) {
    && |ids| == |times|
    && (forall i :: 0 <= i < |ids| ==> ids[i].0 == times[i] && 0 <= times[i] <= now)
    && (forall i, j :: 0 <= i < j < |times| ==> times[i] <= times[j])
  }

  /** From the `k`-th on they are the stored ones. */
  ghost predicate Stored(members: map<(int, nat), int>, ids: seq<(int, nat)>, k: nat) {
    && k <= |ids|
    && (forall i :: k <= i < |ids| ==> ids[i] in members)
    && (forall m :: m in members ==> members[m] == m.0 && exists i :: k <= i < |ids| && ids[i] == m)
  }

  /** The stored ones have growing serials. */
  predicate Serial(ids: seq<(int, nat)>, k: nat, serial: nat) {
    && (forall i, j :: k <= i < j < |ids| ==> ids[i].1 < ids[j].1)
    && (forall i :: k <= i < |ids| ==> ids[i].1 <= serial)
  }

  /** The others are out of the window at `now`. */
  predicate Gone(times: seq<int>, k: nat, now: int) {
    k <= |times| && forall i :: 0 <= i < k ==> times[i] <= now - WINDOW
  }

  ghost predicate Tracks(keys: Keys, times: seq<int>, ids: seq<(int, nat)>, k: nat, now: int) {
    && Timed(times, ids, now) && Gone(times, k, now)
    && Stored(keys.members, ids, k) && Serial(ids, k, keys.serial)
    && (k < |times| ==> keys.expiry == times[|times| - 1] + WINDOW)
  }

  lemma {:induction false} CountSuffix(times: seq<int>, k: nat, low: int, high: int)
    requires k <= |times|
    requires forall i :: 0 <= i < |times| ==> (low < times[i] <= high <==> k <= i)
    ensures Count(times, low, high) == |times| - k
  {
    if times != [] {
      var front := times[..|times| - 1];
      if k == |times| {
        CountSuffix(front, k - 1, low, high);
      } else {
        CountSuffix(front, k, low, high);
      }
    }
  }

  lemma {:induction false} DistinctCard(ids: seq<(int, nat)>, s: set<(int, nat)>)
    requires forall i, j :: 0 <= i < j < |ids| ==> ids[i] != ids[j]
    requires forall m :: m in s <==> m in ids
    ensures |s| == |ids|
  {
    if ids == [] {
      assert s == {};
    } else {
      var last := ids[|ids| - 1];
      assert forall m :: m in s - {last} <==> m in ids[..|ids| - 1];
      DistinctCard(ids[..|ids| - 1], s - {last});
    }
  }

  predicate Recent(times: seq<int>, k: nat, now: int) {
    forall i :: k <= i < |times| ==> now - WINDOW < times[i]
  }

  lemma {:induction false} WindowStart(times: seq<int>, ids: seq<(int, nat)>, k: nat, now: int) returns (r: nat)
    requires Timed(times, ids, now) && Gone(times, k, now)
    ensures k <= r && Gone(times, r, now) && Recent(times, r, now)
    decreases |times| - k
  {
    if k == |times| || now - WINDOW < times[k] {
      r := k;
    } else {
      r := WindowStart(times, ids, k + 1, now);
    }
  }

  lemma UnexpiredTracks(keys: Keys, times: seq<int>, ids: seq<(int, nat)>, k: nat, before: int, now: int) returns (r: nat)
    requires Tracks(keys, times, ids, k, before) && before <= now
    ensures k <= r && Tracks(Unexpired(keys, now), times, ids, r, now)
  {
    r := if now > keys.expiry then |ids| else k;
  }

  lemma ClearedStores(members: map<(int, nat), int>, ids: seq<(int, nat)>, k: nat, r: nat, times: seq<int>, now: int)
    requires Stored(members, ids, k) && Timed(times, ids, now) && k <= r
    requires Gone(times, r, now) && Recent(times, r, now)
    ensures Stored(WithoutScores(members, 0, now - WINDOW), ids, r)
  {
    hide Timed, Gone, Recent;
    var left := WithoutScores(members, 0, now - WINDOW);
    forall i | k <= i < |ids| ensures ids[i] in left <==> r <= i {
      KeptIffRecent(times, ids, r, now, i);
    }
    forall m | m in left ensures left[m] == m.0 && exists i :: r <= i < |ids| && ids[i] == m {
      var i :| k <= i < |ids| && ids[i] == m;
      assert ids[i] in left;
    }
    assert r <= |ids| by { GoneFits(times, ids, r, now); }
  }

  lemma KeptIffRecent(times: seq<int>, ids: seq<(int, nat)>, r: nat, now: int, i: nat)
    requires Timed(times, ids, now) && Gone(times, r, now) && Recent(times, r, now) && i < |ids|
    ensures !(0 <= ids[i].0 <= now - WINDOW) <==> r <= i
  {
  }

  lemma GoneFits(times: seq<int>, ids: seq<(int, nat)>, r: nat, now: int)
    requires Timed(times, ids, now) && Gone(times, r, now)
    ensures r <= |ids|
  {
  }

  lemma FewerKeepSerials(ids: seq<(int, nat)>, k: nat, r: nat, serial: nat)
    requires Serial(ids, k, serial) && k <= r
    ensures Serial(ids, r, serial)
  {
  }

  lemma RecentCount(times: seq<int>, ids: seq<(int, nat)>, r: nat, now: int)
    requires Timed(times, ids, now) && Gone(times, r, now) && Recent(times, r, now)
    ensures Count(times, now - WINDOW, now) == |times| - r
  {
    CountSuffix(times, r, now - WINDOW, now);
  }

  lemma StoredKeys(members: map<(int, nat), int>, ids: seq<(int, nat)>, k: nat)
    requires Stored(members, ids, k)
    ensures forall m :: m in members.Keys <==> m in ids[k..]
  {
    var live := ids[k..];
    forall m ensures m in members.Keys <==> m in live {
      if m in members {
        var i :| k <= i < |ids| && ids[i] == m;
        assert live[i - k] == m;
      }
      if m in live {
        var i :| 0 <= i < |live| && live[i] == m;
        assert ids[k + i] == m;
      }
    }
  }

  lemma SerialIsDistinct(ids: seq<(int, nat)>, k: nat, serial: nat)
    requires Serial(ids, k, serial) && k <= |ids|
    ensures forall i, j :: 0 <= i < j < |ids[k..]| ==> ids[k..][i] != ids[k..][j]
  {
    forall i, j | 0 <= i < j < |ids[k..]| ensures ids[k..][i] != ids[k..][j] {
      assert ids[k + i].1 < ids[k + j].1;
    }
  }

  lemma SerialCard(members: map<(int, nat), int>, ids: seq<(int, nat)>, k: nat, serial: nat)
    requires Stored(members, ids, k) && Serial(ids, k, serial)
    ensures |members| == |ids| - k
  {
    hide Serial;
    StoredKeys(members, ids, k);
    hide Stored;
    SerialIsDistinct(ids, k, serial);
    DistinctCard(ids[k..], members.Keys);
  }

  lemma ClearedTracks(keys: Keys, times: seq<int>, ids: seq<(int, nat)>, k: nat, before: int, now: int) returns (r: nat)
    requires Tracks(keys, times, ids, k, before) && before <= now
    ensures Tracks(Cleared(keys, now), times, ids, r, now)
    ensures |Cleared(keys, now).members| == Count(times, now - WINDOW, now)
  {
    hide WithoutScores, Count, Stored, Serial, Gone, Recent, Unexpired;
    var k' := UnexpiredTracks(keys, times, ids, k, before, now);
    var live := Unexpired(keys, now);
    r := WindowStart(times, ids, k', now);
    ClearedStores(live.members, ids, k', r, times, now);
    FewerKeepSerials(ids, k', r, live.serial);
    SerialCard(Cleared(keys, now).members, ids, r, live.serial);
    RecentCount(times, ids, r, now);
  }

  lemma StoredSnoc(members: map<(int, nat), int>, ids: seq<(int, nat)>, k: nat, id: (int, nat))
    requires Stored(members, ids, k)
    ensures Stored(members[id := id.0], ids + [id], k)
  {
    var more := ids + [id];
    assert more[|ids|] == id;
    var updated := members[id := id.0];
    forall m | m in updated ensures exists i :: k <= i < |more| && more[i] == m {
      if m != id {
        var i :| k <= i < |ids| && ids[i] == m;
        assert more[i] == m;
      }
    }
  }

  lemma SerialSnoc(ids: seq<(int, nat)>, k: nat, serial: nat, now: int)
    requires Serial(ids, k, serial)
    ensures Serial(ids + [(now, serial + 1)], k, serial + 1)
  {
  }

  lemma TimedSnoc(times: seq<int>, ids: seq<(int, nat)>, k: nat, id: (int, nat))
    requires Timed(times, ids, id.0) && 0 <= id.0 && Gone(times, k, id.0)
    ensures Timed(times + [id.0], ids + [id], id.0) && Gone(times + [id.0], k, id.0)
  {
  }

  /** The call's effect on the stored members and on the list of admitted calls. */
  lemma AdmissionTracks(c: Keys, times: seq<int>, ids: seq<(int, nat)>, k: nat, now: int)
    requires Tracks(c, times, ids, k, now) && 0 <= now
    ensures var id := (now, c.serial + 1);
            Tracks(Keys(c.members[id := now], c.serial + 1, now + WINDOW), times + [now], ids + [id], k, now)
  {
    hide Stored, Serial, Timed, Gone;
    StoredSnoc(c.members, ids, k, (now, c.serial + 1));
    SerialSnoc(ids, k, c.serial, now);
    TimedSnoc(times, ids, k, (now, c.serial + 1));
  }

  function Now(calls: seq<Call>): int {
    if calls == [] then 0 else calls[|calls| - 1].now
  }

  lemma ClockedFront(calls: seq<Call>)
    requires Clocked(calls) && calls != []
    ensures Clocked(calls[..|calls| - 1]) && Now(calls[..|calls| - 1]) <= Now(calls) && 0 <= Now(calls)
  {
  }

  lemma CallTracks(keys: Keys, times: seq<int>, ids: seq<(int, nat)>, k: nat, before: int, call: Call)
    returns (ids': seq<(int, nat)>, k': nat)
    requires Tracks(keys, times, ids, k, before) && before <= call.now && 0 <= call.now
    ensures Tracks(Asked(keys, call.limit, call.now), Noted(times, Admits(keys, call.limit, call.now), call.now), ids', k', call.now)
  {
    hide Tracks, Cleared;
    k' := ClearedTracks(keys, times, ids, k, before, call.now);
    var c := Cleared(keys, call.now);
    if Admits(keys, call.limit, call.now) {
      AdmissionTracks(c, times, ids, k', call.now);
      ids' := ids + [(call.now, c.serial + 1)];
    } else {
      assert times + [] == times;
      ids' := ids;
    }
  }

  lemma {:induction false} RunTracks(calls: seq<Call>) returns (ids: seq<(int, nat)>, k: nat)
    requires Clocked(calls)
    ensures Tracks(After(calls), Admitted(calls), ids, k, Now(calls))
  {
    if calls == [] {
      ids, k := [], 0;
    } else {
      hide Tracks, Asked, Clocked, Noted, Admits;
      var front, last := calls[..|calls| - 1], calls[|calls| - 1];
      ClockedFront(calls);
      var ids0, k0 := RunTracks(front);
      ids, k := CallTracks(After(front), Admitted(front), ids0, k0, Now(front), last);
    }
  }

  /**
   * After any run the script admits a call exactly when fewer calls than its limit were admitted in
   * the 60 seconds up to it: expired keys, cleared members and serials never change the answer.
   */
  lemma ScriptCountsTheLastMinute(calls: seq<Call>, limit: int, now: int)
    requires Clocked(calls + [Call(limit, now)])
    ensures Admits(After(calls), limit, now) <==> Count(Admitted(calls), now - 60_000, now) < limit
  {
    hide Tracks, Cleared, Clocked, Count;
    var all := calls + [Call(limit, now)];
    assert all[..|all| - 1] == calls;
    ClockedFront(all);
    var ids, k := RunTracks(calls);
    var r := ClearedTracks(After(calls), Admitted(calls), ids, k, Now(calls), now);
  }

  // ---- The bound over whole runs ----

  lemma {:induction false} AdmittedAreCalls(calls: seq<Call>)
    requires Clocked(calls)
    ensures forall i :: 0 <= i < |Admitted(calls)| ==> Admitted(calls)[i] <= Now(calls)
  {
    if calls != [] {
      hide Admits, After;
      AdmittedAreCalls(calls[..|calls| - 1]);
    }
  }

  /** A window moved later, past the last time, counts no more. */
  lemma {:induction false} CountShrinks(times: seq<int>, low: int, low': int, high: int, high': int)
    requires low <= low' && forall i :: 0 <= i < |times| ==> times[i] <= high
    ensures Count(times, low', high') <= Count(times, low, high)
  {
    if times != [] {
      CountShrinks(times[..|times| - 1], low, low', high, high');
    }
  }

  lemma CountSnoc(times: seq<int>, time: int, low: int, high: int)
    ensures Count(times + [time], low, high) == Count(times, low, high) + if low < time <= high then 1 else 0
  {
    assert (times + [time])[..|times + [time]| - 1] == times;
  }

  /**
   * Over every run on a clock that never goes back, with limits of at most `limit`, every window
   * (t - 60000, t] holds at most `limit` admitted calls.
   */
  lemma {:induction false} NoWindowExceedsTheLimit(calls: seq<Call>, limit: nat, t: int)
    requires Clocked(calls) && forall i :: 0 <= i < |calls| ==> calls[i].limit <= limit
    ensures Count(Admitted(calls), t - 60_000, t) <= limit
  {
    if calls != [] {
      hide Admits, After, Clocked, Count;
      var front, last := calls[..|calls| - 1], calls[|calls| - 1];
      assert front + [last] == calls;
      ClockedFront(calls);
      NoWindowExceedsTheLimit(front, limit, t);
      CountSnoc(Admitted(front), last.now, t - WINDOW, t);
      if Admits(After(front), last.limit, last.now) {
        ScriptCountsTheLastMinute(front, last.limit, last.now);
        AdmittedAreCalls(front);
        if t - WINDOW < last.now <= t {
          CountShrinks(Admitted(front), last.now - WINDOW, t - WINDOW, last.now, t);
        }
      } else {
        assert Admitted(front) + [] == Admitted(front);
      }
    } else {
      assert Count([], t - WINDOW, t) == 0;
    }
  }
}
