/** The cluster-wide sliding window, a script run inside Redis (internal/distributed/redis.go). */
module SlidingWindow {
  const WINDOW: int := 60000

  /** A sorted set of (time, serial) members with their scores, its serial counter, and when both keys expire. */
  datatype Keys = Keys(members: map<(int, nat), int>, serial: nat, expiry: int)

  const NO_KEYS := Keys(map[], 0, 0)

  function Unexpired(k: Keys, now: int): Keys {
    if now > k.expiry then Keys(map[], 0, k.expiry) else k
  }

  function WithoutScores(members: map<(int, nat), int>, low: int, high: int): map<(int, nat), int> {
    map m | m in members && !(low <= members[m] <= high) :: members[m]
  }

  function Cleared(k: Keys, now: int): Keys {
    var live := Unexpired(k, now);
    live.(members := WithoutScores(live.members, 0, now - WINDOW))
  }

  predicate Admits(k: Keys, limit: int, now: int) {
    |Cleared(k, now).members| < limit
  }

  function Asked(k: Keys, limit: int, now: int): Keys {
    var c := Cleared(k, now);
    if !Admits(k, limit, now) then c
    else Keys(c.members[(now, c.serial + 1) := now], c.serial + 1, now + WINDOW)
  }

  datatype Answer = Answer(allowed: bool, failed: bool)

  class Limiter {
    var members: map<(int, nat), int>
    var serial: nat
    var expiry: int

    function Value(): Keys
      reads this
    {
      Keys(members, serial, expiry)
    }

    constructor ()
      ensures Value() == NO_KEYS
    {
      members, serial, expiry := map[], 0, 0;
    }

    /** The script: one atomic step of Redis. */
    method RunScript(limit: int, now: int) returns (allowed: bool)
      modifies this
      ensures allowed == Admits(old(Value()), limit, now) && Value() == Asked(old(Value()), limit, now)
    {
      if now > expiry {
        members, serial := map[], 0;
      }
      var clearBefore := now - WINDOW;
      members := WithoutScores(members, 0, clearBefore);
      var current := |members|;
      if current < limit {
        serial := serial + 1;
        var member := (now, serial);
        members := members[member := now];
        expiry := now + WINDOW;
        allowed := true;
      } else {
        allowed := false;
      }
    }

    /** Unmetered keys and an inactive Redis always pass; a failing one lets the call through with an error. */
    method AllowRPM(active: bool, redisFails: bool, rpm: int, now: int) returns (r: Answer)
      modifies this
      ensures if !active || rpm <= 0 then r == Answer(true, false) && Value() == old(Value())
              else if redisFails then r == Answer(true, true) && Value() == old(Value())
              else r == Answer(Admits(old(Value()), rpm, now), false) && Value() == Asked(old(Value()), rpm, now)
    {
      if !active || rpm <= 0 {
        return Answer(true, false);
      }
      if redisFails {
        return Answer(true, true);
      }
      var allowed := RunScript(rpm, now);
      r := Answer(allowed, false);
    }
  }
}
