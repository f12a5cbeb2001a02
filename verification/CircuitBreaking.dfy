/**
 * Tri-state circuit breaker of every upstream channel (internal/router/circuit_breaker.go).
 *
 * Times are integers (nanoseconds); each call receives the reading of the clock it would take.
 * `Ask`, `Succeed` and `Fail` specify the three state handlers on values; the classes below
 * update their fields in place and are proved against them. Mutual exclusion is the
 * caller's lock, so each method is one atomic step.
 */
module CircuitBreaking {
  import opened Common

  datatype State = Closed | Open | HalfOpen

  datatype Settings = Settings(failureThreshold: int, successThreshold: int, maxCanaryProbes: int, cooldown: int) {
    predicate Valid() {
      failureThreshold >= 1 && successThreshold >= 1 && maxCanaryProbes >= 1 && cooldown >= 1
    }
  }

  const DEFAULT_COOLDOWN := 30 * 1_000_000_000

  function NewSettings(failureThreshold: int, cooldown: int): (s: Settings)
    ensures s.Valid()
  {
    Settings(
      if failureThreshold <= 0 then 3 else failureThreshold,
      1,
      1,
      if cooldown <= 0 then DEFAULT_COOLDOWN else cooldown)
  }

  datatype Status = Status(state: State, failures: int, successes: int, canary: int, lastChange: int)

  function Fresh(now: int): Status { Status(Closed, 0, 0, 0, now) }

  function ToOpen(s: Status, now: int): Status {
    Status(Open, s.failures, 0, 0, now)
  }

  function ToHalfOpen(s: Status, now: int): Status {
    Status(HalfOpen, s.failures, 0, 0, now)
  }

  /** `CanExecute`: the new status and whether the call may go upstream. */
  function Ask(cfg: Settings, s: Status, now: int): (Status, bool) {
    match s.state
    case Closed => (s, true)
    case Open =>
      if now - s.lastChange >= cfg.cooldown then Probe(cfg, ToHalfOpen(s, now), now) else (s, false)
    case HalfOpen => Probe(cfg, s, now)
  }

  function Probe(cfg: Settings, s: Status, now: int): (Status, bool) {
    if s.canary < cfg.maxCanaryProbes then (s.(canary := s.canary + 1), true)
    else if now - s.lastChange > 2 * cfg.cooldown then (s.(canary := 1), true)
    else (s, false)
  }

  function Succeed(cfg: Settings, s: Status, now: int): Status {
    match s.state
    case Closed => s.(failures := 0)
    case Open => Fresh(now)
    case HalfOpen =>
      if s.successes + 1 >= cfg.successThreshold then Fresh(now)
      else s.(canary := if s.canary > 0 then s.canary - 1 else s.canary, successes := s.successes + 1)
  }

  function Fail(cfg: Settings, s: Status, now: int): Status {
    match s.state
    case Closed =>
      var c := s.(failures := s.failures + 1);
      if c.failures >= cfg.failureThreshold then ToOpen(c, now) else c
    case Open => s.(lastChange := now)
    case HalfOpen => ToOpen(s, now)
  }

  class BreakerStatus {
    var state: State
    var consecutiveFailures: int
    var consecutiveSuccesses: int
    var canaryInFlight: int
    var lastStateChange: int

    ghost function Value(): Status
      reads this
    {
      Status(state, consecutiveFailures, consecutiveSuccesses, canaryInFlight, lastStateChange)
    }

    constructor (now: int)
      ensures Value() == Fresh(now)
    {
      state, consecutiveFailures, consecutiveSuccesses, canaryInFlight, lastStateChange := Closed, 0, 0, 0, now;
    }

    method Become(next: State, now: int)
      modifies this
      ensures next == Closed ==> Value() == Fresh(now)
      ensures next == Open ==> Value() == ToOpen(old(Value()), now)
      ensures next == HalfOpen ==> Value() == ToHalfOpen(old(Value()), now)
    {
      state := next;
      if next == Closed {
        consecutiveFailures := 0;
      }
      consecutiveSuccesses := 0;
      canaryInFlight := 0;
      lastStateChange := now;
    }

    method CanExecute(cfg: Settings, now: int) returns (granted: bool)
      modifies this
      ensures Value() == Ask(cfg, old(Value()), now).0
      ensures granted == Ask(cfg, old(Value()), now).1
    {
      if state == Closed {
        return true;
      }
      if state == Open {
        if now - lastStateChange < cfg.cooldown {
          return false;
        }
        Become(HalfOpen, now);
      }
      if canaryInFlight >= cfg.maxCanaryProbes {
        if now - lastStateChange > 2 * cfg.cooldown {
          canaryInFlight := 0;
        } else {
          return false;
        }
      }
      canaryInFlight := canaryInFlight + 1;
      return true;
    }

    method RecordSuccess(cfg: Settings, now: int)
      modifies this
      ensures Value() == Succeed(cfg, old(Value()), now)
    {
      match state
      case Closed => consecutiveFailures := 0;
      case Open => Become(Closed, now);
      case HalfOpen =>
        if canaryInFlight > 0 {
          canaryInFlight := canaryInFlight - 1;
        }
        consecutiveSuccesses := consecutiveSuccesses + 1;
        if consecutiveSuccesses >= cfg.successThreshold {
          Become(Closed, now);
        }
    }

    method RecordFailure(cfg: Settings, now: int)
      modifies this
      ensures Value() == Fail(cfg, old(Value()), now)
    {
      match state
      case Closed =>
        consecutiveFailures := consecutiveFailures + 1;
        if consecutiveFailures >= cfg.failureThreshold {
          Become(Open, now);
        }
      case Open => lastStateChange := now;
      case HalfOpen => Become(Open, now);
    }
  }

  // ---- The table of breakers, by channel name ----

  type Table = map<string, Status>

  function AskNamed(cfg: Settings, t: Table, name: string, now: int): (Table, bool) {
    var r := Ask(cfg, GetOr(t, name, Fresh(now)), now);
    (t[name := r.0], r.1)
  }

  function SucceedNamed(cfg: Settings, t: Table, name: string, now: int): Table {
    if name in t then t[name := Succeed(cfg, t[name], now)] else t
  }

  function FailNamed(cfg: Settings, t: Table, name: string, now: int): Table {
    t[name := Fail(cfg, GetOr(t, name, Fresh(now)), now)]
  }

  class CircuitBreaker {
    var breakers: map<string, BreakerStatus>
    const settings: Settings

    ghost predicate Valid()
      reads this
    {
      settings.Valid() && forall a, b :: a in breakers && b in breakers && a != b ==> breakers[a] != breakers[b]
    }

    ghost function Objects(): set<object>
      reads this
    {
      {this} + breakers.Values
    }

    ghost function View(): Table
      reads this, breakers.Values
    {
      map name | name in breakers :: breakers[name].Value()
    }

    constructor (failureThreshold: int, cooldown: int)
      ensures Valid() && fresh(Objects()) && View() == map[]
      ensures settings == NewSettings(failureThreshold, cooldown)
    {
      breakers := map[];
      settings := NewSettings(failureThreshold, cooldown);
    }

    method GetOrCreate(name: string, now: int) returns (status: BreakerStatus)
      requires Valid()
      modifies this
      ensures Valid() && name in breakers && status == breakers[name]
      ensures fresh(Objects() - old(Objects()))
      ensures View() == old(View())[name := GetOr(old(View()), name, Fresh(now))]
    {
      if name in breakers {
        return breakers[name];
      }
      status := new BreakerStatus(now);
      breakers := breakers[name := status];
    }

    method CanExecute(name: string, now: int) returns (granted: bool)
      requires Valid()
      modifies Objects()
      ensures Valid() && fresh(Objects() - old(Objects()))
      ensures View() == AskNamed(settings, old(View()), name, now).0
      ensures granted == AskNamed(settings, old(View()), name, now).1
    {
      hide Ask;
      var status := GetOrCreate(name, now);
      ghost var before := GetOr(old(View()), name, Fresh(now));
      assert status.Value() == View()[name] == before;
      granted := status.CanExecute(settings, now);
      assert View() == old(View())[name := Ask(settings, before, now).0];
    }

    method RecordSuccess(name: string, now: int)
      requires Valid()
      modifies Objects()
      ensures Valid() && Objects() == old(Objects())
      ensures View() == SucceedNamed(settings, old(View()), name, now)
    {
      if name in breakers {
        breakers[name].RecordSuccess(settings, now);
      }
    }

    method RecordFailure(name: string, now: int)
      requires Valid()
      modifies Objects()
      ensures Valid() && fresh(Objects() - old(Objects()))
      ensures View() == FailNamed(settings, old(View()), name, now)
    {
      var status := GetOrCreate(name, now);
      status.RecordFailure(settings, now);
    }
  }
}
