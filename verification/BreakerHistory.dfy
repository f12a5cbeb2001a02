/** What a breaker answers, read off the recorded history alone (internal/router/circuit_breaker.go). */
module BreakerHistory {
  import opened Common
  import opened CircuitBreaking
  import opened BreakerRuns

  // ---- With the settings of the constructor ----

  /** Time of the first ask that came at least a cooldown after the last failure, if one did. */
  function ProbeTime(cooldown: int, es: seq<Event>): Option<int> {
    if es == [] then None
    else
      var front := es[..|es| - 1];
      match es[|es| - 1]
      case Failed(_) => None
      case Succeeded(_) => ProbeTime(cooldown, front)
      case Asked(now) =>
        if ProbeTime(cooldown, front).Some? then ProbeTime(cooldown, front)
        else if LastFailure(front).Some? && now - LastFailure(front).value >= cooldown then Some(now)
        else None
  }

  /** Time of the last success that had the failures of a trip before it or, without one, of the first ask or failure. */
  function ClosingTime(threshold: int, es: seq<Event>): Option<int> {
    if es == [] then None
    else
      var front, last := es[..|es| - 1], es[|es| - 1];
      if last.Succeeded? then
        if FailuresSinceSuccess(front) >= threshold then Some(last.now) else ClosingTime(threshold, front)
      else if ClosingTime(threshold, front).None? then Some(last.now)
      else ClosingTime(threshold, front)
  }

  /** What the history leaves: closed while the failures since the last success stay under the threshold. */
  function Left(threshold: int, cooldown: int, es: seq<Event>): Option<Status> {
    if FailuresSinceSuccess(es) < threshold then
      match ClosingTime(threshold, es)
      case None => None
      case Some(since) => Some(Status(Closed, FailuresSinceSuccess(es), 0, 0, since))
    else
      match (ProbeTime(cooldown, es), LastFailure(es))
      case (Some(probe), _) => Some(Status(HalfOpen, threshold, 0, 1, probe))
      case (None, Some(failed)) => Some(Status(Open, threshold, 0, 0, failed))
      case (None, None) => None
  }

  function Threshold(configured: int): int { if configured > 0 then configured else 3 }

  function Cooldown(configured: int): int { if configured > 0 then configured else 30_000_000_000 }

  lemma {:induction false} FailuresHaveALast(es: seq<Event>)
    ensures FailuresSinceSuccess(es) > 0 ==> LastFailure(es).Some?
  {
    if es != [] {
      FailuresHaveALast(es[..|es| - 1]);
    }
  }

  /**
   * After any run, in order or not, the whole state is what the history says: closed exactly while fewer failures
   * than the threshold follow the last success; else open since the last failure, or half-open since the first
   * ask a cooldown later.
   */
  lemma {:induction false} StateByHistory(failureThreshold: int, cooldown: int, es: seq<Event>)
    ensures After(NewSettings(failureThreshold, cooldown), es)
         == Left(Threshold(failureThreshold), Cooldown(cooldown), es)
  {
    if es != [] {
      StateByHistory(failureThreshold, cooldown, es[..|es| - 1]);
      FailuresHaveALast(es[..|es| - 1]);
      LeftNext(failureThreshold, cooldown, es);
    }
  }

  lemma LeftNext(failureThreshold: int, cooldown: int, es: seq<Event>)
    requires es != []
    requires FailuresSinceSuccess(es[..|es| - 1]) > 0 ==> LastFailure(es[..|es| - 1]).Some?
    ensures Apply(NewSettings(failureThreshold, cooldown), Left(Threshold(failureThreshold), Cooldown(cooldown), es[..|es| - 1]),
                  es[|es| - 1])
         == Left(Threshold(failureThreshold), Cooldown(cooldown), es)
  {
  }

  /** An ask is granted exactly in these cases, whatever happened before. */
  lemma GrantedByHistory(failureThreshold: int, cooldown: int, es: seq<Event>, now: int)
    ensures Granted(NewSettings(failureThreshold, cooldown), After(NewSettings(failureThreshold, cooldown), es), Asked(now)) <==>
              || FailuresSinceSuccess(es) < Threshold(failureThreshold)
              || (match ProbeTime(Cooldown(cooldown), es)
                  case None => LastFailure(es).Some? && now - LastFailure(es).value >= Cooldown(cooldown)
                  case Some(probe) => now - probe > 2 * Cooldown(cooldown))
  {
    StateByHistory(failureThreshold, cooldown, es);
    FailuresHaveALast(es);
  }

  /** A failure recorded while half-open opens the breaker again: after a failure it is never half-open. */
  lemma FailureNeverLeavesHalfOpen(cfg: Settings, es: seq<Event>, now: int)
    requires cfg.Valid()
    ensures var s := After(cfg, es + [Failed(now)]);
            && s.Some? && s.value.state != HalfOpen
            && (s.value.state == Closed <==> s.value.failures < cfg.failureThreshold)
            && (!In(After(cfg, es), Closed) && After(cfg, es).Some? ==> s.value.state == Open && s.value.lastChange == now)
  {
    AfterSnoc(cfg, es, Failed(now));
    ClosedIffUnderThreshold(cfg, es + [Failed(now)]);
    ClosedIffUnderThreshold(cfg, es);
  }

  // ---- With any settings: probes under way while half-open ----

  /** The breaker has been half-open after each event from number `i` on. */
  predicate StaysFrom(cfg: Settings, es: seq<Event>, i: nat) {
    i <= |es| && forall j: nat :: i < j <= |es| ==> In(After(cfg, es[..j]), HalfOpen)
  }

  /** Calls granted less successes recorded from event number `i` on. */
  function Outstanding(cfg: Settings, es: seq<Event>, i: nat): int
    requires i <= |es|
  {
    if i == |es| then 0
    else
      var front, last := es[..|es| - 1], es[|es| - 1];
      Outstanding(cfg, front, i)
      + (if Granted(cfg, After(cfg, front), last) then 1 else 0) - (if last.Succeeded? then 1 else 0)
  }

  ghost predicate CanaryIs(cfg: Settings, es: seq<Event>, canary: int) {
    && (forall i: nat :: StaysFrom(cfg, es, i) ==> canary >= Outstanding(cfg, es, i))
    && exists i: nat :: StaysFrom(cfg, es, i) && canary == Outstanding(cfg, es, i)
  }

  lemma StaysFromFront(cfg: Settings, es: seq<Event>, i: nat)
    requires es != []
    ensures i < |es| ==> (StaysFrom(cfg, es, i) <==> StaysFrom(cfg, es[..|es| - 1], i) && In(After(cfg, es), HalfOpen))
    ensures StaysFrom(cfg, es, |es|) && Outstanding(cfg, es, |es|) == 0
  {
    var front := es[..|es| - 1];
    assert es[..|es|] == es;
    forall j: nat | j <= |front| ensures front[..j] == es[..j] {
    }
  }

  /**
   * In the first 2x cooldown of a half-open stay the probes counted as under way are the largest excess of
   * grants over recorded successes since any moment of the stay.
   */
  lemma {:induction false} CanaryIsOutstanding(cfg: Settings, es: seq<Event>)
    requires cfg.Valid() && InOrder(es) && In(After(cfg, es), HalfOpen)
    requires es[|es| - 1].now - After(cfg, es).value.lastChange <= 2 * cfg.cooldown
    ensures CanaryIs(cfg, es, After(cfg, es).value.canary)
  {
    var front := es[..|es| - 1];
    if In(After(cfg, front), HalfOpen) {
      assert front != [];
      assert es[|front| - 1].now <= es[|es| - 1].now;
      CanaryIsOutstanding(cfg, front);
    }
    CanaryNext(cfg, es);
  }

  lemma NothingBeforeTheStay(cfg: Settings, es: seq<Event>, i: nat)
    requires !In(After(cfg, es), HalfOpen) && StaysFrom(cfg, es, i)
    ensures i == |es|
  {
    assert es[..|es|] == es;
  }

  lemma StaysFromIsInside(cfg: Settings, es: seq<Event>, i: nat)
    requires StaysFrom(cfg, es, i)
    ensures i <= |es|
  {
  }

  lemma CanaryStep(cfg: Settings, es: seq<Event>)
    requires cfg.Valid() && es != [] && In(After(cfg, es), HalfOpen)
    requires es[|es| - 1].now - After(cfg, es).value.lastChange <= 2 * cfg.cooldown
    ensures var front, last := es[..|es| - 1], es[|es| - 1];
            var before := if In(After(cfg, front), HalfOpen) then After(cfg, front).value.canary else 0;
            var moved := (if Granted(cfg, After(cfg, front), last) then 1 else 0) - (if last.Succeeded? then 1 else 0);
            After(cfg, es).value.canary == (if last.Succeeded? && before <= 0 then before else before + moved)
  {
  }

  lemma CanaryNext(cfg: Settings, es: seq<Event>)
    requires cfg.Valid() && es != [] && In(After(cfg, es), HalfOpen)
    requires es[|es| - 1].now - After(cfg, es).value.lastChange <= 2 * cfg.cooldown
    requires In(After(cfg, es[..|es| - 1]), HalfOpen) ==>
               CanaryIs(cfg, es[..|es| - 1], After(cfg, es[..|es| - 1]).value.canary)
    ensures CanaryIs(cfg, es, After(cfg, es).value.canary)
  {
    var front := es[..|es| - 1];
    var canary := After(cfg, es).value.canary;
    hide StaysFrom, After, Granted;
    CanaryStep(cfg, es);
    StaysFromFront(cfg, es, |es|);
    var i: nat := |front|;
    if In(After(cfg, front), HalfOpen) {
      assert Outstanding(cfg, front, |front|) == 0 by { Nothing(cfg, front); }
      i :| StaysFrom(cfg, front, i) && After(cfg, front).value.canary == Outstanding(cfg, front, i);
    } else {
      Nothing(cfg, front);
    }
    StaysFromIsInside(cfg, front, i);
    StaysFromFront(cfg, es, i);
    assert canary == Outstanding(cfg, es, i) || canary == Outstanding(cfg, es, |es|);
    forall k: nat | StaysFrom(cfg, es, k) ensures canary >= Outstanding(cfg, es, k) {
      StaysFromIsInside(cfg, es, k);
      StaysFromFront(cfg, es, k);
      if !In(After(cfg, front), HalfOpen) && k < |es| {
        NothingBeforeTheStay(cfg, front, k);
      }
    }
  }

  lemma Nothing(cfg: Settings, es: seq<Event>)
    ensures StaysFrom(cfg, es, |es|) && Outstanding(cfg, es, |es|) == 0
  {
  }

  /** So while half-open a call is granted as long as fewer are under way than may be, or after twice the cooldown. */
  lemma GrantedWhileHalfOpenIff(cfg: Settings, es: seq<Event>, now: int)
    requires cfg.Valid() && InOrder(es) && In(After(cfg, es), HalfOpen)
    requires es[|es| - 1].now - After(cfg, es).value.lastChange <= 2 * cfg.cooldown
    ensures Granted(cfg, After(cfg, es), Asked(now)) <==>
              || (forall i: nat :: StaysFrom(cfg, es, i) ==> Outstanding(cfg, es, i) < cfg.maxCanaryProbes)
              || now - After(cfg, es).value.lastChange > 2 * cfg.cooldown
  {
    CanaryIsOutstanding(cfg, es);
    hide StaysFrom, Outstanding;
  }

  /** Successes close a half-open breaker exactly when as many have been recorded in its stay as the settings ask. */
  lemma {:induction false} SuccessesAreCounted(cfg: Settings, es: seq<Event>)
    requires cfg.Valid() && In(After(cfg, es), HalfOpen)
    ensures After(cfg, es).value.successes == StaySuccesses(cfg, es) < cfg.successThreshold
    ensures forall now :: In(After(cfg, es + [Succeeded(now)]), HalfOpen) <==> StaySuccesses(cfg, es) + 1 < cfg.successThreshold
    ensures forall now :: StaySuccesses(cfg, es) + 1 >= cfg.successThreshold ==> After(cfg, es + [Succeeded(now)]) == Some(Fresh(now))
  {
    var front := es[..|es| - 1];
    if In(After(cfg, front), HalfOpen) {
      SuccessesAreCounted(cfg, front);
      assert front + [es[|es| - 1]] == es;
    } else {
      assert StaySuccesses(cfg, front) == 0;
    }
    forall now ensures After(cfg, es + [Succeeded(now)]) == Apply(cfg, After(cfg, es), Succeeded(now)) {
      AfterSnoc(cfg, es, Succeeded(now));
    }
  }

  /** With all probes out for more than twice the cooldown the count starts over with the call let through. */
  lemma LateAskStartsOver(cfg: Settings, es: seq<Event>, now: int)
    requires cfg.Valid() && In(After(cfg, es), HalfOpen)
    requires After(cfg, es).value.canary >= cfg.maxCanaryProbes && now - After(cfg, es).value.lastChange > 2 * cfg.cooldown
    ensures Granted(cfg, After(cfg, es), Asked(now))
    ensures After(cfg, es + [Asked(now)]) == Some(After(cfg, es).value.(canary := 1))
  {
    AfterSnoc(cfg, es, Asked(now));
  }
}
