/** What the breaker of one channel does over whole runs of calls and recorded outcomes. */
module BreakerRuns {
  import opened Common
  import opened CircuitBreaking

  datatype Event = Asked(now: int) | Succeeded(now: int) | Failed(now: int)

  predicate InOrder(es: seq<Event>) {
    forall i, j :: 0 <= i < j < |es| ==> es[i].now <= es[j].now
  }

  predicate NoSuccess(es: seq<Event>) {
    forall i :: 0 <= i < |es| ==> !es[i].Succeeded?
  }

  function Apply(cfg: Settings, s: Option<Status>, e: Event): Option<Status> {
    match (s, e)
    case (Some(st), Asked(now)) => Some(Ask(cfg, st, now).0)
    case (None, Asked(now)) => Some(Ask(cfg, Fresh(now), now).0)
    case (Some(st), Succeeded(now)) => Some(Succeed(cfg, st, now))
    case (None, Succeeded(_)) => None
    case (Some(st), Failed(now)) => Some(Fail(cfg, st, now))
    case (None, Failed(now)) => Some(Fail(cfg, Fresh(now), now))
  }

  function Granted(cfg: Settings, s: Option<Status>, e: Event): bool {
    match (s, e)
    case (Some(st), Asked(now)) => Ask(cfg, st, now).1
    case (None, Asked(now)) => Ask(cfg, Fresh(now), now).1
    case _ => false
  }

  /** The breaker after a run; `None` until the channel is first asked for or fails. */
  function After(cfg: Settings, es: seq<Event>): Option<Status> {
    if es == [] then None else Apply(cfg, After(cfg, es[..|es| - 1]), es[|es| - 1])
  }

  predicate In(s: Option<Status>, state: State) {
    s.Some? && s.value.state == state
  }

  /** Each table operation on a name is the run event of that channel, and of no other. */
  lemma TableFollowsRuns(cfg: Settings, t: Table, name: string, now: int, other: string)
    ensures var at := (u: Table, n: string) => if n in u then Some(u[n]) else None;
            && at(AskNamed(cfg, t, name, now).0, name) == Apply(cfg, at(t, name), Asked(now))
            && AskNamed(cfg, t, name, now).1 == Granted(cfg, at(t, name), Asked(now))
            && at(SucceedNamed(cfg, t, name, now), name) == Apply(cfg, at(t, name), Succeeded(now))
            && at(FailNamed(cfg, t, name, now), name) == Apply(cfg, at(t, name), Failed(now))
            && (other != name ==>
                  && at(AskNamed(cfg, t, name, now).0, other) == at(t, other)
                  && at(SucceedNamed(cfg, t, name, now), other) == at(t, other)
                  && at(FailNamed(cfg, t, name, now), other) == at(t, other))
  {
  }

  // ---- CLOSED and its counter ----

  function FailuresSinceSuccess(es: seq<Event>): nat {
    if es == [] then 0
    else
      match es[|es| - 1]
      case Asked(_) => FailuresSinceSuccess(es[..|es| - 1])
      case Succeeded(_) => 0
      case Failed(_) => FailuresSinceSuccess(es[..|es| - 1]) + 1
  }

  lemma {:induction false} ClosedIffUnderThreshold(cfg: Settings, es: seq<Event>)
    requires cfg.Valid()
    ensures After(cfg, es).None? ==> FailuresSinceSuccess(es) == 0
    ensures After(cfg, es).Some? ==>
              var s := After(cfg, es).value;
              && (s.state == Closed <==> s.failures < cfg.failureThreshold)
              && (s.state == Closed ==> s.failures == FailuresSinceSuccess(es))
  {
    if es != [] {
      ClosedIffUnderThreshold(cfg, es[..|es| - 1]);
    }
  }

  // ---- OPEN: nothing passes for a full cooldown ----

  /** Time of the last recorded failure. */
  function LastFailure(es: seq<Event>): Option<int> {
    if es == [] then None
    else if es[|es| - 1].Failed? then Some(es[|es| - 1].now)
    else LastFailure(es[..|es| - 1])
  }

  lemma {:induction false} OpenSinceLastFailure(cfg: Settings, es: seq<Event>)
    requires In(After(cfg, es), Open)
    ensures LastFailure(es) == Some(After(cfg, es).value.lastChange)
  {
    var front := es[..|es| - 1];
    if In(After(cfg, front), Open) {
      OpenSinceLastFailure(cfg, front);
    }
  }

  /** `more` follows a run `es` that ended open, and falls into the cooldown of the failure at `tripped`. */
  predicate InCooldown(cfg: Settings, es: seq<Event>, more: seq<Event>, tripped: int) {
    && cfg.Valid() && In(After(cfg, es), Open) && LastFailure(es) == Some(tripped)
    && InOrder(es + more) && forall i :: 0 <= i < |more| ==> more[i].now < tripped + cfg.cooldown
  }

  /** A success has been recorded and fewer failures since than the threshold. */
  predicate Recovered(cfg: Settings, es: seq<Event>, more: seq<Event>) {
    !NoSuccess(more) && FailuresSinceSuccess(es + more) < cfg.failureThreshold
  }

  lemma CooldownUnfolds(cfg: Settings, es: seq<Event>, more: seq<Event>, tripped: int)
    requires more != [] && InCooldown(cfg, es, more, tripped)
    ensures var front, last := more[..|more| - 1], more[|more| - 1];
            && InCooldown(cfg, es, front, tripped) && tripped <= last.now
            && (es + more)[..|es + more| - 1] == es + front && (es + more)[|es + more| - 1] == last
            && (NoSuccess(more) <==> NoSuccess(front) && !last.Succeeded?)
  {
    var front := more[..|more| - 1];
    assert (es + more)[..|es + more| - 1] == es + front;
    forall i, j | 0 <= i < j < |es + front|
      ensures (es + front)[i].now <= (es + front)[j].now
    {
      assert (es + more)[i] == (es + front)[i] && (es + more)[j] == (es + front)[j];
    }
    assert (es + more)[..|es|] == es;
    LastFailureIsPast(es, (es + more)[|es|].now, es + more);
    assert more[0] == (es + more)[|es|] && more[|more| - 1] == (es + more)[|es + more| - 1];
  }

  /** Through a cooldown the breaker is never half-open, and closed exactly once it has recovered. */
  lemma {:induction false} CooldownState(cfg: Settings, es: seq<Event>, more: seq<Event>, tripped: int)
    requires InCooldown(cfg, es, more, tripped)
    ensures In(After(cfg, es + more), Closed) || In(After(cfg, es + more), Open)
    ensures In(After(cfg, es + more), Closed) <==> Recovered(cfg, es, more)
    ensures In(After(cfg, es + more), Open) ==> After(cfg, es + more).value.lastChange >= tripped
  {
    if more == [] {
      assert es + more == es;
      OpenSinceLastFailure(cfg, es);
    } else {
      hide InCooldown, InOrder;
      CooldownUnfolds(cfg, es, more, tripped);
      assert cfg.Valid() && more[|more| - 1].now < tripped + cfg.cooldown by { CooldownBounds(cfg, es, more, tripped); }
      CooldownState(cfg, es, more[..|more| - 1], tripped);
      ClosedIffUnderThreshold(cfg, es + more[..|more| - 1]);
      hide NoSuccess;
    }
  }

  lemma CooldownBounds(cfg: Settings, es: seq<Event>, more: seq<Event>, tripped: int)
    requires more != [] && InCooldown(cfg, es, more, tripped)
    ensures cfg.Valid() && more[|more| - 1].now < tripped + cfg.cooldown
  {
  }

  /**
   * Within a cooldown of a trip a call is granted if and only if a success has been recorded since, late as it
   * may be, and fewer failures after it than the threshold.
   */
  lemma GrantDuringCooldownIff(cfg: Settings, es: seq<Event>, more: seq<Event>, tripped: int, now: int)
    requires InCooldown(cfg, es, more, tripped) && now < tripped + cfg.cooldown
    ensures Granted(cfg, After(cfg, es + more), Asked(now)) <==> Recovered(cfg, es, more)
  {
    hide Recovered, After;
    CooldownState(cfg, es, more, tripped);
  }

  /** A late success is enough: recorded at any moment of the cooldown, it lets the very next call through. */
  lemma LateSuccessCloses(cfg: Settings, es: seq<Event>, more: seq<Event>, tripped: int, late: int, now: int)
    requires InCooldown(cfg, es, more + [Succeeded(late)], tripped) && now < tripped + cfg.cooldown
    ensures In(After(cfg, es + (more + [Succeeded(late)])), Closed)
    ensures Granted(cfg, After(cfg, es + (more + [Succeeded(late)])), Asked(now))
  {
    var all := more + [Succeeded(late)];
    assert all[|more|].Succeeded?;
    assert (es + all)[|es + all| - 1] == Succeeded(late);
    assert Recovered(cfg, es, all);
    CooldownState(cfg, es, all, tripped);
    GrantDuringCooldownIff(cfg, es, all, tripped, now);
  }

  /**
   * So with no success recorded the breaker stays open and refuses every call less than a cooldown after
   * the failure that tripped it; later failures only prolong that.
   */
  lemma NoGrantDuringCooldown(cfg: Settings, es: seq<Event>, more: seq<Event>, tripped: int)
    requires cfg.Valid() && In(After(cfg, es), Open) && LastFailure(es) == Some(tripped)
    requires InOrder(es + more) && NoSuccess(more)
    requires forall i :: 0 <= i < |more| ==> more[i].now < tripped + cfg.cooldown
    ensures In(After(cfg, es + more), Open)
    ensures LastFailure(es + more).Some? && LastFailure(es + more).value >= tripped
    ensures more != [] ==> !Granted(cfg, After(cfg, es + more[..|more| - 1]), more[|more| - 1])
  {
    hide After, InOrder, LastFailure, NoSuccess;
    CooldownState(cfg, es, more, tripped);
    OpenSinceLastFailure(cfg, es + more);
    if more != [] {
      var front, last := more[..|more| - 1], more[|more| - 1];
      CooldownUnfolds(cfg, es, more, tripped);
      CooldownBounds(cfg, es, more, tripped);
      CooldownState(cfg, es, front, tripped);
    }
  }

  lemma {:induction false} LastFailureIsPast(es: seq<Event>, now: int, run: seq<Event>)
    requires InOrder(run) && es <= run && |run| > |es| && run[|es|].now <= now
    ensures LastFailure(es).Some? ==> LastFailure(es).value <= now
  {
    if es != [] {
      var front := es[..|es| - 1];
      assert run[|es| - 1] == es[|es| - 1];
      assert run[|front|].now <= run[|es|].now;
      assert front <= run;
      LastFailureIsPast(front, now, run);
    }
  }

  // ---- HALF-OPEN: a bounded number of probes ----

  /** Calls granted since the breaker last became half-open, the first probe included. */
  function StayGrants(cfg: Settings, es: seq<Event>): nat {
    if es == [] || !In(After(cfg, es), HalfOpen) then 0
    else
      var front := es[..|es| - 1];
      StayGrants(cfg, front) + if Granted(cfg, After(cfg, front), es[|es| - 1]) then 1 else 0
  }

  function StaySuccesses(cfg: Settings, es: seq<Event>): nat {
    if es == [] || !In(After(cfg, es), HalfOpen) then 0
    else StaySuccesses(cfg, es[..|es| - 1]) + if es[|es| - 1].Succeeded? then 1 else 0
  }

  /** Within 2x cooldown of becoming half-open, grants outnumber recorded successes by at most the probe limit. */
  lemma {:induction false} ProbesAreBounded(cfg: Settings, es: seq<Event>)
    requires cfg.Valid() && InOrder(es) && In(After(cfg, es), HalfOpen)
    requires es[|es| - 1].now - After(cfg, es).value.lastChange <= 2 * cfg.cooldown
    ensures var s := After(cfg, es).value;
            && 0 <= s.canary <= cfg.maxCanaryProbes
            && StayGrants(cfg, es) <= s.canary + StaySuccesses(cfg, es)
  {
    var front := es[..|es| - 1];
    if In(After(cfg, front), HalfOpen) {
      assert front != [];
      assert es[|front| - 1].now <= es[|es| - 1].now;
      ProbesAreBounded(cfg, front);
    } else {
      assert StayGrants(cfg, front) == 0;
    }
  }

  /** Asks since the breaker last became half-open that came more than 2x cooldown after it did. */
  function LateAsks(cfg: Settings, es: seq<Event>): nat {
    if es == [] || !In(After(cfg, es), HalfOpen) then 0
    else
      var front, e := es[..|es| - 1], es[|es| - 1];
      LateAsks(cfg, front)
      + if In(After(cfg, front), HalfOpen) && e.Asked? && e.now - After(cfg, front).value.lastChange > 2 * cfg.cooldown
        then 1 else 0
  }

  /** With the constructor's settings a half-open stay, however long, lets through its first call and the late ones. */
  lemma {:induction false} StayGrantsExactly(failureThreshold: int, cooldown: int, es: seq<Event>)
    requires In(After(NewSettings(failureThreshold, cooldown), es), HalfOpen)
    ensures var cfg := NewSettings(failureThreshold, cooldown);
            && StayGrants(cfg, es) == 1 + LateAsks(cfg, es)
            && After(cfg, es).value.canary == 1 && After(cfg, es).value.successes == 0
  {
    var cfg := NewSettings(failureThreshold, cooldown);
    var front := es[..|es| - 1];
    if In(After(cfg, front), HalfOpen) {
      StayGrantsExactly(failureThreshold, cooldown, front);
    } else {
      assert StayGrants(cfg, front) == 0 && LateAsks(cfg, front) == 0;
    }
  }

  /** So exactly one call goes through in the first 2x cooldown. */
  lemma {:induction false} OneProbePerStay(failureThreshold: int, cooldown: int, es: seq<Event>)
    requires var cfg := NewSettings(failureThreshold, cooldown);
             && InOrder(es) && In(After(cfg, es), HalfOpen)
             && es[|es| - 1].now - After(cfg, es).value.lastChange <= 2 * cfg.cooldown
    ensures StayGrants(NewSettings(failureThreshold, cooldown), es) == 1
  {
    StayGrantsExactly(failureThreshold, cooldown, es);
    NoneIsLate(NewSettings(failureThreshold, cooldown), es);
  }

  lemma {:induction false} NoneIsLate(cfg: Settings, es: seq<Event>)
    requires cfg.Valid() && InOrder(es) && In(After(cfg, es), HalfOpen)
    requires es[|es| - 1].now - After(cfg, es).value.lastChange <= 2 * cfg.cooldown
    ensures LateAsks(cfg, es) == 0
  {
    var front := es[..|es| - 1];
    if In(After(cfg, front), HalfOpen) {
      assert front != [];
      assert es[|front| - 1].now <= es[|es| - 1].now;
      NoneIsLate(cfg, front);
    } else {
      assert LateAsks(cfg, front) == 0;
    }
  }

  /** A refusal means the breaker changed state at most 2x cooldown ago, and less than one if open. */
  lemma RefusalIsRecent(cfg: Settings, es: seq<Event>, now: int)
    requires cfg.Valid() && !Granted(cfg, After(cfg, es), Asked(now))
    ensures After(cfg, es).Some?
    ensures var s := After(cfg, es).value;
            && s.state != Closed
            && now - s.lastChange <= 2 * cfg.cooldown
            && (s.state == Open ==> now - s.lastChange < cfg.cooldown)
  {
  }

  function AskTimes(times: seq<int>): (es: seq<Event>)
    ensures |es| == |times|
  {
    seq(|times|, i requires 0 <= i < |times| => Asked(times[i]))
  }

  lemma AskTimesSnoc(times: seq<int>)
    requires times != []
    ensures AskTimes(times) == AskTimes(times[..|times| - 1]) + [Asked(times[|times| - 1])]
  {
  }

  /**
   * A half-open breaker older than 2x cooldown with no outcome recorded grants every call:
   * resetting the probe counter does not move the time of the last change.
   */
  lemma {:induction false} StaleHalfOpenGrantsAll(cfg: Settings, es: seq<Event>, times: seq<int>)
    requires cfg.Valid() && In(After(cfg, es), HalfOpen)
    requires forall i :: 0 <= i < |times| ==> times[i] - After(cfg, es).value.lastChange > 2 * cfg.cooldown
    ensures var run := es + AskTimes(times);
            && In(After(cfg, run), HalfOpen)
            && After(cfg, run).value.lastChange == After(cfg, es).value.lastChange
            && (times != [] ==>
                  Granted(cfg, After(cfg, es + AskTimes(times[..|times| - 1])), Asked(times[|times| - 1])))
  {
    if times == [] {
      assert es + AskTimes(times) == es;
    } else {
      hide AskTimes, After, Apply, Granted;
      var front, last := times[..|times| - 1], Asked(times[|times| - 1]);
      StaleHalfOpenGrantsAll(cfg, es, front);
      AskTimesSnoc(times);
      assert es + AskTimes(times) == es + AskTimes(front) + [last];
      AfterSnoc(cfg, es + AskTimes(front), last);
      LateAskIsGranted(cfg, After(cfg, es + AskTimes(front)), last);
    }
  }

  lemma AfterSnoc(cfg: Settings, es: seq<Event>, e: Event)
    ensures After(cfg, es + [e]) == Apply(cfg, After(cfg, es), e)
  {
    assert (es + [e])[..|es|] == es;
  }

  lemma LateAskIsGranted(cfg: Settings, s: Option<Status>, e: Event)
    requires cfg.Valid() && In(s, HalfOpen) && e.Asked? && e.now - s.value.lastChange > 2 * cfg.cooldown
    ensures Granted(cfg, s, e) && In(Apply(cfg, s, e), HalfOpen)
    ensures Apply(cfg, s, e).value.lastChange == s.value.lastChange
  {
  }

  /** Recovery: past the cooldown one call is let through, and its success closes the breaker. */
  lemma OpenRecovers(failureThreshold: int, cooldown: int, es: seq<Event>, asked: int, answered: int)
    requires var cfg := NewSettings(failureThreshold, cooldown);
             && In(After(cfg, es), Open)
             && asked - After(cfg, es).value.lastChange >= cfg.cooldown
    ensures var cfg := NewSettings(failureThreshold, cooldown);
            && Granted(cfg, After(cfg, es), Asked(asked))
            && After(cfg, es + [Asked(asked), Succeeded(answered)]) == Some(Fresh(answered))
  {
    var run := es + [Asked(asked), Succeeded(answered)];
    assert run[..|run| - 1] == es + [Asked(asked)];
    assert (es + [Asked(asked)])[..|es|] == es;
  }
}
