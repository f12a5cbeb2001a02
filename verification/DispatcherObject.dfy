/** The dispatcher object, updating its state in place (internal/router/dispatcher.go). */
module DispatcherObject {
  import opened Common
  import opened Channels
  import opened CircuitBreaking
  import opened LoadBalancer
  import opened Retrieval
  import opened Dispatching
  import Trail
  import DispatchRuns

  datatype Step = Refused | NoProvider | Finished(outcome: Outcome, call: nat)

  /** What one round of the candidate loop does to the world. */
  function OneStep(u: Setup, mode: Mode, w: World, ch: Channel): (World, Step) {
    var (asked, granted) := AskBreaker(u, w, ch);
    if !granted then (asked, Step.Refused)
    else if ch.ptype !in u.providers then (asked.Note(Unsupported(ch)), NoProvider)
    else CallStep(u, mode, asked, ch)
  }

  /** The upstream call of a granted candidate, and its record. */
  function CallStep(u: Setup, mode: Mode, w: World, ch: Channel): (World, Step) {
    var called := w.(calls := w.calls + 1).Note(Called(ch));
    var outcome := OutcomeOf(u.upstream, mode, w.calls);
    (match outcome
     case Served => RecordGood(u, called, ch.name)
     case Failed => RecordBad(u, called, ch.name)
     case Cancelled => called,
     Finished(outcome, w.calls))
  }

  lemma AttemptsUnfold(u: Setup, mode: Mode, w: World, cands: seq<Channel>, names: seq<string>, last: Option<Fault>)
    requires cands != []
    ensures var (next, step) := OneStep(u, mode, w, cands[0]);
            Attempts(u, mode, w, cands, names, last) ==
              match step
              case Refused => Attempts(u, mode, next, cands[1..], names, last)
              case NoProvider => Attempts(u, mode, next, cands[1..], names, Some(UnsupportedProvider(cands[0].name)))
              case Finished(Served, call) => Attempted(next, names, ServedBy(cands[0], call))
              case Finished(Failed, call) =>
                Attempts(u, mode, next, cands[1..], names + [cands[0].name], Some(UpstreamFault(call)))
              case Finished(Cancelled, _) => Attempted(next, names, Stopped)
  {
  }

  lemma AttemptsEnd(u: Setup, mode: Mode, w: World, names: seq<string>, last: Option<Fault>)
    ensures Attempts(u, mode, w, [], names, last) == Attempted(w, names, AllFailed(last))
  {
  }

  class Dispatcher {
    var channels: seq<Channel>
    var providers: set<string>
    var wrrWeights: map<string, int>
    var modelFallbacks: map<string, string>
    const circuitBreaker: CircuitBreaker

    // What the dispatcher meets: case folding, the clock and the upstreams.
    const fold: string -> string
    const now: nat -> int
    const upstream: Upstream

    // Clock readings taken and upstream calls made so far, and a record of the steps.
    var readings: nat
    var calls: nat
    ghost var log: seq<Entry>

    ghost predicate Valid()
      reads this, circuitBreaker
    {
      circuitBreaker.Valid() && this !in circuitBreaker.Objects()
    }

    ghost function Setup(session: Session): Setup
      reads this
    {
      Dispatching.Setup(channels, providers, modelFallbacks, circuitBreaker.settings, session, fold, now, upstream)
    }

    ghost function View(): World
      reads this, circuitBreaker, circuitBreaker.breakers.Values
    {
      World(wrrWeights, circuitBreaker.View(), readings, calls, log)
    }

    constructor (channels: seq<Channel>, providers: set<string>, fold: string -> string, now: nat -> int, upstream: Upstream)
      ensures Valid() && fresh(circuitBreaker.Objects())
      ensures this.channels == channels && this.providers == providers && modelFallbacks == map[]
      ensures View() == World(map[], map[], 0, 0, []) && circuitBreaker.settings == NewSettings(3, DEFAULT_COOLDOWN)
    {
      this.channels := channels;
      this.providers := providers;
      wrrWeights := map[];
      modelFallbacks := map[];
      circuitBreaker := new CircuitBreaker(3, DEFAULT_COOLDOWN);
      this.fold := fold;
      this.now := now;
      this.upstream := upstream;
      readings := 0;
      calls := 0;
      log := [];
    }

    /** The selector of the source shares the dispatcher's weight map; here it is read back after the call. */
    method GetChannels(session: Session, model: string, proto: string) returns (result: seq<Channel>)
      modifies this`wrrWeights
      ensures result == Candidates(session, channels, old(wrrWeights), model, proto).0
      ensures wrrWeights == Candidates(session, channels, old(wrrWeights), model, proto).1
    {
      hide Matched, TierOrder, SortInts;
      var matched := MatchChannels(channels, model, proto);
      if |matched| <= 1 {
        return matched;
      }
      var priorityGroups, priorities := GroupByPriority(matched);
      priorities := SortInts(priorities);
      result := [];
      for k := 0 to |priorities|
        invariant (result, wrrWeights) == Tiers(session, model, matched, priorities, k, old(wrrWeights))
      {
        var group := GetOr(priorityGroups, priorities[k], []);
        var ordered := OrderTier(session, model, k == 0, group);
        result := result + ordered;
      }
    }

    /** One tier: a single channel as it is, the first tier of a session by affinity, any other by weight. */
    method OrderTier(session: Session, model: string, first: bool, group: seq<Channel>) returns (ordered: seq<Channel>)
      modifies this`wrrWeights
      ensures ordered == TierOrder(session, model, first, group, old(wrrWeights)).0
      ensures wrrWeights == TierOrder(session, model, first, group, old(wrrWeights)).1
    {
      if |group| == 1 {
        ordered := group;
      } else if first && session.id != "" {
        var pin;
        ordered, pin := SelectBySession(group, session.id, session.pin(model), session.hash(model));
      } else {
        var selector := new SWRRSelector(wrrWeights);
        ordered := selector.Select(group, model);
        wrrWeights := selector.weights;
      }
    }

    /** One upstream call. */
    method Call(mode: Mode) returns (outcome: Outcome)
      modifies this`calls
      ensures calls == old(calls) + 1 && outcome == OutcomeOf(upstream, mode, old(calls))
    {
      var call := calls;
      calls := calls + 1;
      if mode == Chat {
        return if upstream.answers(call) then Served else Failed;
      }
      var reply := upstream.streams(call);
      if reply.Refused? {
        return Failed;
      }
      match reply.first
      case Arrived =>
        if reply.events == [] || reply.events[0].failed {
          return Failed;
        }
        return Served;
      case TimedOut => return Failed;
      case ContextDone => return Cancelled;
    }

    method Ask(ghost session: Session, ch: Channel) returns (granted: bool)
      requires Valid()
      modifies this`readings, this`log, circuitBreaker.Objects()
      ensures Valid() && fresh(circuitBreaker.Objects() - old(circuitBreaker.Objects()))
      ensures View() == AskBreaker(Setup(session), old(View()), ch).0
      ensures granted == AskBreaker(Setup(session), old(View()), ch).1
    {
      hide AskNamed;
      var t := now(readings);
      granted := circuitBreaker.CanExecute(ch.name, t);
      readings := readings + 1;
      log := log + [Asked(ch, granted)];
    }

    method Record(ghost session: Session, name: string, good: bool)
      requires Valid()
      modifies this`readings, this`log, circuitBreaker.Objects()
      ensures Valid() && fresh(circuitBreaker.Objects() - old(circuitBreaker.Objects()))
      ensures View() == if good then RecordGood(Setup(session), old(View()), name)
                        else RecordBad(Setup(session), old(View()), name)
    {
      hide SucceedNamed, FailNamed;
      var t := now(readings);
      if good {
        circuitBreaker.RecordSuccess(name, t);
      } else {
        circuitBreaker.RecordFailure(name, t);
      }
      readings := readings + 1;
      log := log + [if good then GoodRecord(name) else BadRecord(name)];
    }

    method TryOne(mode: Mode, ghost session: Session, ch: Channel) returns (step: Step)
      requires Valid()
      modifies this`readings, this`calls, this`log, circuitBreaker.Objects()
      ensures Valid() && fresh(circuitBreaker.Objects() - old(circuitBreaker.Objects()))
      ensures View() == OneStep(Setup(session), mode, old(View()), ch).0
      ensures step == OneStep(Setup(session), mode, old(View()), ch).1
    {
      hide AskBreaker, CallStep;
      var granted := Ask(session, ch);
      if !granted {
        return Step.Refused;
      }
      if ch.ptype !in providers {
        log := log + [Unsupported(ch)];
        return NoProvider;
      }
      step := CallOne(mode, session, ch);
    }

    /** The upstream call of a granted candidate, and its record. */
    method CallOne(mode: Mode, ghost session: Session, ch: Channel) returns (step: Step)
      requires Valid()
      modifies this`readings, this`calls, this`log, circuitBreaker.Objects()
      ensures Valid() && fresh(circuitBreaker.Objects() - old(circuitBreaker.Objects()))
      ensures View() == CallStep(Setup(session), mode, old(View()), ch).0
      ensures step == CallStep(Setup(session), mode, old(View()), ch).1
    {
      hide RecordGood, RecordBad, OutcomeOf;
      log := log + [Called(ch)];
      var call := calls;
      var outcome := Call(mode);
      if outcome == Served {
        Record(session, ch.name, true);
      } else if outcome == Failed {
        Record(session, ch.name, false);
      }
      return Finished(outcome, call);
    }

    /** The loop over the candidates of one model. */
    method TryAll(mode: Mode, session: Session, cands: seq<Channel>) returns (names: seq<string>, end: End)
      requires Valid()
      modifies this`readings, this`calls, this`log, circuitBreaker.Objects()
      ensures Valid() && fresh(circuitBreaker.Objects() - old(circuitBreaker.Objects()))
      ensures Attempted(View(), names, end) == Attempts(Setup(session), mode, old(View()), cands, [], None)
    {
      hide Attempts, OneStep;
      names := [];
      var last: Option<Fault> := None;
      ghost var goal := Attempts(Setup(session), mode, View(), cands, [], None);
      var i := 0;
      while i < |cands|
        invariant 0 <= i <= |cands|
        invariant Valid() && fresh(circuitBreaker.Objects() - old(circuitBreaker.Objects()))
        invariant goal == Attempts(Setup(session), mode, View(), cands[i..], names, last)
      {
        var ch := cands[i];
        assert cands[i..][0] == ch && cands[i..][1..] == cands[i + 1..];
        AttemptsUnfold(Setup(session), mode, View(), cands[i..], names, last);
        i := i + 1;
        var step := TryOne(mode, session, ch);
        match step {
          case Refused =>
          case NoProvider =>
            last := Some(UnsupportedProvider(ch.name));
          case Finished(Served, call) =>
            return names, ServedBy(ch, call);
          case Finished(Failed, call) =>
            last := Some(UpstreamFault(call));
            names := names + [ch.name];
          case Finished(Cancelled, _) =>
            return names, Stopped;
        }
      }
      assert cands[i..] == [];
      AttemptsEnd(Setup(session), mode, View(), names, last);
      return names, AllFailed(last);
    }

    /** The candidates for one model, noted as tried. */
    method OfferChannels(session: Session, model: string) returns (cands: seq<Channel>)
      requires Valid()
      modifies this`wrrWeights, this`log
      ensures Valid()
      ensures cands == Offered(Setup(session), old(wrrWeights), model).0
      ensures View() == old(View()).(weights := Offered(Setup(session), old(wrrWeights), model).1).Note(Tried(model, cands))
    {
      hide Candidates;
      cands := GetChannels(session, model, "chat");
      if cands == [] {
        cands := GetChannels(session, model, "");
      }
      log := log + [Tried(model, cands)];
    }

    /** `Dispatch` and `DispatchStream` up to the reply; they differ only in what one call yields. */
    method DispatchFrom(mode: Mode, session: Session, model: string, chain: seq<string>, trail: seq<string>)
      returns (reply: Reply)
      requires Valid()
      modifies this`wrrWeights, this`readings, this`calls, this`log, circuitBreaker.Objects()
      ensures Valid() && fresh(circuitBreaker.Objects() - old(circuitBreaker.Objects()))
      ensures (View(), reply) == Dispatched(Setup(session), mode, old(View()), model, chain, trail)
      decreases MAX_FALLBACK_DEPTH - |ChainSoFar(chain, model)|
    {
      hide Attempts, Offered, NextChain, ChainSoFar, Trail.Format;
      var cands := OfferChannels(session, model);
      var fb := GetOr(modelFallbacks, model, "");
      var hasFallback := fb != "" && fold(fb) != fold(model);
      if cands == [] {
        if !hasFallback {
          return Error(NoUpstream(model, None));
        }
        var next := NextChain(fold, chain, model, fb);
        if next.Err? {
          return Error(NoUpstream(model, Some(next.error)));
        }
        DispatchRuns.NextIsLonger(fold, chain, model, fb);
        reply := DispatchFrom(mode, session, fb, next.value, trail);
        return;
      }
      var names, end := TryAll(mode, session, cands);
      match end {
        case ServedBy(ch, call) =>
          var full := Trail.FormatChannelTrail(trail, names, ch.name);
          return Answer(full, ch, call);
        case Stopped =>
          return ContextCancelled;
        case AllFailed(last) =>
          if !hasFallback {
            return Error(AllChannelsFailed(model, |cands|, last, None));
          }
          var next := NextChain(fold, chain, model, fb);
          if next.Err? {
            return Error(AllChannelsFailed(model, |cands|, last, Some(next.error)));
          }
          DispatchRuns.NextIsLonger(fold, chain, model, fb);
          reply := DispatchFrom(mode, session, fb, next.value, trail + names);
      }
    }

    /** A streaming request: the reply and what the caller reads before `cancelAt` selects have passed. */
    method DispatchStream(session: Session, model: string, cancelAt: Option<nat>) returns (reply: Reply, out: seq<Event>)
      requires Valid()
      modifies this`wrrWeights, this`readings, this`calls, this`log, circuitBreaker.Objects()
      ensures Valid() && fresh(circuitBreaker.Objects() - old(circuitBreaker.Objects()))
      ensures (View(), reply) == Dispatched(Setup(session), Stream, old(View()), model, [], [])
      ensures !reply.Answer? ==> out == []
      ensures reply.Answer? ==>
                var stream := upstream.streams(reply.call);
                && stream.Opened?
                && out <= Stamped(stream.events, reply.trail)
                && (forall i :: 0 <= i < |out| ==>
                      out[i] == Event(stream.events[i].payload, stream.events[i].failed, stream.events[i].done, reply.trail))
                && (cancelAt.None? ==> out == Stamped(stream.events, reply.trail))
    {
      reply := DispatchFrom(Stream, session, model, [], []);
      out := [];
      if reply.Answer? {
        DispatchRuns.RunStopsAtFirstNonFailure(Setup(session), Stream, old(View()), model, [], []);
        out := Forward(upstream.streams(reply.call).events, reply.trail, cancelAt);
      }
    }
  }

  /** The goroutine behind a served stream: it stamps and passes on events until the stream or the context ends. */
  method Forward(events: seq<Event>, trail: string, cancelAt: Option<nat>) returns (out: seq<Event>)
    ensures out <= Stamped(events, trail)
    ensures cancelAt.None? ==> out == Stamped(events, trail)
  {
    out := [];
    var selects := 0;
    var i := 0;
    while i < |events|
      invariant 0 <= i <= |events| && out == Stamped(events, trail)[..i]
    {
      if cancelAt == Some(selects) || cancelAt == Some(selects + 1) {
        return;
      }
      selects := selects + 2;
      out := out + [events[i].(channel := trail)];
      i := i + 1;
    }
  }

  /** The channels that speak the protocol, if one is asked for, and serve the model. */
  method MatchChannels(channels: seq<Channel>, model: string, proto: string) returns (matched: seq<Channel>)
    ensures matched == Matched(channels, model, proto)
  {
    hide SupportsProtocol, SupportsModel;
    matched := [];
    for i := 0 to |channels|
      invariant matched == Matched(channels[..i], model, proto)
    {
      assert channels[..i + 1][..i] == channels[..i];
      if proto != "" && !SupportsProtocol(channels[i], proto) {
        continue;
      }
      if SupportsModel(channels[i], model) {
        matched := matched + [channels[i]];
      }
    }
    assert channels[..|channels|] == channels;
  }

  method GroupByPriority(matched: seq<Channel>) returns (groups: map<int, seq<Channel>>, priorities: seq<int>)
    ensures priorities == FirstSeen(matched)
    ensures forall p :: GetOr(groups, p, []) == Tier(matched, p)
  {
    groups, priorities := map[], [];
    for i := 0 to |matched|
      invariant priorities == FirstSeen(matched[..i])
      invariant forall p :: GetOr(groups, p, []) == Tier(matched[..i], p)
      invariant forall p :: p in priorities <==> Tier(matched[..i], p) != []
    {
      assert matched[..i + 1][..i] == matched[..i];
      var p := matched[i].priority;
      if |GetOr(groups, p, [])| == 0 {
        priorities := priorities + [p];
      }
      groups := groups[p := GetOr(groups, p, []) + [matched[i]]];
    }
    assert matched[..|matched|] == matched;
  }
}
