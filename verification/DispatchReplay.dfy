/** A run read back from its log: every step's effect on weights, breakers, clock and calls (internal/router/dispatcher.go). */
module DispatchReplay {
  import opened Common
  import opened Channels
  import opened CircuitBreaking
  import opened Retrieval
  import opened Dispatching
  import opened DispatchRuns
  import CandidateRuns
  import SwrrFairness
  import BreakerRuns

  /** What the table holds for a name. */
  function At(t: Table, name: string): Option<Status> { if name in t then Some(t[name]) else None }

  function Put(t: Table, name: string, s: Option<Status>): Table {
    match s case None => t case Some(status) => t[name := status]
  }

  /** The selections by weight made when a model is tried: over its chat channels or, without any, over all that serve it. */
  function OfferCalls(u: Setup, model: string): seq<SwrrFairness.Call> {
    CandidateRuns.CallsOf(u.session, u.channels, model, if Matched(u.channels, model, "chat") == [] then "" else "chat")
  }

  /** The breaker event behind an entry, and the channel it concerns. */
  function EventOf(e: Entry, now: int): Option<(string, BreakerRuns.Event)> {
    match e
    case Asked(ch, _) => Some((ch.name, BreakerRuns.Asked(now)))
    case GoodRecord(name) => Some((name, BreakerRuns.Succeeded(now)))
    case BadRecord(name) => Some((name, BreakerRuns.Failed(now)))
    case _ => None
  }

  /** What an entry does. */
  function Played(u: Setup, w: World, e: Entry): World {
    var next := match EventOf(e, u.now(w.readings))
      case Some((name, event)) =>
        w.(breakers := Put(w.breakers, name, BreakerRuns.Apply(u.settings, At(w.breakers, name), event)),
           readings := w.readings + 1)
      case None =>
        if e.Tried? then w.(weights := SwrrFairness.After(w.weights, OfferCalls(u, e.model)))
        else if e.Called? then w.(calls := w.calls + 1)
        else w;
    next.(log := w.log + [e])
  }

  /** Is the entry what must be noted here? */
  predicate Right(u: Setup, mode: Mode, w: World, e: Entry) {
    match e
    case Tried(model, offered) =>
      offered == Candidates(u.session, u.channels, w.weights, model,
                            if Matched(u.channels, model, "chat") == [] then "" else "chat").0
    case Asked(ch, granted) =>
      granted == BreakerRuns.Granted(u.settings, At(w.breakers, ch.name), BreakerRuns.Asked(u.now(w.readings)))
    case GoodRecord(_) => w.calls > 0 && DispatchRuns.Serves(u.upstream, mode, w.calls - 1)
    case BadRecord(_) => w.calls > 0 && Fails(u.upstream, mode, w.calls - 1)
    case _ => true
  }

  function Replayed(u: Setup, w: World, es: seq<Entry>): World {
    if es == [] then w else Played(u, Replayed(u, w, es[..|es| - 1]), es[|es| - 1])
  }

  predicate AllRight(u: Setup, mode: Mode, w: World, es: seq<Entry>) {
    es == [] || (AllRight(u, mode, w, es[..|es| - 1]) && Right(u, mode, Replayed(u, w, es[..|es| - 1]), es[|es| - 1]))
  }

  /** `es` leads from `w` to `end`, each entry as it must be. */
  predicate Leads(u: Setup, mode: Mode, w: World, es: seq<Entry>, end: World) {
    AllRight(u, mode, w, es) && Replayed(u, w, es) == end && end.log == w.log + es
  }

  // ---- Runs can be put together ----

  lemma LeadsNowhere(u: Setup, mode: Mode, w: World)
    ensures Leads(u, mode, w, [], w)
  {
  }

  lemma LeadsOn(u: Setup, mode: Mode, w: World, es: seq<Entry>, mid: World, e: Entry)
    requires Leads(u, mode, w, es, mid) && Right(u, mode, mid, e)
    ensures Leads(u, mode, w, es + [e], Played(u, mid, e))
  {
    assert (es + [e])[..|es|] == es;
    hide Right;
    PlayedNotes(u, mid, e);
  }

  lemma PlayedNotes(u: Setup, w: World, e: Entry)
    ensures Played(u, w, e).log == w.log + [e]
  {
  }

  lemma {:induction false} LeadsFurther(u: Setup, mode: Mode, w: World, a: seq<Entry>, mid: World, b: seq<Entry>, end: World)
    requires Leads(u, mode, w, a, mid) && Leads(u, mode, mid, b, end)
    ensures Leads(u, mode, w, a + b, end)
    decreases |b|
  {
    hide Right, Played;
    if b == [] {
      assert a + b == a;
    } else {
      var front, last := b[..|b| - 1], b[|b| - 1];
      var before := Replayed(u, mid, front);
      ReplayedNotes(u, mid, front);
      LeadsFurther(u, mode, w, a, mid, front, before);
      LeadsOn(u, mode, w, a + front, before, last);
      assert a + b == (a + front) + [last];
    }
  }

  lemma {:induction false} ReplayedNotes(u: Setup, w: World, es: seq<Entry>)
    ensures Replayed(u, w, es).log == w.log + es
  {
    hide Played;
    if es != [] {
      ReplayedNotes(u, w, es[..|es| - 1]);
      PlayedNotes(u, Replayed(u, w, es[..|es| - 1]), es[|es| - 1]);
    }
  }

  // ---- The steps of a run ----

  lemma TriedPlays(u: Setup, mode: Mode, w: World, model: string)
    ensures var (cands, weights) := Offered(u, w.weights, model);
            && Played(u, w, Tried(model, cands)) == w.(weights := weights).Note(Tried(model, cands))
            && Right(u, mode, w, Tried(model, cands))
  {
    hide SwrrFairness.After, CandidateRuns.CallsOf;
    var chat := Candidates(u.session, u.channels, w.weights, model, "chat");
    CandidateRuns.CandidatesAreCalls(u.session, u.channels, w.weights, model, "chat");
    CandidateRuns.CandidatesAreCalls(u.session, u.channels, w.weights, model, "");
    CandidatesOrderTheMatched(u.session, u.channels, w.weights, model, "chat");
    EmptyByMultiset(chat.0, Matched(u.channels, model, "chat"));
  }

  lemma EmptyByMultiset(a: seq<Channel>, b: seq<Channel>)
    requires multiset(a) == multiset(b)
    ensures a == [] <==> b == []
  {
    assert |multiset(a)| == |a| && |multiset(b)| == |b|;
  }

  lemma AskPlays(u: Setup, mode: Mode, w: World, ch: Channel)
    ensures var (asked, granted) := AskBreaker(u, w, ch);
            asked == Played(u, w, Asked(ch, granted)) && Right(u, mode, w, Asked(ch, granted))
  {
  }

  lemma CallPlays(u: Setup, w: World, ch: Channel)
    ensures w.(calls := w.calls + 1).Note(Called(ch)) == Played(u, w, Called(ch))
    ensures w.Note(Unsupported(ch)) == Played(u, w, Unsupported(ch))
  {
  }

  lemma RecordPlays(u: Setup, mode: Mode, w: World, name: string)
    requires w.calls > 0
    ensures OutcomeOf(u.upstream, mode, w.calls - 1) == Served ==>
              RecordGood(u, w, name) == Played(u, w, GoodRecord(name)) && Right(u, mode, w, GoodRecord(name))
    ensures OutcomeOf(u.upstream, mode, w.calls - 1) == Failed ==>
              RecordBad(u, w, name) == Played(u, w, BadRecord(name)) && Right(u, mode, w, BadRecord(name))
  {
    OutcomeMeans(u.upstream, mode, w.calls - 1);
    hide OutcomeOf, DispatchRuns.Serves, Fails;
  }

  lemma {:induction false} AttemptsReplay(u: Setup, mode: Mode, w: World, cands: seq<Channel>, names: seq<string>,
                                          last: Option<Fault>) returns (es: seq<Entry>)
    ensures Leads(u, mode, w, es, Attempts(u, mode, w, cands, names, last).world)
    decreases |cands|
  {
    hide Leads, Played, Right, OutcomeOf, AskBreaker, RecordGood, RecordBad;
    LeadsNowhere(u, mode, w);
    if cands == [] {
      return [];
    }
    var ch := cands[0];
    var (asked, granted) := AskBreaker(u, w, ch);
    AskPlays(u, mode, w, ch);
    AskKeepsCalls(u, w, ch);
    LeadsOn(u, mode, w, [], w, Asked(ch, granted));
    es := [] + [Asked(ch, granted)];
    var rest: seq<Entry>;
    if !granted {
      rest := AttemptsReplay(u, mode, asked, cands[1..], names, last);
      LeadsFurther(u, mode, w, es, asked, rest, Attempts(u, mode, w, cands, names, last).world);
      return es + rest;
    }
    CallPlays(u, asked, ch);
    if ch.ptype !in u.providers {
      var next := asked.Note(Unsupported(ch));
      AnyIsRight(u, mode, asked, ch);
      LeadsOn(u, mode, w, es, asked, Unsupported(ch));
      es := es + [Unsupported(ch)];
      rest := AttemptsReplay(u, mode, next, cands[1..], names, Some(UnsupportedProvider(ch.name)));
      LeadsFurther(u, mode, w, es, next, rest, Attempts(u, mode, w, cands, names, last).world);
      return es + rest;
    }
    var called := asked.(calls := w.calls + 1).Note(Called(ch));
    AnyIsRight(u, mode, asked, ch);
    LeadsOn(u, mode, w, es, asked, Called(ch));
    es := es + [Called(ch)];
    RecordPlays(u, mode, called, ch.name);
    match OutcomeOf(u.upstream, mode, w.calls)
    case Cancelled =>
    case Served =>
      LeadsOn(u, mode, w, es, called, GoodRecord(ch.name));
      es := es + [GoodRecord(ch.name)];
    case Failed =>
      var next := RecordBad(u, called, ch.name);
      LeadsOn(u, mode, w, es, called, BadRecord(ch.name));
      es := es + [BadRecord(ch.name)];
      rest := AttemptsReplay(u, mode, next, cands[1..], names + [ch.name], Some(UpstreamFault(w.calls)));
      LeadsFurther(u, mode, w, es, next, rest, Attempts(u, mode, w, cands, names, last).world);
      es := es + rest;
  }

  lemma AskKeepsCalls(u: Setup, w: World, ch: Channel)
    ensures AskBreaker(u, w, ch).0.calls == w.calls
  {
  }

  lemma AnyIsRight(u: Setup, mode: Mode, w: World, ch: Channel)
    ensures Right(u, mode, w, Called(ch)) && Right(u, mode, w, Unsupported(ch))
  {
  }

  /**
   * Every run, from any state, is what its own log says, replayed: the weights are those of the selections of the
   * models tried, the breakers have met the asks and records noted, each at its reading of the clock, and each
   * offer, grant and record is the one that state and upstream call for.
   */
  lemma {:induction false} RunReplays(u: Setup, mode: Mode, w: World, model: string, chain: seq<string>, trail: seq<string>)
    returns (es: seq<Entry>)
    ensures Leads(u, mode, w, es, Dispatched(u, mode, w, model, chain, trail).0)
    decreases MAX_FALLBACK_DEPTH - |ChainSoFar(chain, model)|
  {
    hide Leads, Played, Right, Attempts, Offered, NextChain, FallbackOf, Trail.Format;
    var (cands, weights) := Offered(u, w.weights, model);
    var w1 := w.(weights := weights).Note(Tried(model, cands));
    LeadsNowhere(u, mode, w);
    TriedPlays(u, mode, w, model);
    LeadsOn(u, mode, w, [], w, Tried(model, cands));
    es := [] + [Tried(model, cands)];
    var now := w1;
    if cands != [] {
      var tries := AttemptsReplay(u, mode, w1, cands, [], None);
      now := Attempts(u, mode, w1, cands, [], None).world;
      LeadsFurther(u, mode, w, es, w1, tries, now);
      es := es + tries;
    }
    var fb := FallbackOf(u, model);
    if fb.Some? && NextChain(u.fold, chain, model, fb.value).Ok?
       && (cands == [] || Attempts(u, mode, w1, cands, [], None).end.AllFailed?) {
      var next := NextChain(u.fold, chain, model, fb.value).value;
      NextIsLonger(u.fold, chain, model, fb.value);
      var t := if cands == [] then trail else trail + Attempts(u, mode, w1, cands, [], None).names;
      var rest := RunReplays(u, mode, now, fb.value, next, t);
      LeadsFurther(u, mode, w, es, now, rest, Dispatched(u, mode, w, model, chain, trail).0);
      es := es + rest;
    }
  }

  // ---- What that means for breakers and weights ----

  /** The events of one channel among the entries, each at its reading of the clock. */
  function EventsOf(u: Setup, readings: nat, es: seq<Entry>, name: string): seq<BreakerRuns.Event> {
    if es == [] then []
    else
      var front, last := es[..|es| - 1], es[|es| - 1];
      EventsOf(u, readings, front, name) + EventFor(last, u.now(readings + Readings(front)), name)
  }

  function EventFor(e: Entry, now: int, name: string): seq<BreakerRuns.Event> {
    match EventOf(e, now)
    case Some((other, event)) => if other == name then [event] else []
    case None => []
  }

  function Readings(es: seq<Entry>): nat {
    if es == [] then 0
    else Readings(es[..|es| - 1]) + if EventOf(es[|es| - 1], 0).Some? then 1 else 0
  }

  function AfterFrom(cfg: Settings, s: Option<Status>, es: seq<BreakerRuns.Event>): Option<Status> {
    if es == [] then s else BreakerRuns.Apply(cfg, AfterFrom(cfg, s, es[..|es| - 1]), es[|es| - 1])
  }

  lemma {:induction false} AfterFromNothing(cfg: Settings, es: seq<BreakerRuns.Event>)
    ensures AfterFrom(cfg, None, es) == BreakerRuns.After(cfg, es)
  {
    hide BreakerRuns.Apply;
    if es != [] {
      AfterFromNothing(cfg, es[..|es| - 1]);
    }
  }

  lemma PlayedBreakers(u: Setup, w: World, e: Entry, name: string)
    ensures var next := Played(u, w, e);
            match EventOf(e, u.now(w.readings))
            case None => At(next.breakers, name) == At(w.breakers, name) && next.readings == w.readings
            case Some((other, event)) =>
              && At(next.breakers, name) == (if other == name then BreakerRuns.Apply(u.settings, At(w.breakers, name), event)
                                             else At(w.breakers, name))
              && next.readings == w.readings + 1
  {
    KeepsUnknown(u.settings, u.now(w.readings));
  }

  /** Only a success of an unknown channel leaves it unknown. */
  lemma KeepsUnknown(cfg: Settings, now: int)
    ensures forall s: Option<Status>, e: BreakerRuns.Event :: BreakerRuns.Apply(cfg, s, e).None? ==> s.None?
  {
  }

  lemma AfterFromSnoc(cfg: Settings, s: Option<Status>, es: seq<BreakerRuns.Event>, e: BreakerRuns.Event)
    ensures AfterFrom(cfg, s, es + [e]) == BreakerRuns.Apply(cfg, AfterFrom(cfg, s, es), e)
    ensures es + [] == es
  {
    hide BreakerRuns.Apply;
    assert (es + [e])[..|es|] == es;
  }

  lemma ReadingsUnfold(es: seq<Entry>, now: int)
    requires es != []
    ensures Readings(es) == Readings(es[..|es| - 1]) + if EventOf(es[|es| - 1], now).Some? then 1 else 0
  {
  }

  lemma BreakersStep(u: Setup, w: World, start: Option<Status>, events: seq<BreakerRuns.Event>, e: Entry, name: string)
    requires At(w.breakers, name) == AfterFrom(u.settings, start, events)
    ensures At(Played(u, w, e).breakers, name)
         == AfterFrom(u.settings, start, events + EventFor(e, u.now(w.readings), name))
    ensures Played(u, w, e).readings == w.readings + if EventOf(e, u.now(w.readings)).Some? then 1 else 0
  {
    hide Played, At, BreakerRuns.Apply, EventOf, AfterFrom;
    PlayedBreakers(u, w, e, name);
    match EventOf(e, u.now(w.readings))
    case None => AfterFromSnoc(u.settings, start, events, BreakerRuns.Asked(0));
    case Some((_, event)) => AfterFromSnoc(u.settings, start, events, event);
  }

  predicate BreakerFollows(u: Setup, w: World, es: seq<Entry>, name: string) {
    && At(Replayed(u, w, es).breakers, name) == AfterFrom(u.settings, At(w.breakers, name), EventsOf(u, w.readings, es, name))
    && Replayed(u, w, es).readings == w.readings + Readings(es)
  }

  lemma NothingFollows(u: Setup, w: World, name: string)
    ensures BreakerFollows(u, w, [], name)
  {
  }

  lemma OneMoreFollows(u: Setup, w: World, es: seq<Entry>, name: string)
    requires es != [] && BreakerFollows(u, w, es[..|es| - 1], name)
    ensures BreakerFollows(u, w, es, name)
  {
    hide Played, At, AfterFrom, EventFor, Readings;
    var front, last := es[..|es| - 1], es[|es| - 1];
    ReadingsUnfold(es, u.now(w.readings + Readings(front)));
    BreakersStep(u, Replayed(u, w, front), At(w.breakers, name), EventsOf(u, w.readings, front, name), last, name);
  }

  /** Replayed entries leave each channel's breaker as its own events leave it. */
  lemma {:induction false} BreakersFollowLog(u: Setup, w: World, es: seq<Entry>, name: string)
    ensures BreakerFollows(u, w, es, name)
  {
    hide BreakerFollows;
    if es == [] {
      NothingFollows(u, w, name);
    } else {
      BreakersFollowLog(u, w, es[..|es| - 1], name);
      OneMoreFollows(u, w, es, name);
    }
  }

  /** The selections by weight of all models tried, in order. */
  function CallsIn(u: Setup, es: seq<Entry>): seq<SwrrFairness.Call> {
    if es == [] then []
    else CallsIn(u, es[..|es| - 1]) + if es[|es| - 1].Tried? then OfferCalls(u, es[|es| - 1].model) else []
  }

  lemma {:induction false} AfterConcat(weights: map<string, int>, a: seq<SwrrFairness.Call>, b: seq<SwrrFairness.Call>)
    ensures SwrrFairness.After(weights, a + b) == SwrrFairness.After(SwrrFairness.After(weights, a), b)
  {
    if b == [] {
      assert a + b == a;
    } else {
      assert (a + b)[..|a + b| - 1] == a + b[..|b| - 1];
      AfterConcat(weights, a, b[..|b| - 1]);
    }
  }

  /** Replayed entries leave the weights that the selections of their models leave. */
  lemma {:induction false} WeightsFollowLog(u: Setup, w: World, es: seq<Entry>)
    ensures Replayed(u, w, es).weights == SwrrFairness.After(w.weights, CallsIn(u, es))
  {
    hide OfferCalls;
    if es != [] {
      var front, last := es[..|es| - 1], es[|es| - 1];
      WeightsFollowLog(u, w, front);
      AfterConcat(w.weights, CallsIn(u, front), if last.Tried? then OfferCalls(u, last.model) else []);
    }
  }

  lemma {:induction false} RightAt(u: Setup, mode: Mode, w: World, es: seq<Entry>, i: nat)
    requires AllRight(u, mode, w, es) && i < |es|
    ensures Right(u, mode, Replayed(u, w, es[..i]), es[i])
  {
    hide Right;
    if i < |es| - 1 {
      RightAt(u, mode, w, es[..|es| - 1], i);
      assert es[..|es| - 1][..i] == es[..i];
    }
  }

  /** Would the channel be granted, if asked next, as its events so far have left its breaker? */
  predicate Grants(u: Setup, w: World, before: seq<Entry>, name: string) {
    BreakerRuns.Granted(u.settings,
      AfterFrom(u.settings, At(w.breakers, name), EventsOf(u, w.readings, before, name)),
      BreakerRuns.Asked(u.now(w.readings + Readings(before))))
  }

  lemma RightGrant(u: Setup, mode: Mode, w: World, e: Entry)
    requires Right(u, mode, w, e) && e.Asked?
    ensures e.granted <==> BreakerRuns.Granted(u.settings, At(w.breakers, e.channel.name), BreakerRuns.Asked(u.now(w.readings)))
  {
    hide At, BreakerRuns.Granted;
  }

  lemma GrantAfter(u: Setup, mode: Mode, w: World, before: seq<Entry>, e: Entry)
    requires Right(u, mode, Replayed(u, w, before), e) && e.Asked?
    ensures e.granted <==> Grants(u, w, before, e.channel.name)
  {
    hide At, AfterFrom, EventsOf, Readings, BreakerRuns.Granted, Replayed, Right;
    BreakersFollowLog(u, w, before, e.channel.name);
    RightGrant(u, mode, Replayed(u, w, before), e);
  }

  lemma {:induction false} AllGrantsFit(u: Setup, mode: Mode, w: World, es: seq<Entry>, i: nat)
    requires AllRight(u, mode, w, es) && i < |es| && es[i].Asked?
    ensures es[i].granted <==> Grants(u, w, es[..i], es[i].channel.name)
  {
    hide Right, Replayed, Grants;
    if i < |es| - 1 {
      AllGrantsFit(u, mode, w, es[..|es| - 1], i);
      assert es[..|es| - 1][..i] == es[..i];
    } else {
      GrantAfter(u, mode, w, es[..i], es[i]);
    }
  }

  /**
   * Over a whole request: a channel is granted exactly when its breaker, after all that was asked and recorded of
   * it before, grants; and the breaker ends as those events leave it.
   */
  lemma RunFollowsBreakers(u: Setup, mode: Mode, w: World, model: string, name: string)
    ensures var end := Dispatched(u, mode, w, model, [], []).0;
            && w.log <= end.log
            && var es := end.log[|w.log|..];
               && At(end.breakers, name) == AfterFrom(u.settings, At(w.breakers, name), EventsOf(u, w.readings, es, name))
               && forall i: nat :: i < |es| && es[i].Asked? ==> (es[i].granted <==> Grants(u, w, es[..i], es[i].channel.name))
  {
    hide Dispatched, At, AfterFrom, EventsOf, Readings, Replayed, AllRight, Grants;
    var es := RunReplays(u, mode, w, model, [], []);
    var end := Dispatched(u, mode, w, model, [], []).0;
    assert end.log[|w.log|..] == es;
    BreakersFollowLog(u, w, es, name);
    forall i: nat | i < |es| && es[i].Asked? ensures es[i].granted <==> Grants(u, w, es[..i], es[i].channel.name) {
      AllGrantsFit(u, mode, w, es, i);
    }
  }

  /** Over a whole request: what each model is offered follows from the weights the models before it have left. */
  lemma RunFollowsWeights(u: Setup, mode: Mode, w: World, model: string)
    ensures var end := Dispatched(u, mode, w, model, [], []).0;
            && w.log <= end.log
            && var es := end.log[|w.log|..];
               && end.weights == SwrrFairness.After(w.weights, CallsIn(u, es))
               && forall i :: 0 <= i < |es| && es[i].Tried? ==>
                    es[i].offered == Candidates(u.session, u.channels, SwrrFairness.After(w.weights, CallsIn(u, es[..i])),
                      es[i].model, if Matched(u.channels, es[i].model, "chat") == [] then "" else "chat").0
  {
    hide Dispatched, Replayed, CallsIn, Candidates, Matched, SwrrFairness.After;
    var es := RunReplays(u, mode, w, model, [], []);
    var end := Dispatched(u, mode, w, model, [], []).0;
    assert end.log[|w.log|..] == es;
    WeightsFollowLog(u, w, es);
    forall i | 0 <= i < |es| && es[i].Tried?
      ensures es[i].offered == Candidates(u.session, u.channels, SwrrFairness.After(w.weights, CallsIn(u, es[..i])),
                es[i].model, if Matched(u.channels, es[i].model, "chat") == [] then "" else "chat").0
    {
      RightAt(u, mode, w, es, i);
      WeightsFollowLog(u, w, es[..i]);
    }
  }
}
