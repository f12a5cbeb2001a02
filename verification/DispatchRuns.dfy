/** The laws every run obeys, read off its log. */
module DispatchRuns {
  import opened Common
  import opened Channels
  import opened CircuitBreaking
  import opened Retrieval
  import opened Dispatching
  import Trail

  function Front(log: seq<Entry>): seq<Entry>
    requires log != []
  {
    log[..|log| - 1]
  }

  function Last(log: seq<Entry>): Entry
    requires log != []
  {
    log[|log| - 1]
  }

  /** Models tried so far, in order. */
  function Models(log: seq<Entry>): seq<string> {
    if log == [] then []
    else Models(Front(log)) + if Last(log).Tried? then [Last(log).model] else []
  }

  /** Names of all channels called so far, in order. */
  function Calls(log: seq<Entry>): seq<string> {
    if log == [] then []
    else Calls(Front(log)) + if Last(log).Called? then [Last(log).channel.name] else []
  }

  /** The candidates of the model being tried. */
  function CurrentOffer(log: seq<Entry>): seq<Channel> {
    if log == [] then []
    else if Last(log).Tried? then Last(log).offered
    else CurrentOffer(Front(log))
  }

  function CurrentModel(log: seq<Entry>): string {
    if log == [] then ""
    else if Last(log).Tried? then Last(log).model
    else CurrentModel(Front(log))
  }

  /** Channels whose breaker has been asked for the model being tried. */
  function CurrentAsked(log: seq<Entry>): seq<Channel> {
    if log == [] || Last(log).Tried? then []
    else CurrentAsked(Front(log)) + if Last(log).Asked? then [Last(log).channel] else []
  }

  /** Channels called for the model being tried. */
  function CurrentCalls(log: seq<Entry>): seq<Channel> {
    if log == [] || Last(log).Tried? then []
    else CurrentCalls(Front(log)) + if Last(log).Called? then [Last(log).channel] else []
  }

  /** No call awaits its record and no granted channel awaits its call. */
  predicate Settled(log: seq<Entry>) {
    log == [] || !(Last(log).Called? || (Last(log).Asked? && Last(log).granted))
  }

  predicate Exhausted(log: seq<Entry>) {
    Settled(log) && CurrentAsked(log) == CurrentOffer(log)
  }

  /** May `e` come next? */
  predicate Follows(u: Setup, log: seq<Entry>, e: Entry) {
    match e
    case Tried(model, offered) =>
      && (log != [] ==> Exhausted(log))
      && (forall i :: 0 <= i < |Models(log)| ==> u.fold(Models(log)[i]) != u.fold(model))
      && ByPriority(offered)
      && multiset(offered) == multiset(
           if Matched(u.channels, model, "chat") != [] then Matched(u.channels, model, "chat")
           else Matched(u.channels, model, ""))
    case Asked(ch, _) => Settled(log) && CurrentAsked(log) + [ch] <= CurrentOffer(log)
    case Unsupported(ch) => log != [] && Last(log) == Asked(ch, true) && ch.ptype !in u.providers
    case Called(ch) => log != [] && Last(log) == Asked(ch, true) && ch.ptype in u.providers
    case GoodRecord(name) => log != [] && Last(log).Called? && Last(log).channel.name == name
    case BadRecord(name) => log != [] && Last(log).Called? && Last(log).channel.name == name
  }

  predicate Lawful(u: Setup, log: seq<Entry>) {
    log == [] || (Lawful(u, Front(log)) && Follows(u, Front(log), Last(log)))
  }

  predicate NoneServed(log: seq<Entry>) {
    forall i :: 0 <= i < |log| ==> !log[i].GoodRecord?
  }

  lemma Append(log: seq<Entry>, e: Entry)
    ensures Front(log + [e]) == log && Last(log + [e]) == e
  {
  }

  // ---- What the upstream's replies mean ----

  predicate HealthyStart(stream: StreamReply) {
    stream.Opened? && stream.first == Arrived && stream.events != [] && !stream.events[0].failed
  }

  /** Call number `k` serves the request. */
  predicate Serves(up: Upstream, mode: Mode, k: nat) {
    match mode
    case Chat => up.answers(k)
    case Stream => HealthyStart(up.streams(k))
  }

  /** Call number `k` ends with the caller's context. */
  predicate Cancels(up: Upstream, mode: Mode, k: nat) {
    mode == Stream && up.streams(k).Opened? && up.streams(k).first == ContextDone
  }

  /** Call number `k` fails: no answer, or a stream refused, late, empty or beginning with an error. */
  predicate Fails(up: Upstream, mode: Mode, k: nat) {
    match mode
    case Chat => !up.answers(k)
    case Stream =>
      match up.streams(k)
      case Refused => true
      case Opened(events, first) => first == TimedOut || (first == Arrived && (events == [] || events[0].failed))
  }

  lemma OutcomeMeans(up: Upstream, mode: Mode, k: nat)
    ensures OutcomeOf(up, mode, k) == Served <==> Serves(up, mode, k)
    ensures OutcomeOf(up, mode, k) == Cancelled <==> Cancels(up, mode, k)
    ensures OutcomeOf(up, mode, k) == Failed <==> Fails(up, mode, k)
  {
  }

  // ---- The attempts at one model keep the laws ----

  /** What the attempts at one model leave, `before` being the log they start from. */
  ghost predicate AttemptsGood(u: Setup, mode: Mode, before: seq<Entry>, names: seq<string>, t: Attempted) {
    var log := t.world.log;
    && Lawful(u, log)
    && Models(log) == Models(before)
    && names <= t.names
    && (match t.end
        case AllFailed(_) =>
          && Exhausted(log)
          && NoneServed(log)
          && Calls(log) == Calls(before) + t.names[|names|..]
          && |Calls(log)| == t.world.calls
        case ServedBy(ch, call) =>
          && |log| >= 2
          && OutcomeOf(u.upstream, mode, call) == Served
          && call + 1 == |Calls(log)| == t.world.calls
          && Last(log) == GoodRecord(ch.name)
          && Last(Front(log)) == Called(ch)
          && NoneServed(Front(log))
          && Calls(log) == Calls(before) + t.names[|names|..] + [ch.name]
        case Stopped => mode == Stream && log != [] && Last(log).Called? && NoneServed(log))
  }

  lemma OneStep(u: Setup, log: seq<Entry>, e: Entry)
    requires Lawful(u, log) && Follows(u, log, e)
    ensures Lawful(u, log + [e])
    ensures Models(log + [e]) == Models(log) + if e.Tried? then [e.model] else []
    ensures Calls(log + [e]) == Calls(log) + if e.Called? then [e.channel.name] else []
    ensures CurrentOffer(log + [e]) == if e.Tried? then e.offered else CurrentOffer(log)
    ensures CurrentAsked(log + [e])
         == if e.Tried? then [] else CurrentAsked(log) + if e.Asked? then [e.channel] else []
    ensures Settled(log + [e]) <==> !(e.Called? || (e.Asked? && e.granted))
    ensures NoneServed(log) && !e.GoodRecord? ==> NoneServed(log + [e])
  {
    Append(log, e);
  }

  /** The three entries of one call: asked and granted, called, recorded. */
  lemma CallSteps(u: Setup, log: seq<Entry>, ch: Channel, record: Entry)
    requires Lawful(u, log) && Settled(log) && CurrentAsked(log) + [ch] <= CurrentOffer(log)
    requires ch.ptype in u.providers
    requires record == GoodRecord(ch.name) || record == BadRecord(ch.name)
    ensures var called := log + [Asked(ch, true)] + [Called(ch)];
            && Lawful(u, called) && Models(called) == Models(log) && Calls(called) == Calls(log) + [ch.name]
            && (NoneServed(log) ==> NoneServed(called))
    ensures var run := log + [Asked(ch, true)] + [Called(ch)] + [record];
            && Lawful(u, run) && Models(run) == Models(log) && Calls(run) == Calls(log) + [ch.name] && Settled(run)
            && CurrentOffer(run) == CurrentOffer(log) && CurrentAsked(run) == CurrentAsked(log) + [ch]
            && (NoneServed(log) && record.BadRecord? ==> NoneServed(run))
  {
    hide Lawful, Models, Calls, NoneServed, CurrentOffer, CurrentAsked, Exhausted, ByPriority;
    OneStep(u, log, Asked(ch, true));
    var asked := log + [Asked(ch, true)];
    OneStep(u, asked, Called(ch));
    OneStep(u, asked + [Called(ch)], record);
  }

  lemma SkipSteps(u: Setup, log: seq<Entry>, ch: Channel)
    requires Lawful(u, log) && Settled(log) && CurrentAsked(log) + [ch] <= CurrentOffer(log)
    ensures var run := log + [Asked(ch, false)];
            && Lawful(u, run) && Models(run) == Models(log) && Calls(run) == Calls(log) && Settled(run)
            && CurrentOffer(run) == CurrentOffer(log) && CurrentAsked(run) == CurrentAsked(log) + [ch]
            && (NoneServed(log) ==> NoneServed(run))
    ensures var run := log + [Asked(ch, true)] + [Unsupported(ch)];
            ch.ptype !in u.providers ==>
              && Lawful(u, run) && Models(run) == Models(log) && Calls(run) == Calls(log) && Settled(run)
              && CurrentOffer(run) == CurrentOffer(log) && CurrentAsked(run) == CurrentAsked(log) + [ch]
              && (NoneServed(log) ==> NoneServed(run))
  {
    OneStep(u, log, Asked(ch, false));
    OneStep(u, log, Asked(ch, true));
    if ch.ptype !in u.providers {
      OneStep(u, log + [Asked(ch, true)], Unsupported(ch));
    }
  }

  lemma Widen(u: Setup, mode: Mode, before: seq<Entry>, later: seq<Entry>, names: seq<string>, more: seq<string>, t: Attempted)
    requires AttemptsGood(u, mode, later, names + more, t)
    requires Models(later) == Models(before) && Calls(later) == Calls(before) + more
    ensures AttemptsGood(u, mode, before, names, t)
  {
    hide Lawful, Models, Calls, NoneServed, Exhausted, OutcomeOf, Last, Front;
    Suffix(names, more, t.names);
    Regrouped(Calls(before), more, t.names[|names + more|..], if t.end.ServedBy? then [t.end.channel.name] else []);
  }

  lemma Suffix(names: seq<string>, more: seq<string>, all: seq<string>)
    requires names + more <= all
    ensures names <= all && all[|names|..] == more + all[|names + more|..]
  {
    assert all == (names + more) + all[|names + more|..];
  }

  lemma Regrouped(a: seq<string>, b: seq<string>, c: seq<string>, d: seq<string>)
    ensures a + (b + c) == (a + b) + c && a + (b + c) + d == (a + b) + c + d
  {
  }

  lemma NothingLeft(u: Setup, mode: Mode, w: World, names: seq<string>, last: Option<Fault>)
    requires Lawful(u, w.log) && NoneServed(w.log) && Exhausted(w.log) && w.calls == |Calls(w.log)|
    ensures AttemptsGood(u, mode, w.log, names, Attempted(w, names, AllFailed(last)))
  {
    hide Lawful, Models, Calls, NoneServed, Exhausted;
    assert names[|names|..] == [];
  }

  /** A call that ends the loop: served and recorded, or cancelled with no record. */
  lemma LastCall(u: Setup, mode: Mode, w: World, ch: Channel, names: seq<string>)
    requires Lawful(u, w.log) && Settled(w.log) && NoneServed(w.log) && w.calls == |Calls(w.log)|
    requires CurrentAsked(w.log) + [ch] <= CurrentOffer(w.log) && ch.ptype in u.providers
    requires AskBreaker(u, w, ch).1
    ensures var called := AskBreaker(u, w, ch).0.(calls := w.calls + 1).Note(Called(ch));
            && (OutcomeOf(u.upstream, mode, w.calls) == Served ==>
                  AttemptsGood(u, mode, w.log, names,
                    Attempted(RecordGood(u, called, ch.name), names, ServedBy(ch, w.calls))))
            && (OutcomeOf(u.upstream, mode, w.calls) == Cancelled ==>
                  AttemptsGood(u, mode, w.log, names, Attempted(called, names, Stopped)))
  {
    hide Lawful, Settled, CurrentAsked, CurrentOffer, Models, Calls, NoneServed, OutcomeOf, AskNamed, SucceedNamed, FailNamed;
    assert names[|names|..] == [];
    CallSteps(u, w.log, ch, GoodRecord(ch.name));
    CancelledIsStream(u.upstream, mode, w.calls);
    var asked := w.log + [Asked(ch, true)];
    Append(asked, Called(ch));
    Append(asked + [Called(ch)], GoodRecord(ch.name));
  }

  lemma {:induction false} AttemptsAreLawful(u: Setup, mode: Mode, w: World, cands: seq<Channel>, names: seq<string>,
                                             last: Option<Fault>)
    requires Lawful(u, w.log) && Settled(w.log) && NoneServed(w.log) && w.calls == |Calls(w.log)|
    requires CurrentAsked(w.log) + cands == CurrentOffer(w.log)
    ensures AttemptsGood(u, mode, w.log, names, Attempts(u, mode, w, cands, names, last))
    decreases |cands|
  {
    hide Lawful, Settled, CurrentAsked, CurrentOffer, Models, Calls, NoneServed, OutcomeOf, AskNamed, SucceedNamed, FailNamed,
         AttemptsGood;
    if cands == [] {
      assert Exhausted(w.log);
      NothingLeft(u, mode, w, names, last);
    } else {
      var ch := cands[0];
      var rest := cands[1..];
      var (asked, granted) := AskBreaker(u, w, ch);
      assert CurrentAsked(w.log) + [ch] + rest == CurrentOffer(w.log);
      assert names + [] == names;
      SkipSteps(u, w.log, ch);
      if !granted {
        AttemptsAreLawful(u, mode, asked, rest, names, last);
        Widen(u, mode, w.log, asked.log, names, [], Attempts(u, mode, w, cands, names, last));
      } else if ch.ptype !in u.providers {
        var next := asked.Note(Unsupported(ch));
        AttemptsAreLawful(u, mode, next, rest, names, Some(UnsupportedProvider(ch.name)));
        Widen(u, mode, w.log, next.log, names, [], Attempts(u, mode, w, cands, names, last));
      } else if OutcomeOf(u.upstream, mode, w.calls) == Failed {
        var next := RecordBad(u, asked.(calls := w.calls + 1).Note(Called(ch)), ch.name);
        CallSteps(u, w.log, ch, BadRecord(ch.name));
        AttemptsAreLawful(u, mode, next, rest, names + [ch.name], Some(UpstreamFault(w.calls)));
        Widen(u, mode, w.log, next.log, names, [ch.name], Attempts(u, mode, w, cands, names, last));
      } else {
        LastCall(u, mode, w, ch, names);
      }
    }
  }

  lemma CancelledIsStream(up: Upstream, mode: Mode, call: nat)
    ensures OutcomeOf(up, mode, call) == Cancelled ==> mode == Stream
  {
  }

  // ---- Whole runs ----

  predicate DistinctModels(fold: string -> string, models: seq<string>) {
    forall i, j :: 0 <= i < j < |models| ==> fold(models[i]) != fold(models[j])
  }

  /** What a run leaves, whatever its result. */
  ghost predicate RunGood(u: Setup, mode: Mode, w: World, r: Reply) {
    && Lawful(u, w.log)
    && 1 <= |Models(w.log)| <= MAX_FALLBACK_DEPTH
    && DistinctModels(u.fold, Models(w.log))
    && (match r
        case Answer(trail, ch, call) =>
          && |w.log| >= 2
          && Last(w.log) == GoodRecord(ch.name)
          && Last(Front(w.log)) == Called(ch)
          && NoneServed(Front(w.log))
          && Calls(w.log) != []
          && trail == Trail.Format(Calls(w.log))
          && Serves(u.upstream, mode, call)
          && call + 1 == |Calls(w.log)|
        case Error(_) => Exhausted(w.log) && NoneServed(w.log)
        case ContextCancelled => mode == Stream && Last(w.log).Called? && NoneServed(w.log))
  }

  /** A run may continue from `w` at `model`: the laws hold so far and the chain is the models tried. */
  ghost predicate MayContinue(u: Setup, w: World, model: string, chain: seq<string>, trail: seq<string>) {
    && Lawful(u, w.log)
    && NoneServed(w.log)
    && (w.log != [] ==> Exhausted(w.log))
    && ChainSoFar(chain, model) == Models(w.log) + [model]
    && |Models(w.log)| < MAX_FALLBACK_DEPTH
    && DistinctModels(u.fold, Models(w.log) + [model])
    && Calls(w.log) == trail
    && w.calls == |trail|
  }

  lemma OfferFollows(u: Setup, w: World, model: string)
    requires w.log != [] ==> Exhausted(w.log)
    requires DistinctModels(u.fold, Models(w.log) + [model])
    ensures Follows(u, w.log, Tried(model, Offered(u, w.weights, model).0))
  {
    var chat := Candidates(u.session, u.channels, w.weights, model, "chat");
    CandidatesOrderTheMatched(u.session, u.channels, w.weights, model, "chat");
    CandidatesOrderTheMatched(u.session, u.channels, chat.1, model, "");
    var tried := Models(w.log) + [model];
    assert forall i :: 0 <= i < |Models(w.log)| ==> tried[i] == Models(w.log)[i] && tried[|tried| - 1] == model;
    assert multiset(chat.0) == multiset(Matched(u.channels, model, "chat"));
    assert chat.0 == [] <==> |multiset(chat.0)| == 0;
    assert Matched(u.channels, model, "chat") == [] <==> |multiset(Matched(u.channels, model, "chat"))| == 0;
  }

  lemma NextModelMayFollow(u: Setup, w: World, model: string, chain: seq<string>, fb: string, trail: seq<string>)
    requires Lawful(u, w.log) && NoneServed(w.log) && w.log != [] && Exhausted(w.log)
    requires ChainSoFar(chain, model) == Models(w.log) && DistinctModels(u.fold, Models(w.log))
    requires NextChain(u.fold, chain, model, fb).Ok?
    requires Calls(w.log) == trail && w.calls == |trail|
    ensures MayContinue(u, w, fb, NextChain(u.fold, chain, model, fb).value, trail)
  {
    var models := Models(w.log);
    forall i | 0 <= i < |models|
      ensures u.fold(models[i]) != u.fold(fb)
    {
    }
  }

  /** Where a run stands once it has been offered the candidates of `model`. */
  ghost predicate Offering(u: Setup, w: World, model: string, chain: seq<string>, trail: seq<string>, cands: seq<Channel>) {
    && Lawful(u, w.log) && NoneServed(w.log) && Settled(w.log) && w.log != []
    && CurrentAsked(w.log) + cands == CurrentOffer(w.log)
    && ChainSoFar(chain, model) == Models(w.log) && DistinctModels(u.fold, Models(w.log))
    && 1 <= |Models(w.log)| <= MAX_FALLBACK_DEPTH
    && Calls(w.log) == trail && w.calls == |trail|
  }

  lemma OfferIsMade(u: Setup, w: World, model: string, chain: seq<string>, trail: seq<string>)
    requires MayContinue(u, w, model, chain, trail)
    ensures var (cands, weights) := Offered(u, w.weights, model);
            var w1 := w.(weights := weights).Note(Tried(model, cands));
            Offering(u, w1, model, chain, trail, cands) && (cands == [] ==> Exhausted(w1.log))
  {
    hide Lawful, Follows, CurrentAsked, CurrentOffer, Models, Calls, NoneServed, Offered, Settled, DistinctModels;
    var (cands, weights) := Offered(u, w.weights, model);
    OfferFollows(u, w, model);
    OneStep(u, w.log, Tried(model, cands));
  }

  lemma {:induction false} RunIsGood(u: Setup, mode: Mode, w: World, model: string, chain: seq<string>, trail: seq<string>)
    requires MayContinue(u, w, model, chain, trail)
    ensures var r := Dispatched(u, mode, w, model, chain, trail);
            RunGood(u, mode, r.0, r.1)
    decreases MAX_FALLBACK_DEPTH - |ChainSoFar(chain, model)|
  {
    hide Lawful, CurrentAsked, CurrentOffer, Models, Calls, NoneServed, OutcomeOf, Attempts, Offered, Settled, Exhausted,
         DistinctModels, Trail.Format, NextChain, FallbackOf, MayContinue;
    var (cands, weights) := Offered(u, w.weights, model);
    var w1 := w.(weights := weights).Note(Tried(model, cands));
    OfferIsMade(u, w, model, chain, trail);
    if cands == [] {
      if FallbackOf(u, model).Some? && NextChain(u.fold, chain, model, FallbackOf(u, model).value).Ok? {
        var fb := FallbackOf(u, model).value;
        var next := NextChain(u.fold, chain, model, fb).value;
        NextModelMayFollow(u, w1, model, chain, fb, trail);
        NextIsLonger(u.fold, chain, model, fb);
        RunIsGood(u, mode, w1, fb, next, trail);
      }
    } else {
      AttemptsAreLawful(u, mode, w1, cands, [], None);
      var t := Attempts(u, mode, w1, cands, [], None);
      assert t.names[0..] == t.names;
      match t.end
      case ServedBy(ch, call) =>
        OutcomeMeans(u.upstream, mode, call);
        assert trail + t.names + [ch.name] == Calls(t.world.log);
      case Stopped =>
      case AllFailed(_) =>
        TriedIsNotEmpty(t.world.log, model);
        if FallbackOf(u, model).Some? && NextChain(u.fold, chain, model, FallbackOf(u, model).value).Ok? {
          var fb := FallbackOf(u, model).value;
          var next := NextChain(u.fold, chain, model, fb).value;
          NextModelMayFollow(u, t.world, model, chain, fb, trail + t.names);
          NextIsLonger(u.fold, chain, model, fb);
          RunIsGood(u, mode, t.world, fb, next, trail + t.names);
        }
    }
  }

  lemma TriedIsNotEmpty(log: seq<Entry>, model: string)
    requires Models(log) != []
    ensures log != []
  {
  }

  lemma NextIsLonger(fold: string -> string, chain: seq<string>, model: string, fb: string)
    requires NextChain(fold, chain, model, fb).Ok?
    ensures var next := NextChain(fold, chain, model, fb).value;
            && ChainSoFar(next, fb) == ChainSoFar(chain, model) + [fb]
            && |ChainSoFar(chain, model)| < MAX_FALLBACK_DEPTH
  {
  }

  /**
   * Every run of a request, for every configuration, breaker table, clock and upstream: it
   * keeps the laws, tries one to four models that differ ignoring case, and ends either with
   * one call served, reported with exactly the channels called, or with every offer exhausted.
   */
  lemma EveryRunIsGood(u: Setup, mode: Mode, weights: map<string, int>, breakers: CircuitBreaking.Table, readings: nat,
                       model: string)
    ensures var r := Dispatched(u, mode, World(weights, breakers, readings, 0, []), model, [], []);
            RunGood(u, mode, r.0, r.1)
  {
    RunIsGood(u, mode, World(weights, breakers, readings, 0, []), model, [], []);
  }

  predicate AllFail(up: Upstream, mode: Mode, from: nat, to: nat) {
    forall k :: from <= k < to ==> Fails(up, mode, k)
  }

  lemma FailsFromHere(up: Upstream, mode: Mode, from: nat, to: nat)
    requires Fails(up, mode, from) && AllFail(up, mode, from + 1, to)
    ensures AllFail(up, mode, from, to)
  {
  }

  lemma NoneYet(up: Upstream, mode: Mode, from: nat)
    ensures AllFail(up, mode, from, from)
  {
  }

  /** From any state: every call failed, except a last one that was served or cancelled. */
  lemma {:induction false} RunStopsAtFirstNonFailure(u: Setup, mode: Mode, w: World, model: string, chain: seq<string>,
                                                     trail: seq<string>)
    ensures var (end, r) := Dispatched(u, mode, w, model, chain, trail);
            && w.calls <= end.calls
            && (match r
                case Answer(_, _, call) =>
                  && w.calls <= call == end.calls - 1
                  && Serves(u.upstream, mode, call)
                  && AllFail(u.upstream, mode, w.calls, call)
                case Error(_) => AllFail(u.upstream, mode, w.calls, end.calls)
                case ContextCancelled =>
                  && w.calls < end.calls
                  && Cancels(u.upstream, mode, end.calls - 1)
                  && AllFail(u.upstream, mode, w.calls, end.calls - 1))
    decreases MAX_FALLBACK_DEPTH - |ChainSoFar(chain, model)|
  {
    hide Attempts, Offered, NextChain, FallbackOf, OutcomeOf, Serves, Cancels, Fails, Trail.Format;
    var (cands, weights) := Offered(u, w.weights, model);
    var w1 := w.(weights := weights).Note(Tried(model, cands));
    var t := Attempts(u, mode, w1, cands, [], None);
    AttemptsStopAtFirstNonFailure(u, mode, w1, cands, [], None);
    var fb := FallbackOf(u, model);
    if fb.Some? && NextChain(u.fold, chain, model, fb.value).Ok? {
      var next := NextChain(u.fold, chain, model, fb.value).value;
      NextIsLonger(u.fold, chain, model, fb.value);
      if cands == [] {
        RunStopsAtFirstNonFailure(u, mode, w1, fb.value, next, trail);
      } else {
        RunStopsAtFirstNonFailure(u, mode, t.world, fb.value, next, trail + t.names);
      }
    }
  }

  lemma {:induction false} AttemptsStopAtFirstNonFailure(u: Setup, mode: Mode, w: World, cands: seq<Channel>,
                                                         names: seq<string>, last: Option<Fault>)
    ensures var t := Attempts(u, mode, w, cands, names, last);
            && w.calls <= t.world.calls
            && (match t.end
                case ServedBy(_, call) =>
                  && w.calls <= call == t.world.calls - 1
                  && Serves(u.upstream, mode, call)
                  && AllFail(u.upstream, mode, w.calls, call)
                case AllFailed(_) => AllFail(u.upstream, mode, w.calls, t.world.calls)
                case Stopped =>
                  && w.calls < t.world.calls
                  && Cancels(u.upstream, mode, t.world.calls - 1)
                  && AllFail(u.upstream, mode, w.calls, t.world.calls - 1))
    decreases |cands|
  {
    hide OutcomeOf, Serves, Cancels, Fails, AskNamed, SucceedNamed, FailNamed, AllFail;
    NoneYet(u.upstream, mode, w.calls);
    OutcomeMeans(u.upstream, mode, w.calls);
    if cands != [] {
      var ch := cands[0];
      var (asked, granted) := AskBreaker(u, w, ch);
      if !granted {
        AttemptsStopAtFirstNonFailure(u, mode, asked, cands[1..], names, last);
      } else if ch.ptype !in u.providers {
        var next := asked.Note(Unsupported(ch));
        AttemptsStopAtFirstNonFailure(u, mode, next, cands[1..], names, Some(UnsupportedProvider(ch.name)));
      } else if OutcomeOf(u.upstream, mode, w.calls) == Failed {
        var next := RecordBad(u, asked.(calls := w.calls + 1).Note(Called(ch)), ch.name);
        AttemptsStopAtFirstNonFailure(u, mode, next, cands[1..], names + [ch.name], Some(UpstreamFault(w.calls)));
        var t := Attempts(u, mode, w, cands, names, last);
        var to: nat := if t.end.AllFailed? then t.world.calls else t.world.calls - 1;
        FailsFromHere(u.upstream, mode, w.calls, to);
      }
    }
  }

  /**
   * Safe fallback window: when a streamed request is answered, the stream that answers is the
   * first one whose first event arrived in time without an error. Every call before it failed
   * before any event could be forwarded, and was recorded as a failure; the serving channel
   * was recorded as a success, once, and its stamp lists exactly the channels called.
   */
  lemma FirstHealthyStreamServes(u: Setup, weights: map<string, int>, breakers: CircuitBreaking.Table, readings: nat,
                                 model: string)
    ensures var (w, r) := Dispatched(u, Stream, World(weights, breakers, readings, 0, []), model, [], []);
            r.Answer? ==>
              && HealthyStart(u.upstream.streams(r.call))
              && (forall k :: 0 <= k < r.call ==> Fails(u.upstream, Stream, k))
              && |Calls(w.log)| == r.call + 1
              && w.log != [] && Last(w.log) == GoodRecord(r.channel.name) && NoneServed(Front(w.log))
              && r.trail == Trail.Format(Calls(w.log))
  {
    EveryRunIsGood(u, Stream, weights, breakers, readings, model);
    RunStopsAtFirstNonFailure(u, Stream, World(weights, breakers, readings, 0, []), model, [], []);
  }

  // ---- What the laws mean ----

  lemma {:induction false} LawfulAt(u: Setup, log: seq<Entry>, i: nat)
    requires Lawful(u, log) && i < |log|
    ensures Lawful(u, log[..i]) && Follows(u, log[..i], log[i])
  {
    if i < |log| - 1 {
      LawfulAt(u, Front(log), i);
      assert Front(log)[..i] == log[..i];
    }
  }

  /** Each call is followed by exactly one record of its channel, and each record belongs to a call. */
  lemma CallsAndRecordsPair(u: Setup, log: seq<Entry>, i: nat)
    requires Lawful(u, log) && i < |log|
    ensures log[i].Called? && i + 1 < |log| ==>
              log[i + 1] == GoodRecord(log[i].channel.name) || log[i + 1] == BadRecord(log[i].channel.name)
    ensures log[i].GoodRecord? || log[i].BadRecord? ==>
              i > 0 && log[i - 1].Called? && log[i - 1].channel.name == log[i].name
  {
    LawfulAt(u, log, i);
    if i > 0 {
      assert Last(log[..i]) == log[i - 1];
    }
    if i + 1 < |log| {
      LawfulAt(u, log, i + 1);
      assert Last(log[..i + 1]) == log[i];
    }
  }

  /** The grant that still waits for its call. */
  function Awaiting(log: seq<Entry>): multiset<Channel> {
    if log != [] && Last(log).Asked? then multiset{Last(log).channel} else multiset{}
  }

  lemma {:induction false} AskedIsPrefixOfOffer(u: Setup, log: seq<Entry>)
    requires Lawful(u, log)
    ensures CurrentAsked(log) <= CurrentOffer(log)
  {
    if log != [] {
      hide ByPriority, Exhausted, Settled, Models;
      AskedIsPrefixOfOffer(u, Front(log));
    }
  }

  lemma CalledWasAwaited(u: Setup, log: seq<Entry>, e: Entry)
    requires Follows(u, log, e) && e.Called?
    ensures Awaiting(log) == multiset{e.channel}
  {
  }

  lemma {:induction false} CallsAreAmongAsked(u: Setup, log: seq<Entry>)
    requires Lawful(u, log)
    ensures multiset(CurrentCalls(log)) + Awaiting(log) <= multiset(CurrentAsked(log))
  {
    hide Follows;
    if log != [] {
      CallsAreAmongAsked(u, Front(log));
      if Last(log).Called? {
        CalledWasAwaited(u, Front(log), Last(log));
      }
    }
  }

  lemma {:induction false} OfferIsMatched(u: Setup, log: seq<Entry>)
    requires Lawful(u, log) && Models(log) != []
    ensures ByPriority(CurrentOffer(log))
    ensures multiset(CurrentOffer(log)) == multiset(Matched(u.channels, CurrentModel(log), "chat"))
            || multiset(CurrentOffer(log)) == multiset(Matched(u.channels, CurrentModel(log), ""))
  {
    if !Last(log).Tried? {
      OfferIsMatched(u, Front(log));
    }
  }

  lemma {:induction false} MatchedAreAmong(channels: seq<Channel>, model: string, proto: string)
    ensures multiset(Matched(channels, model, proto)) <= multiset(channels)
  {
    hide Matches;
    if channels != [] {
      var n := |channels| - 1;
      var front := channels[..n];
      MatchedAreAmong(front, model, proto);
      assert channels == front + [channels[n]];
      assert multiset(channels) == multiset(front) + multiset{channels[n]};
    }
  }

  lemma {:induction false} MatchedServe(channels: seq<Channel>, model: string, proto: string)
    ensures forall c :: c in Matched(channels, model, proto) ==> Matches(c, model, proto)
    ensures multiset(Matched(channels, model, proto)) <= multiset(channels)
  {
    hide Matches;
    MatchedAreAmong(channels, model, proto);
    if channels != [] {
      MatchedServe(channels[..|channels| - 1], model, proto);
    }
  }

  /**
   * At any moment of a run the channels called for the current model serve that model, have a
   * registered provider, were each called at most as often as they are configured, and came
   * in non-decreasing priority.
   */
  lemma {:induction false} CallsOfOneModel(u: Setup, log: seq<Entry>)
    requires Lawful(u, log) && Models(log) != []
    ensures var calls := CurrentCalls(log);
            && multiset(calls) <= multiset(u.channels)
            && ByPriority(calls)
            && forall c :: c in calls ==> SupportsModel(c, CurrentModel(log)) && c.ptype in u.providers
  {
    hide Lawful, CurrentAsked, CurrentOffer, CurrentCalls, CurrentModel, Matched, Matches, ByPriority, Models, Awaiting;
    AskedIsPrefixOfOffer(u, log);
    CallsAreAmongAsked(u, log);
    OfferIsMatched(u, log);
    CallsAreOrdered(u, log);
    CallsAreMatched(u, log, CurrentCalls(log), CurrentAsked(log), CurrentOffer(log));
  }

  lemma CallsAreMatched(u: Setup, log: seq<Entry>, calls: seq<Channel>, asked: seq<Channel>, offer: seq<Channel>)
    requires multiset(calls) <= multiset(asked) && asked <= offer
    requires exists proto :: (proto == "chat" || proto == "")
               && multiset(offer) == multiset(Matched(u.channels, CurrentModel(log), proto))
    ensures multiset(calls) <= multiset(u.channels)
    ensures forall c :: c in calls ==> SupportsModel(c, CurrentModel(log))
  {
    hide CurrentModel, Matched, SupportsModel, SupportsProtocol;
    var model := CurrentModel(log);
    var proto :| (proto == "chat" || proto == "") && multiset(offer) == multiset(Matched(u.channels, model, proto));
    MatchedServe(u.channels, model, proto);
    assert offer == asked + offer[|asked|..];
    forall c | c in calls
      ensures SupportsModel(c, model)
    {
      assert c in multiset(calls);
      assert c in multiset(Matched(u.channels, model, proto));
      assert c in Matched(u.channels, model, proto);
    }
  }

  lemma {:induction false} CallsAreOrdered(u: Setup, log: seq<Entry>)
    requires Lawful(u, log) && Models(log) != []
    ensures ByPriority(CurrentCalls(log))
    ensures forall c :: c in CurrentCalls(log) ==> c.ptype in u.providers
  {
    var front := Front(log);
    if !Last(log).Tried? {
      CallsAreOrdered(u, front);
      if Last(log).Called? {
        CallIsOrdered(u, log);
      }
    }
  }

  lemma CallIsOrdered(u: Setup, log: seq<Entry>)
    requires Lawful(u, log) && log != [] && Last(log).Called?
    requires Models(Front(log)) != []
    ensures forall c :: c in CurrentCalls(Front(log)) ==> c.priority <= Last(log).channel.priority
  {
    hide Lawful, CurrentAsked, CurrentCalls, CurrentOffer, ByPriority, Matched, Models;
    var front := Front(log);
    CalledWasJustAsked(u, log);
    AskedIsPrefixOfOffer(u, front);
    OfferIsMatched(u, front);
    CallsAreAmongAsked(u, Front(front));
    ComesAfter(CurrentCalls(front), CurrentAsked(Front(front)), Last(log).channel, CurrentOffer(front));
  }

  lemma CalledWasJustAsked(u: Setup, log: seq<Entry>)
    requires Lawful(u, log) && log != [] && Last(log).Called? && Models(Front(log)) != []
    ensures var front := Front(log);
            && front != [] && Lawful(u, front) && Lawful(u, Front(front)) && Models(Front(front)) != []
            && CurrentAsked(front) == CurrentAsked(Front(front)) + [Last(log).channel]
            && CurrentCalls(front) == CurrentCalls(Front(front))
  {
    hide CurrentAsked, CurrentCalls, Models, Front, Last, Lawful;
    LastStep(u, log);
    LastStep(u, Front(log));
    AskedUnfolds(Front(log));
  }

  lemma LastStep(u: Setup, log: seq<Entry>)
    requires Lawful(u, log) && log != []
    ensures Lawful(u, Front(log)) && Follows(u, Front(log), Last(log))
  {
    hide Follows;
  }

  lemma AskedUnfolds(log: seq<Entry>)
    requires log != [] && Last(log).Asked?
    ensures CurrentAsked(log) == CurrentAsked(Front(log)) + [Last(log).channel]
    ensures CurrentCalls(log) == CurrentCalls(Front(log)) && Models(log) == Models(Front(log))
  {
  }

  lemma ComesAfter(calls: seq<Channel>, asked: seq<Channel>, ch: Channel, offer: seq<Channel>)
    requires ByPriority(offer) && asked + [ch] <= offer && multiset(calls) <= multiset(asked)
    ensures forall c :: c in calls ==> c.priority <= ch.priority
  {
    forall c | c in calls
      ensures c.priority <= ch.priority
    {
      assert c in multiset(calls);
      assert c in asked;
      var i :| 0 <= i < |asked| && asked[i] == c;
      assert (asked + [ch])[i] == offer[i] && (asked + [ch])[|asked|] == offer[|asked|];
    }
  }
}
