/** From which model a request goes on to which, and when it may give up (internal/router/dispatcher.go). */
module DispatchEnds {
  import opened Common
  import opened Channels
  import opened CircuitBreaking
  import opened Retrieval
  import opened Dispatching
  import opened DispatchRuns
  import Trail

  /** Each model after the first is the one configured as the fallback of the model before it. */
  predicate FollowsFallbacks(u: Setup, models: seq<string>) {
    forall i: nat :: i < |models| ==> IsFallbackAt(u, models, i)
  }

  predicate IsFallbackAt(u: Setup, models: seq<string>, i: nat) {
    0 < i < |models| ==> models[i - 1] in u.fallbacks && u.fallbacks[models[i - 1]] == models[i] != ""
  }

  /** The models tried leave nowhere to go, and `why` is the reason. */
  predicate NowhereToGo(u: Setup, models: seq<string>, why: Option<Refusal>)
    requires models != []
  {
    var last := models[|models| - 1];
    if last !in u.fallbacks || u.fallbacks[last] == "" || u.fold(u.fallbacks[last]) == u.fold(last) then why == None
    else if |models| >= 4 then why == Some(DepthLimit)
    else why == Some(Cycle) && exists i :: 0 <= i < |models| && u.fold(models[i]) == u.fold(u.fallbacks[last])
  }

  /** What the last channel that was called or had no provider did wrong, while the current model was tried. */
  function FaultIn(log: seq<Entry>): Option<Fault> {
    if log == [] then None
    else
      match Last(log)
      case Tried(_, _) => None
      case Unsupported(ch) => Some(UnsupportedProvider(ch.name))
      case BadRecord(_) => if Calls(log) == [] then None else Some(UpstreamFault(|Calls(log)| - 1))
      case _ => FaultIn(Front(log))
  }

  /** The error names the last model, how many channels it offered, the last fault, and why no other model follows. */
  predicate ErrorFits(u: Setup, log: seq<Entry>, e: DispatchError) {
    && Models(log) != []
    && var models := Models(log);
       match e
       case NoUpstream(model, why) =>
         CurrentOffer(log) == [] && model == models[|models| - 1] && NowhereToGo(u, models, why)
       case AllChannelsFailed(model, count, fault, why) =>
         && model == models[|models| - 1] && count == |CurrentOffer(log)| > 0
         && fault == FaultIn(log) && NowhereToGo(u, models, why)
  }

  // ---- The last fault ----

  lemma OneMoreFault(log: seq<Entry>, e: Entry)
    ensures FaultIn(log + [e]) ==
              match e
              case Tried(_, _) => None
              case Unsupported(ch) => Some(UnsupportedProvider(ch.name))
              case BadRecord(_) => if Calls(log) == [] then None else Some(UpstreamFault(|Calls(log)| - 1))
              case _ => FaultIn(log)
    ensures CurrentOffer(log + [e]) == if e.Tried? then e.offered else CurrentOffer(log)
    ensures Calls(log + [e]) == Calls(log) + if e.Called? then [e.channel.name] else []
  {
    Append(log, e);
  }

  lemma {:induction false} AttemptsKeepFault(u: Setup, mode: Mode, w: World, cands: seq<Channel>, names: seq<string>,
                                             last: Option<Fault>)
    requires last == FaultIn(w.log) && w.calls == |Calls(w.log)|
    ensures var t := Attempts(u, mode, w, cands, names, last);
            t.end.AllFailed? ==> t.end.last == FaultIn(t.world.log) && CurrentOffer(t.world.log) == CurrentOffer(w.log)
    decreases |cands|
  {
    hide FaultIn, Calls, CurrentOffer, OutcomeOf, AskNamed, SucceedNamed, FailNamed;
    if cands != [] {
      var ch := cands[0];
      var (asked, granted) := AskBreaker(u, w, ch);
      OneMoreFault(w.log, Asked(ch, granted));
      if !granted {
        AttemptsKeepFault(u, mode, asked, cands[1..], names, last);
      } else if ch.ptype !in u.providers {
        OneMoreFault(asked.log, Unsupported(ch));
        AttemptsKeepFault(u, mode, asked.Note(Unsupported(ch)), cands[1..], names, Some(UnsupportedProvider(ch.name)));
      } else if OutcomeOf(u.upstream, mode, w.calls) == Failed {
        var called := asked.(calls := w.calls + 1).Note(Called(ch));
        var next := RecordBad(u, called, ch.name);
        OneMoreFault(asked.log, Called(ch));
        OneMoreFault(called.log, BadRecord(ch.name));
        AttemptsKeepFault(u, mode, next, cands[1..], names + [ch.name], Some(UpstreamFault(w.calls)));
      }
    }
  }

  // ---- Whole runs ----

  lemma NoNext(u: Setup, models: seq<string>, chain: seq<string>, model: string)
    requires models != [] && models[|models| - 1] == model && ChainSoFar(chain, model) == models
    requires |models| <= MAX_FALLBACK_DEPTH
    ensures FallbackOf(u, model).None? ==> NowhereToGo(u, models, None)
    ensures FallbackOf(u, model).Some? ==>
              var next := NextChain(u.fold, chain, model, FallbackOf(u, model).value);
              next.Err? ==> NowhereToGo(u, models, Some(next.error))
  {
  }

  lemma NextFollows(u: Setup, models: seq<string>, model: string)
    requires models != [] && models[|models| - 1] == model && FollowsFallbacks(u, models) && FallbackOf(u, model).Some?
    ensures FollowsFallbacks(u, models + [FallbackOf(u, model).value])
  {
    var more := models + [FallbackOf(u, model).value];
    forall i: nat | i < |more| ensures IsFallbackAt(u, more, i) {
      assert i < |models| ==> IsFallbackAt(u, models, i);
    }
  }

  lemma {:induction false} RunEnds(u: Setup, mode: Mode, w: World, model: string, chain: seq<string>, trail: seq<string>)
    requires MayContinue(u, w, model, chain, trail) && FollowsFallbacks(u, Models(w.log) + [model])
    ensures var (end, r) := Dispatched(u, mode, w, model, chain, trail);
            && Models(w.log) + [model] <= Models(end.log) && FollowsFallbacks(u, Models(end.log))
            && (r.Error? ==> ErrorFits(u, end.log, r.error))
    decreases MAX_FALLBACK_DEPTH - |ChainSoFar(chain, model)|
  {
    hide Lawful, CurrentAsked, CurrentOffer, Models, Calls, NoneServed, OutcomeOf, Attempts, Offered, Settled, Exhausted,
         DistinctModels, Trail.Format, NextChain, FallbackOf, MayContinue, FollowsFallbacks, NowhereToGo, FaultIn;
    var (cands, weights) := Offered(u, w.weights, model);
    var w1 := w.(weights := weights).Note(Tried(model, cands));
    assert ChainSoFar(chain, model) == Models(w1.log) == Models(w.log) + [model] by { StartsModel(u, w, model, chain, trail, cands); }
    OfferIsMade(u, w, model, chain, trail);
    OneMoreFault(w.log, Tried(model, cands));
    NoNext(u, Models(w1.log), chain, model);
    if cands == [] {
      if FallbackOf(u, model).Some? && NextChain(u.fold, chain, model, FallbackOf(u, model).value).Ok? {
        GoesOn(u, mode, w1, model, chain, trail);
        RunEnds(u, mode, w1, FallbackOf(u, model).value, NextChain(u.fold, chain, model, FallbackOf(u, model).value).value, trail);
      }
    } else {
      AttemptsAreLawful(u, mode, w1, cands, [], None);
      AttemptsKeepFault(u, mode, w1, cands, [], None);
      var t := Attempts(u, mode, w1, cands, [], None);
      assert t.names[0..] == t.names;
      if t.end.AllFailed? && FallbackOf(u, model).Some?
         && NextChain(u.fold, chain, model, FallbackOf(u, model).value).Ok? {
        TriedIsNotEmpty(t.world.log, model);
        GoesOn(u, mode, t.world, model, chain, trail + t.names);
        RunEnds(u, mode, t.world, FallbackOf(u, model).value,
                NextChain(u.fold, chain, model, FallbackOf(u, model).value).value, trail + t.names);
      }
    }
  }

  lemma StartsModel(u: Setup, w: World, model: string, chain: seq<string>, trail: seq<string>, cands: seq<Channel>)
    requires MayContinue(u, w, model, chain, trail)
    ensures ChainSoFar(chain, model) == Models(w.log + [Tried(model, cands)]) == Models(w.log) + [model]
    ensures w.calls == |Calls(w.log)|
  {
    Append(w.log, Tried(model, cands));
  }

  lemma GoesOn(u: Setup, mode: Mode, w: World, model: string, chain: seq<string>, trail: seq<string>)
    requires Lawful(u, w.log) && NoneServed(w.log) && w.log != [] && Exhausted(w.log)
    requires ChainSoFar(chain, model) == Models(w.log) && DistinctModels(u.fold, Models(w.log))
    requires Models(w.log) != [] && Models(w.log)[|Models(w.log)| - 1] == model && FollowsFallbacks(u, Models(w.log))
    requires FallbackOf(u, model).Some? && NextChain(u.fold, chain, model, FallbackOf(u, model).value).Ok?
    requires Calls(w.log) == trail && w.calls == |trail|
    ensures var fb := FallbackOf(u, model).value;
            && MayContinue(u, w, fb, NextChain(u.fold, chain, model, fb).value, trail)
            && FollowsFallbacks(u, Models(w.log) + [fb])
            && |ChainSoFar(NextChain(u.fold, chain, model, fb).value, fb)| == |ChainSoFar(chain, model)| + 1 <= MAX_FALLBACK_DEPTH
  {
    hide Lawful, CurrentAsked, CurrentOffer, Models, Calls, NoneServed, Settled, Exhausted, NextChain, FallbackOf, FollowsFallbacks;
    var fb := FallbackOf(u, model).value;
    NextModelMayFollow(u, w, model, chain, fb, trail);
    NextIsLonger(u.fold, chain, model, fb);
    NextFollows(u, Models(w.log), model);
  }

  /**
   * A request goes from each model to the fallback configured for it, and gives up only where there is none, where
   * four models were tried, or where the fallback was tried already; the error says which, and what went wrong last.
   */
  lemma EveryRunEndsRight(u: Setup, mode: Mode, weights: map<string, int>, breakers: CircuitBreaking.Table, readings: nat,
                          model: string)
    ensures var (end, r) := Dispatched(u, mode, World(weights, breakers, readings, 0, []), model, [], []);
            && Models(end.log) != [] && Models(end.log)[0] == model && FollowsFallbacks(u, Models(end.log))
            && (r.Error? ==> ErrorFits(u, end.log, r.error))
  {
    RunEnds(u, mode, World(weights, breakers, readings, 0, []), model, [], []);
  }
}
