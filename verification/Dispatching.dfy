/**
 * What one chat request does: candidates of the model, one attempt after another, then the
 * fallback model (internal/router/dispatcher.go).
 *
 * A run is a function of the configuration, the clock readings and the upstream replies, all
 * of them arbitrary. `World` carries what the dispatcher changes, with a log of every step.
 */
module Dispatching {
  import opened Common
  import opened Channels
  import opened CircuitBreaking
  import opened Retrieval
  import Trail

  const MAX_FALLBACK_DEPTH: nat := 4

  // ---- Upstream replies ----

  /** One streamed event; `payload` stands for the parsed chunk and the raw line. */
  datatype Event = Event(payload: int, failed: bool, done: bool, channel: string)

  datatype FirstWait = Arrived | TimedOut | ContextDone

  datatype StreamReply = Refused | Opened(events: seq<Event>, first: FirstWait)

  /** The replies to call number 0, 1, 2, ...: whether a chat call answers, what a stream call yields. */
  datatype Upstream = Upstream(answers: nat -> bool, streams: nat -> StreamReply)

  datatype Mode = Chat | Stream

  datatype Outcome = Served | Failed | Cancelled

  /** A stream counts as served once its first event has arrived in time and is no error. */
  function StreamOutcome(reply: StreamReply): Outcome {
    match reply
    case Refused => Failed
    case Opened(_, TimedOut) => Failed
    case Opened(_, ContextDone) => Cancelled
    case Opened(events, Arrived) => if events == [] || events[0].failed then Failed else Served
  }

  function OutcomeOf(up: Upstream, mode: Mode, call: nat): Outcome {
    match mode
    case Chat => if up.answers(call) then Served else Failed
    case Stream => StreamOutcome(up.streams(call))
  }

  // ---- Configuration and state ----

  /** `fold` is case folding: two names are equal ignoring case when their folds are equal. */
  datatype Setup = Setup(
    channels: seq<Channel>,
    providers: set<string>,
    fallbacks: map<string, string>,
    settings: Settings,
    session: Session,
    fold: string -> string,
    now: nat -> int,
    upstream: Upstream)

  datatype Entry =
    | Tried(model: string, offered: seq<Channel>)
    | Asked(channel: Channel, granted: bool)
    | Unsupported(channel: Channel)
    | Called(channel: Channel)
    | GoodRecord(name: string)
    | BadRecord(name: string)

  datatype World = World(weights: map<string, int>, breakers: Table, readings: nat, calls: nat, log: seq<Entry>) {
    function Note(e: Entry): World { this.(log := log + [e]) }
  }

  function AskBreaker(u: Setup, w: World, ch: Channel): (World, bool) {
    var r := AskNamed(u.settings, w.breakers, ch.name, u.now(w.readings));
    (w.(breakers := r.0, readings := w.readings + 1).Note(Asked(ch, r.1)), r.1)
  }

  function RecordGood(u: Setup, w: World, name: string): World {
    w.(breakers := SucceedNamed(u.settings, w.breakers, name, u.now(w.readings)), readings := w.readings + 1)
      .Note(GoodRecord(name))
  }

  function RecordBad(u: Setup, w: World, name: string): World {
    w.(breakers := FailNamed(u.settings, w.breakers, name, u.now(w.readings)), readings := w.readings + 1)
      .Note(BadRecord(name))
  }

  // ---- The attempts at one model ----

  datatype Fault = UnsupportedProvider(name: string) | UpstreamFault(call: nat)

  datatype End = ServedBy(channel: Channel, call: nat) | AllFailed(last: Option<Fault>) | Stopped

  datatype Attempted = Attempted(world: World, names: seq<string>, end: End)

  /** The loop over the candidates; `names` are the channels called and failed so far. */
  function Attempts(u: Setup, mode: Mode, w: World, cands: seq<Channel>, names: seq<string>, last: Option<Fault>): Attempted
    decreases |cands|
  {
    if cands == [] then Attempted(w, names, AllFailed(last))
    else
      var ch := cands[0];
      var (asked, granted) := AskBreaker(u, w, ch);
      if !granted then Attempts(u, mode, asked, cands[1..], names, last)
      else if ch.ptype !in u.providers then
        Attempts(u, mode, asked.Note(Unsupported(ch)), cands[1..], names, Some(UnsupportedProvider(ch.name)))
      else
        var called := asked.(calls := w.calls + 1).Note(Called(ch));
        match OutcomeOf(u.upstream, mode, w.calls)
        case Served => Attempted(RecordGood(u, called, ch.name), names, ServedBy(ch, w.calls))
        case Failed =>
          Attempts(u, mode, RecordBad(u, called, ch.name), cands[1..], names + [ch.name], Some(UpstreamFault(w.calls)))
        case Cancelled => Attempted(called, names, Stopped)
  }

  // ---- Fallback from model to model ----

  datatype Refusal = DepthLimit | Cycle

  function ChainSoFar(chain: seq<string>, current: string): seq<string> {
    if chain == [] then [current] else chain
  }

  function NextChain(fold: string -> string, chain: seq<string>, current: string, next: string): (r: Result<seq<string>, Refusal>) {
    var c := ChainSoFar(chain, current);
    if |c| >= MAX_FALLBACK_DEPTH then Err(DepthLimit)
    else if exists i :: 0 <= i < |c| && fold(c[i]) == fold(next) then Err(Cycle)
    else Ok(c + [next])
  }

  /** The configured fallback, unless it is empty or the same model up to case. */
  function FallbackOf(u: Setup, model: string): Option<string> {
    var fb := GetOr(u.fallbacks, model, "");
    if fb != "" && u.fold(fb) != u.fold(model) then Some(fb) else None
  }

  datatype DispatchError =
    | NoUpstream(model: string, refusal: Option<Refusal>)
    | AllChannelsFailed(model: string, count: nat, last: Option<Fault>, refusal: Option<Refusal>)

  datatype Reply =
    | Answer(trail: string, channel: Channel, call: nat)
    | Error(error: DispatchError)
    | ContextCancelled

  /** Candidates that speak the chat protocol or, when there are none, any that serve the model. */
  function Offered(u: Setup, weights: map<string, int>, model: string): (seq<Channel>, map<string, int>) {
    var chat := Candidates(u.session, u.channels, weights, model, "chat");
    if chat.0 != [] then chat else Candidates(u.session, u.channels, chat.1, model, "")
  }

  function Dispatched(u: Setup, mode: Mode, w: World, model: string, chain: seq<string>, trail: seq<string>): (World, Reply)
    decreases MAX_FALLBACK_DEPTH - |ChainSoFar(chain, model)|
  {
    var (cands, weights) := Offered(u, w.weights, model);
    var w1 := w.(weights := weights).Note(Tried(model, cands));
    var fallback := FallbackOf(u, model);
    if cands == [] then
      match fallback
      case None => (w1, Error(NoUpstream(model, None)))
      case Some(fb) => (
        match NextChain(u.fold, chain, model, fb)
        case Err(why) => (w1, Error(NoUpstream(model, Some(why))))
        case Ok(next) => Dispatched(u, mode, w1, fb, next, trail)
      )
    else
      var t := Attempts(u, mode, w1, cands, [], None);
      match t.end
      case ServedBy(ch, call) => (t.world, Answer(Trail.Format(trail + t.names + [ch.name]), ch, call))
      case Stopped => (t.world, ContextCancelled)
      case AllFailed(last) =>
        match fallback
        case None => (t.world, Error(AllChannelsFailed(model, |cands|, last, None)))
        case Some(fb) =>
          match NextChain(u.fold, chain, model, fb)
          case Err(why) => (t.world, Error(AllChannelsFailed(model, |cands|, last, Some(why))))
          case Ok(next) => Dispatched(u, mode, t.world, fb, next, trail + t.names)
  }

  /** The events of the serving stream as the caller receives them. */
  function Stamped(events: seq<Event>, trail: string): (r: seq<Event>)
    ensures |r| == |events|
  {
    seq(|events|, i requires 0 <= i < |events| => events[i].(channel := trail))
  }
}
