/**
 * How nodes follow the database through Redis (internal/distributed/redis.go, internal/controlplane/sync.go),
 * as the interleaved steps of their goroutines. Broadcasts may be lost, late or repeated.
 */
module ClusterReload {
  import opened Common

  /** Who runs a reload: the Redis subscriber, or the periodic sync or an admin handler. */
  datatype Caller = Subscriber | Other

  /** The subscriber's loop; `seen` is the version it had before the reload it waits for or runs. */
  datatype Loop = Unsubscribed | Idle | Waiting(seen: nat) | Reloading(seen: nat)

  const PARTS: nat := 3

  /**
   * `loaded[k]` counts the database writes contained in the node's channels, keys and fallbacks.
   * A reload holds the lock while it reads (`pc` even) and applies (`pc` odd) the parts in turn.
   * `fromSubscribed` says the running reload began after the first version was read, and `synced`
   * that such a reload has completed and that no reload of the subscriber has failed since.
   */
  datatype Node = Node(
    loaded: seq<nat>, lock: Option<Caller>, pc: nat, buffer: nat,
    loop: Loop, localVersion: nat, fromSubscribed: bool, synced: bool)

  /** `published[v - 1]` is the write that the handler which raised the version to `v` had committed. */
  datatype World = World(db: nat, published: seq<nat>, nodes: seq<Node>)

  function Version(w: World): nat { |w.published| }

  datatype Step =
    | Write
    | RaiseVersion(write: nat)
    | Subscribe(n: nat, readOk: bool)
    | OnMessage(n: nat, readOk: bool)
    | OnTick(n: nat, readOk: bool)
    | Lock(n: nat, caller: Caller)
    | ReadPart(n: nat)
    | ApplyPart(n: nat)
    | Unlock(n: nat)
    | Abort(n: nat)

  const NEW_NODE := Node([0, 0, 0], None, 0, 0, Unsubscribed, 0, false, false)

  predicate Started(w: World) {
    w.db == 0 && w.published == [] && forall n :: 0 <= n < |w.nodes| ==> w.nodes[n] == NEW_NODE
  }

  predicate NodeEnabled(node: Node, step: Step) {
    match step
    case Subscribe(_, _) => node.loop.Unsubscribed?
    case OnMessage(_, _) => node.loop.Idle?
    case OnTick(_, _) => node.loop.Idle?
    case Lock(_, caller) => node.lock.None? && (caller == Subscriber ==> node.loop.Waiting?)
    case ReadPart(_) => node.lock.Some? && node.pc < 2 * PARTS && node.pc % 2 == 0
    case ApplyPart(_) => node.lock.Some? && node.pc < 2 * PARTS && node.pc % 2 == 1 && |node.loaded| == PARTS
    case Unlock(_) => node.lock.Some? && node.pc == 2 * PARTS
    case Abort(_) => node.lock.Some? && node.pc < 2 * PARTS && node.pc % 2 == 0
    case _ => false
  }

  predicate Enabled(w: World, step: Step) {
    match step
    case Write => true
    case RaiseVersion(write) => 1 <= write <= w.db
    case _ => step.n < |w.nodes| && NodeEnabled(w.nodes[step.n], step)
  }

  /** A version read that fails leaves the local version alone; a database read that fails ends the reload. */
  function NodeNext(db: nat, version: nat, node: Node, step: Step): Node
    requires NodeEnabled(node, step)
  {
    match step
    case Subscribe(_, readOk) => node.(loop := Idle, localVersion := if readOk then version else 0)
    case OnMessage(_, readOk) =>
      node.(loop := Waiting(node.localVersion),
            localVersion := if readOk && version > node.localVersion then version else node.localVersion)
    case OnTick(_, readOk) =>
      if readOk && version > node.localVersion
      then node.(loop := Waiting(node.localVersion), localVersion := version)
      else node
    case Lock(_, caller) =>
      node.(lock := Some(caller), pc := 0, fromSubscribed := !node.loop.Unsubscribed?,
            loop := if caller == Subscriber then Reloading(node.loop.seen) else node.loop)
    case ReadPart(_) => node.(buffer := db, pc := node.pc + 1)
    case ApplyPart(_) => node.(loaded := node.loaded[node.pc / 2 := node.buffer], pc := node.pc + 1)
    case Unlock(_) =>
      node.(lock := None, synced := node.synced || node.fromSubscribed,
            loop := if node.lock == Some(Subscriber) then Idle else node.loop)
    case Abort(_) =>
      if node.lock == Some(Subscriber) then node.(lock := None, synced := false, loop := Idle) else node.(lock := None)
  }

  function Next(w: World, step: Step): World
    requires Enabled(w, step)
  {
    match step
    case Write => w.(db := w.db + 1)
    case RaiseVersion(write) => w.(published := w.published + [write])
    case _ => w.(nodes := w.nodes[step.n := NodeNext(w.db, Version(w), w.nodes[step.n], step)])
  }

  predicate Possible(w: World, steps: seq<Step>)
    decreases |steps|
  {
    steps == [] || (Enabled(w, steps[0]) && Possible(Next(w, steps[0]), steps[1..]))
  }

  function Run(w: World, steps: seq<Step>): World
    requires Possible(w, steps)
    decreases |steps|
  {
    if steps == [] then w else Run(Next(w, steps[0]), steps[1..])
  }

  // ---- The steps of a reload ----

  /** A reload that holds the lock has read or applied `pc` things so far: what it may do next. */
  lemma ReloadSteps(w: World, n: nat)
    requires n < |w.nodes| && w.nodes[n].lock.Some? && w.nodes[n].pc <= 6 && |w.nodes[n].loaded| == 3
    ensures Enabled(w, ReadPart(n)) == Enabled(w, Abort(n)) == (w.nodes[n].pc in {0, 2, 4})
    ensures Enabled(w, ApplyPart(n)) <==> w.nodes[n].pc in {1, 3, 5}
    ensures Enabled(w, Unlock(n)) <==> w.nodes[n].pc == 6
    ensures forall caller :: !Enabled(w, Lock(n, caller))
  {
  }

  /** How often the database was written and the version raised. */
  function Writes(steps: seq<Step>): (nat, nat) {
    if steps == [] then (0, 0)
    else
      var rest := Writes(steps[1..]);
      (rest.0 + if steps[0].Write? then 1 else 0, rest.1 + if steps[0].RaiseVersion? then 1 else 0)
  }

  lemma {:induction false} RunCountsWrites(w: World, steps: seq<Step>)
    requires Possible(w, steps)
    ensures Run(w, steps).db == w.db + Writes(steps).0 && Version(Run(w, steps)) == Version(w) + Writes(steps).1
    decreases |steps|
  {
    hide NodeNext, NodeEnabled;
    if steps != [] {
      RunCountsWrites(Next(w, steps[0]), steps[1..]);
    }
  }

  // ---- What holds throughout ----

  /** A part holding the first `x` writes holds every write published up to version `v`. */
  predicate Covers(published: seq<nat>, v: nat, x: nat) {
    forall i :: 0 <= i < v && i < |published| ==> published[i] <= x
  }

  /** The version the node answers for: while a reload is due or running, the one before it. */
  function Settled(node: Node): nat {
    match node.loop case Waiting(seen) => seen case Reloading(seen) => seen case _ => node.localVersion
  }

  /** The version a running reload answers for once it is done. */
  function Goal(node: Node): nat {
    if node.lock == Some(Subscriber) then node.localVersion else Settled(node)
  }

  predicate Bounded(db: nat, version: nat, node: Node) {
    && |node.loaded| == PARTS && node.buffer <= db && node.localVersion <= version && Settled(node) <= node.localVersion
    && forall k :: 0 <= k < PARTS ==> node.loaded[k] <= db
  }

  /** The lock and the loop agree, and a reload is never about to apply an older read. */
  predicate Orderly(node: Node) {
    && (node.lock == Some(Subscriber) <==> node.loop.Reloading?)
    && (node.lock == Some(Subscriber) ==> node.fromSubscribed)
    && (node.loop.Unsubscribed? ==> !node.synced && (node.lock.Some? ==> !node.fromSubscribed))
    && node.pc <= 2 * PARTS
    && (node.lock.Some? && node.pc % 2 == 1 && |node.loaded| == PARTS ==> node.loaded[node.pc / 2] <= node.buffer)
  }

  predicate Covered(published: seq<nat>, node: Node)
    requires |node.loaded| == PARTS
  {
    && (node.synced ==> forall k :: 0 <= k < PARTS ==> Covers(published, Settled(node), node.loaded[k]))
    && (node.lock.Some? && node.fromSubscribed ==>
          && (forall k :: 0 <= k < PARTS && 2 * k + 2 <= node.pc ==> Covers(published, Goal(node), node.loaded[k]))
          && (node.pc % 2 == 1 ==> Covers(published, Goal(node), node.buffer)))
  }

  predicate GoodNode(db: nat, published: seq<nat>, node: Node) {
    Bounded(db, |published|, node) && Orderly(node) && Covered(published, node)
  }

  predicate Good(w: World) {
    && Covers(w.published, |w.published|, w.db)
    && forall n :: 0 <= n < |w.nodes| ==> GoodNode(w.db, w.published, w.nodes[n])
  }

  lemma NodeStepIsGood(db: nat, published: seq<nat>, node: Node, step: Step)
    requires Covers(published, |published|, db) && GoodNode(db, published, node) && NodeEnabled(node, step)
    ensures GoodNode(db, published, NodeNext(db, |published|, node, step))
  {
    var next := NodeNext(db, |published|, node, step);
    assert Bounded(db, |published|, next) by { hide Covered; }
    assert Orderly(next) by { hide Covered; }
    assert Covered(published, next);
  }

  lemma StepIsGood(w: World, step: Step)
    requires Good(w) && Enabled(w, step)
    ensures Good(Next(w, step))
  {
    hide NodeNext, NodeEnabled, Orderly;
    match step
    case Write =>
    case RaiseVersion(_) =>
    case _ => NodeStepIsGood(w.db, w.published, w.nodes[step.n], step);
  }

  lemma {:induction false} RunIsGood(w: World, steps: seq<Step>)
    requires Good(w) && Possible(w, steps)
    ensures Good(Run(w, steps)) && |Run(w, steps).nodes| == |w.nodes|
    ensures w.published <= Run(w, steps).published && w.db <= Run(w, steps).db
    decreases |steps|
  {
    hide Good, NodeNext, NodeEnabled;
    if steps != [] {
      StepIsGood(w, steps[0]);
      RunIsGood(Next(w, steps[0]), steps[1..]);
    }
  }

  /**
   * In every run, a node that has completed a reload begun after it first read the version holds,
   * in its channels, keys and fallbacks, every write published up to the version it answers for,
   * unless a reload of its subscriber has failed since; between reloads that is its local version.
   */
  lemma LocalVersionIsLoaded(start: World, steps: seq<Step>, n: nat)
    requires Started(start) && Possible(start, steps) && n < |start.nodes|
    ensures var w := Run(start, steps);
            && |w.nodes| == |start.nodes| && |w.nodes[n].loaded| == PARTS
            && (w.nodes[n].synced ==>
                  forall k, i :: 0 <= k < PARTS && 0 <= i < Settled(w.nodes[n]) && i < |w.published| ==>
                    w.published[i] <= w.nodes[n].loaded[k])
            && (w.nodes[n].loop.Idle? ==> Settled(w.nodes[n]) == w.nodes[n].localVersion)
  {
    RunIsGood(start, steps);
    var w := Run(start, steps);
    assert GoodNode(w.db, w.published, w.nodes[n]);
  }

  /** Once every write is published and the node has seen the last version, it holds the whole database. */
  lemma QuietClusterIsUpToDate(start: World, steps: seq<Step>, n: nat)
    requires Started(start) && Possible(start, steps) && n < |start.nodes|
    requires var w := Run(start, steps);
             && |w.nodes| == |start.nodes| && w.nodes[n].synced && w.nodes[n].loop.Idle?
             && w.nodes[n].localVersion == Version(w) && (w.db > 0 ==> w.db in w.published)
    ensures Run(start, steps).nodes[n].loaded == [Run(start, steps).db, Run(start, steps).db, Run(start, steps).db]
  {
    RunIsGood(start, steps);
    var w := Run(start, steps);
    var node := w.nodes[n];
    assert GoodNode(w.db, w.published, node);
    forall k | 0 <= k < PARTS ensures node.loaded[k] == w.db {
      if w.db > 0 {
        var i :| 0 <= i < |w.published| && w.published[i] == w.db;
        assert Covers(w.published, Settled(node), node.loaded[k]);
      }
    }
  }

  /** No step, of any node, takes a write out of any loaded part of any node. */
  lemma StepKeepsLoaded(w: World, step: Step, n: nat, k: nat)
    requires Good(w) && Enabled(w, step) && n < |w.nodes| && k < PARTS
    ensures |w.nodes[n].loaded| == |Next(w, step).nodes[n].loaded| == PARTS
    ensures w.nodes[n].loaded[k] <= Next(w, step).nodes[n].loaded[k]
  {
    StepIsGood(w, step);
    assert GoodNode(w.db, w.published, w.nodes[n]);
  }

  lemma {:induction false} RunKeepsLoaded(w: World, steps: seq<Step>, n: nat, k: nat)
    requires Good(w) && Possible(w, steps) && n < |w.nodes| && k < PARTS
    ensures |w.nodes| == |Run(w, steps).nodes| && |w.nodes[n].loaded| == |Run(w, steps).nodes[n].loaded| == PARTS
    ensures w.nodes[n].loaded[k] <= Run(w, steps).nodes[n].loaded[k]
    decreases |steps|
  {
    hide NodeNext, NodeEnabled, Covered, Orderly, Covers;
    if steps == [] {
      assert GoodNode(w.db, w.published, w.nodes[n]);
    } else {
      StepIsGood(w, steps[0]);
      StepKeepsLoaded(w, steps[0], n, k);
      RunKeepsLoaded(Next(w, steps[0]), steps[1..], n, k);
    }
  }

  /** Between any two moments of any run, no loaded part of any node loses a write. */
  lemma LoadedNeverGoesBack(start: World, before: seq<Step>, after: seq<Step>, n: nat, k: nat)
    requires Started(start) && Possible(start, before) && Possible(Run(start, before), after)
    requires n < |start.nodes| && k < PARTS
    ensures var earlier, later := Run(start, before), Run(Run(start, before), after);
            && |earlier.nodes| == |later.nodes| == |start.nodes|
            && |earlier.nodes[n].loaded| == |later.nodes[n].loaded| == PARTS
            && earlier.nodes[n].loaded[k] <= later.nodes[n].loaded[k]
  {
    hide Good, Possible, Run;
    assert Good(start) by { StartIsGood(start); }
    RunIsGood(start, before);
    RunKeepsLoaded(Run(start, before), after, n, k);
  }

  lemma StartIsGood(start: World)
    requires Started(start)
    ensures Good(start)
  {
  }

  // ---- A missed broadcast is healed ----

  /** The node has seen version `v` and holds what was published by then, or is about to. */
  predicate Healing(w: World, n: nat, v: nat) {
    && n < |w.nodes| && w.nodes[n].localVersion >= v
    && (w.nodes[n].loop.Waiting? || w.nodes[n].loop.Reloading? || (w.nodes[n].loop.Idle? && w.nodes[n].synced))
  }

  /** The reload of node `n`'s subscriber fails; one of another caller may. */
  predicate FailsSubscriber(w: World, step: Step, n: nat) {
    step == Abort(n) && n < |w.nodes| && w.nodes[n].lock == Some(Subscriber)
  }

  predicate SubscriberNeverFails(w: World, steps: seq<Step>, n: nat)
    requires Possible(w, steps)
    decreases |steps|
  {
    steps == [] || (!FailsSubscriber(w, steps[0], n) && SubscriberNeverFails(Next(w, steps[0]), steps[1..], n))
  }

  lemma HealingGoesOn(w: World, step: Step, n: nat, v: nat)
    requires Good(w) && Enabled(w, step) && Healing(w, n, v) && !FailsSubscriber(w, step, n)
    ensures Healing(Next(w, step), n, v)
  {
    assert GoodNode(w.db, w.published, w.nodes[n]);
  }

  lemma {:induction false} RunKeepsHealing(w: World, steps: seq<Step>, n: nat, v: nat)
    requires Good(w) && Possible(w, steps) && Healing(w, n, v) && SubscriberNeverFails(w, steps, n)
    ensures Healing(Run(w, steps), n, v)
    decreases |steps|
  {
    hide Good, NodeNext, NodeEnabled, Healing, FailsSubscriber;
    if steps != [] {
      StepIsGood(w, steps[0]);
      HealingGoesOn(w, steps[0], n, v);
      RunKeepsHealing(Next(w, steps[0]), steps[1..], n, v);
    }
  }

  /**
   * After a tick that sees a newer version, or after any broadcast, whatever happens next but a failed
   * reload of this node's subscriber: as soon as the subscriber is back in its loop, every part holds every write published by the version it saw.
   */
  lemma TickAndMessageHeal(start: World, before: seq<Step>, step: Step, after: seq<Step>)
    requires Started(start) && Possible(start, before)
    requires var w := Run(start, before);
             && Enabled(w, step) && Possible(Next(w, step), after)
             && (step.OnMessage? || (step.OnTick? && step.readOk && Version(w) > w.nodes[step.n].localVersion))
             && SubscriberNeverFails(Next(w, step), after, step.n)
    ensures var w := Run(start, before);
            var v := Next(w, step).nodes[step.n].localVersion;
            var end := Run(Next(w, step), after);
            && (step.readOk ==> v == Version(w))
            && (|end.nodes| == |w.nodes| && end.nodes[step.n].loop.Idle? ==>
                  && end.nodes[step.n].localVersion >= v && |end.nodes[step.n].loaded| == PARTS
                  && forall k, i :: 0 <= k < PARTS && 0 <= i < v && i < |w.published| ==>
                       w.published[i] <= end.nodes[step.n].loaded[k])
  {
    hide NodeEnabled;
    RunIsGood(start, before);
    var w := Run(start, before);
    assert GoodNode(w.db, w.published, w.nodes[step.n]);
    StepIsGood(w, step);
    var next := Next(w, step);
    RunIsGood(next, after);
    RunKeepsHealing(next, after, step.n, next.nodes[step.n].localVersion);
    var end := Run(next, after);
    assert GoodNode(end.db, end.published, end.nodes[step.n]);
    assert w.published <= end.published;
  }

  /** How many steps of its own node separate a subscriber from its loop. */
  function Remaining(node: Node): nat {
    (if node.lock.Some? then 2 * PARTS + 1 - (if node.pc <= 2 * PARTS then node.pc else 2 * PARTS) else 0)
    + if node.loop.Waiting? then 2 * PARTS + 2 else 0
  }

  function OwnStep(node: Node, n: nat): Step {
    if node.lock.None? then Lock(n, Subscriber)
    else if node.pc == 2 * PARTS then Unlock(n)
    else if node.pc % 2 == 0 then ReadPart(n)
    else ApplyPart(n)
  }

  /** The lock never blocks for good: the node's own reload steps always lead a waiting subscriber back to its loop. */
  lemma {:induction false} SubscriberCanReturn(w: World, n: nat) returns (steps: seq<Step>)
    requires Good(w) && n < |w.nodes| && !w.nodes[n].loop.Unsubscribed?
    ensures Possible(w, steps) && n < |Run(w, steps).nodes| && Run(w, steps).nodes[n].loop.Idle?
    ensures |steps| <= 4 * PARTS + 3
    decreases Remaining(w.nodes[n])
  {
    steps := ReturnSteps(w, n);
    assert GoodNode(w.db, w.published, w.nodes[n]);
  }

  lemma {:induction false} ReturnSteps(w: World, n: nat) returns (steps: seq<Step>)
    requires Good(w) && n < |w.nodes| && !w.nodes[n].loop.Unsubscribed?
    ensures Possible(w, steps) && n < |Run(w, steps).nodes| && Run(w, steps).nodes[n].loop.Idle?
    ensures |steps| <= Remaining(w.nodes[n])
    decreases Remaining(w.nodes[n])
  {
    hide Covered, Bounded;
    var node := w.nodes[n];
    if node.loop.Idle? {
      return [];
    }
    assert GoodNode(w.db, w.published, node);
    assert |node.loaded| == PARTS by { BoundedHasParts(w.db, |w.published|, node); }
    var step := OwnStep(node, n);
    StepIsGood(w, step);
    var rest := ReturnSteps(Next(w, step), n);
    steps := [step] + rest;
    assert steps[1..] == rest;
  }

  lemma BoundedHasParts(db: nat, version: nat, node: Node)
    requires Bounded(db, version, node)
    ensures |node.loaded| == PARTS
  {
  }

  // ---- What ticks do not repair ----

  /** No version is raised, and node `n` only ticks; other nodes and database writes are free. */
  predicate LeavesToTicks(step: Step, n: nat) {
    match step
    case Write => true
    case RaiseVersion(_) => false
    case OnTick(_, _) => true
    case _ => step.n != n
  }

  predicate OnlyTicks(steps: seq<Step>, n: nat) {
    forall i :: 0 <= i < |steps| ==> LeavesToTicks(steps[i], n)
  }

  lemma TickChangesNothing(w: World, step: Step, n: nat)
    requires n < |w.nodes| && w.nodes[n].loop.Idle? && w.nodes[n].localVersion == Version(w)
    requires Enabled(w, step) && LeavesToTicks(step, n)
    ensures |Next(w, step).nodes| == |w.nodes| && Next(w, step).nodes[n] == w.nodes[n]
    ensures Next(w, step).published == w.published
  {
  }

  /** Once a node's version is the last one, no number of ticks, with any reads, changes anything on it. */
  lemma {:induction false} TicksChangeNothing(w: World, steps: seq<Step>, n: nat)
    requires n < |w.nodes| && w.nodes[n].loop.Idle? && w.nodes[n].localVersion == Version(w)
    requires Possible(w, steps) && OnlyTicks(steps, n)
    ensures var end := Run(w, steps);
            |end.nodes| == |w.nodes| && end.nodes[n] == w.nodes[n] && end.published == w.published
    decreases |steps|
  {
    hide NodeNext, NodeEnabled, LeavesToTicks;
    if steps != [] {
      TickChangesNothing(w, steps[0], n);
      TicksChangeNothing(Next(w, steps[0]), steps[1..], n);
    }
  }

  /**
   * Whatever state a node is in before it subscribes, a write published just before its first version read
   * is in none of its parts while its version says otherwise, however many ticks follow.
   */
  lemma FirstReadSkipsAWrite(w: World, n: nat, after: seq<Step>)
    requires Good(w) && n < |w.nodes| && w.nodes[n].loop.Unsubscribed? && OnlyTicks(after, n)
    ensures var steps := [Write, RaiseVersion(w.db + 1), Subscribe(n, true)];
            && Possible(w, steps)
            && (Possible(Run(w, steps), after) ==>
                  var end := Run(Run(w, steps), after);
                  && |end.nodes| == |w.nodes| && end.nodes[n].loop.Idle? && end.nodes[n].localVersion == Version(end)
                  && Version(end) == Version(w) + 1 && |end.nodes[n].loaded| == PARTS
                  && forall k :: 0 <= k < PARTS ==> end.nodes[n].loaded[k] < end.published[Version(w)])
  {
    hide Good, NodeNext, NodeEnabled, Run, Possible, OnlyTicks;
    var steps := [Write, RaiseVersion(w.db + 1), Subscribe(n, true)];
    assert Bounded(w.db, |w.published|, w.nodes[n]) by { NodeIsBounded(w, n); }
    var w1 := Next(w, Write);
    var w2 := Next(w1, RaiseVersion(w.db + 1));
    SubscribeReads(w2, n);
    var w3 := Next(w2, Subscribe(n, true));
    assert Possible(w, steps) && Run(w, steps) == w3 by { ThreeSteps(w, steps[0], steps[1], steps[2]); }
    if Possible(w3, after) {
      TicksChangeNothing(w3, after, n);
    }
  }

  lemma ThreeSteps(w: World, a: Step, b: Step, c: Step)
    requires Enabled(w, a) && Enabled(Next(w, a), b) && Enabled(Next(Next(w, a), b), c)
    ensures Possible(w, [a, b, c]) && Run(w, [a, b, c]) == Next(Next(Next(w, a), b), c)
  {
    hide Enabled, Next;
    assert [a, b, c][1..] == [b, c] && [b, c][1..] == [c] && [c][1..] == [];
    var v := Next(Next(w, a), b);
    assert Possible(v, [c]) && Run(v, [c]) == Next(v, c);
  }

  lemma NodeIsBounded(w: World, n: nat)
    requires Good(w) && n < |w.nodes|
    ensures Bounded(w.db, |w.published|, w.nodes[n])
  {
    assert GoodNode(w.db, w.published, w.nodes[n]);
  }

  lemma SubscribeReads(w: World, n: nat)
    requires n < |w.nodes| && w.nodes[n].loop.Unsubscribed?
    ensures Enabled(w, Subscribe(n, true))
    ensures var next := Next(w, Subscribe(n, true));
            && next.published == w.published && |next.nodes| == |w.nodes|
            && next.nodes[n] == w.nodes[n].(loop := Idle, localVersion := Version(w))
  {
  }

  /**
   * A reload of the subscriber that fails at any read is not made up for by any number of ticks: the
   * version it was for is already the local one, so until a newer version, a broadcast or a reload of
   * another caller the node stays as the failure left it.
   */
  lemma FailedReloadIsNotRetried(w: World, n: nat, after: seq<Step>)
    requires Good(w) && n < |w.nodes| && w.nodes[n].loop.Reloading? && Enabled(w, Abort(n))
    requires w.nodes[n].localVersion == Version(w) && OnlyTicks(after, n)
    ensures Possible(Next(w, Abort(n)), after) ==>
              var end := Run(Next(w, Abort(n)), after);
              && |end.nodes| == |w.nodes| && end.nodes[n] == Next(w, Abort(n)).nodes[n]
              && end.nodes[n].loaded == w.nodes[n].loaded
              && end.nodes[n].loop.Idle? && end.nodes[n].localVersion == Version(end) && !end.nodes[n].synced
  {
    hide Run, Possible, OnlyTicks;
    assert GoodNode(w.db, w.published, w.nodes[n]);
    if Possible(Next(w, Abort(n)), after) {
      TicksChangeNothing(Next(w, Abort(n)), after, n);
    }
  }
}
