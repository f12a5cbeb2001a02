/** No interleaving of producers, ticks and stop loses, repeats or reorders an accepted record. */
module AsyncRuns {
  import opened Common
  import opened Ledger
  import opened BatchCharging
  import opened AsyncLogging

  predicate Possible(cfg: Settings, s: State, steps: seq<Step>)
    decreases |steps|
  {
    steps == [] || (Enabled(s, steps[0]) && Possible(cfg, Next(cfg, s, steps[0]), steps[1..]))
  }

  function Run(cfg: Settings, s: State, steps: seq<Step>): State
    requires Possible(cfg, s, steps)
    decreases |steps|
  {
    if steps == [] then s else Run(cfg, Next(cfg, s, steps[0]), steps[1..])
  }

  function Concat(batches: seq<seq<UsageLog>>): seq<UsageLog> {
    if batches == [] then [] else Concat(batches[..|batches| - 1]) + batches[|batches| - 1]
  }

  predicate Ordered(s: State) {
    && Concat(s.written) + s.batch + s.queue == s.accepted
    && (s.phase == Exited ==> s.batch == [])
  }

  lemma FlushKeepsOrder(s: State)
    requires Ordered(s)
    ensures Ordered(Flushed(s))
  {
    if s.batch != [] {
      var w := s.written + [s.batch];
      assert w[..|w| - 1] == s.written;
    }
  }

  lemma StepKeepsOrder(cfg: Settings, s: State, step: Step)
    requires Ordered(s) && Enabled(s, step)
    ensures Ordered(Next(cfg, s, step))
  {
    hide Concat;
    match step
    case Record(rec) =>
      assert Concat(s.written) + s.batch + (s.queue + [WithTrace(rec)])
          == (Concat(s.written) + s.batch + s.queue) + [WithTrace(rec)];
    case Receive => MoveKeepsOrder(s); FlushKeepsOrder(s.(queue := s.queue[1..], batch := s.batch + [s.queue[0]]));
    case DrainOne => MoveKeepsOrder(s);
    case Tick => FlushKeepsOrder(s);
    case DrainEnd => FlushKeepsOrder(s);
    case _ =>
  }

  lemma MoveKeepsOrder(s: State)
    requires Ordered(s) && s.queue != [] && s.phase != Exited
    ensures Ordered(s.(queue := s.queue[1..], batch := s.batch + [s.queue[0]]))
  {
    hide Concat;
    assert s.queue == [s.queue[0]] + s.queue[1..];
    assert Concat(s.written) + (s.batch + [s.queue[0]]) + s.queue[1..] == Concat(s.written) + s.batch + s.queue;
  }

  lemma {:induction false} RunKeepsOrder(cfg: Settings, s: State, steps: seq<Step>)
    requires Possible(cfg, s, steps) && Ordered(s)
    ensures Ordered(Run(cfg, s, steps))
    decreases |steps|
  {
    if steps != [] {
      StepKeepsOrder(cfg, s, steps[0]);
      RunKeepsOrder(cfg, Next(cfg, s, steps[0]), steps[1..]);
    }
  }

  /** Whether a producer's record comes after the worker has left. */
  predicate RecordsAfterExit(cfg: Settings, s: State, steps: seq<Step>)
    requires Possible(cfg, s, steps)
    decreases |steps|
  {
    steps != [] &&
    ((s.phase == Exited && steps[0].Record?) || RecordsAfterExit(cfg, Next(cfg, s, steps[0]), steps[1..]))
  }

  lemma {:induction false} QueueStaysEmpty(cfg: Settings, s: State, steps: seq<Step>)
    requires Possible(cfg, s, steps) && !RecordsAfterExit(cfg, s, steps)
    requires s.phase == Exited ==> s.queue == []
    ensures Run(cfg, s, steps).phase == Exited ==> Run(cfg, s, steps).queue == []
    decreases |steps|
  {
    if steps != [] {
      QueueStaysEmpty(cfg, Next(cfg, s, steps[0]), steps[1..]);
    }
  }

  /**
   * In every run from the start the records written, then batched, then queued are exactly the
   * accepted ones in order; once the worker has left, and no producer came later, all are written.
   */
  lemma {:induction false} EveryAcceptedRecordIsWrittenOnce(cfg: Settings, steps: seq<Step>)
    requires Possible(cfg, INITIAL, steps)
    ensures var s := Run(cfg, INITIAL, steps);
            && Concat(s.written) + s.batch + s.queue == s.accepted
            && (s.phase == Exited && !RecordsAfterExit(cfg, INITIAL, steps) ==> Concat(s.written) == s.accepted)
  {
    assert Ordered(INITIAL);
    RunKeepsOrder(cfg, INITIAL, steps);
    if !RecordsAfterExit(cfg, INITIAL, steps) {
      QueueStaysEmpty(cfg, INITIAL, steps);
    }
  }

  // ---- What is kept and what is dropped ----

  predicate Fits(batches: seq<seq<UsageLog>>, size: nat) {
    forall i :: 0 <= i < |batches| ==> 0 < |batches[i]| <= size
  }

  /** The queue stays within its buffer, and until the drain every batch within its size. */
  predicate Bounded(cfg: Settings, s: State) {
    && |s.queue| <= cfg.bufferSize
    && (s.phase == Running ==> |s.batch| < cfg.batchSize)
    && (s.phase != Exited ==> Fits(s.written, cfg.batchSize))
    && (forall i :: 0 <= i < |s.written| ==> s.written[i] != [])
  }

  lemma StepKeepsBounds(cfg: Settings, s: State, step: Step)
    requires Bounded(cfg, s) && Enabled(s, step) && cfg.batchSize > 0
    ensures Bounded(cfg, Next(cfg, s, step))
  {
  }

  lemma {:induction false} RunKeepsBounds(cfg: Settings, s: State, steps: seq<Step>)
    requires Possible(cfg, s, steps) && Bounded(cfg, s) && cfg.batchSize > 0
    ensures Bounded(cfg, Run(cfg, s, steps))
    decreases |steps|
  {
    hide Bounded, Next;
    if steps != [] {
      StepKeepsBounds(cfg, s, steps[0]);
      RunKeepsBounds(cfg, Next(cfg, s, steps[0]), steps[1..]);
    }
  }

  lemma {:induction false} RunConcat(cfg: Settings, s: State, a: seq<Step>, b: seq<Step>)
    requires Possible(cfg, s, a) && Possible(cfg, Run(cfg, s, a), b)
    ensures Possible(cfg, s, a + b) && Run(cfg, s, a + b) == Run(cfg, Run(cfg, s, a), b)
    decreases |a|
  {
    hide Next, Enabled;
    if a == [] {
      assert a + b == b;
    } else {
      assert (a + b)[1..] == a[1..] + b && (a + b)[0] == a[0];
      RunConcat(cfg, Next(cfg, s, a[0]), a[1..], b);
    }
  }

  /** The record with a trace id: its own, else its session's, else the clock's. */
  function Traced(rec: UsageLog): UsageLog {
    rec.(traceId := if rec.traceId == "" then (if rec.sessionId == "" then rec.clockTrace else rec.sessionId) else rec.traceId)
  }

  lemma OneRecord(cfg: Settings, s: State, rec: UsageLog)
    ensures Possible(cfg, s, [Record(rec)])
    ensures Run(cfg, s, [Record(rec)]) == if |s.queue| >= cfg.bufferSize then s
      else s.(queue := s.queue + [Traced(rec)], accepted := s.accepted + [Traced(rec)])
  {
    assert [Record(rec)][1..] == [];
  }

  /**
   * At any moment of any run the queue and the batches are within their bounds; a record offered then is accepted,
   * behind all others and with a trace id, exactly when the queue has room, and dropped without a trace otherwise.
   */
  lemma DroppedExactlyWhenFull(bufferSize: int, batchSize: int, steps: seq<Step>, rec: UsageLog)
    requires Possible(NewSettings(bufferSize, batchSize), INITIAL, steps)
    ensures var cfg := NewSettings(bufferSize, batchSize);
            var s := Run(cfg, INITIAL, steps);
            && cfg == Settings(if bufferSize > 0 then bufferSize else 10000, if batchSize > 0 then batchSize else 100)
            && Bounded(cfg, s) && Possible(cfg, INITIAL, steps + [Record(rec)])
            && Run(cfg, INITIAL, steps + [Record(rec)]) == (if |s.queue| == cfg.bufferSize then s
                 else s.(queue := s.queue + [Traced(rec)], accepted := s.accepted + [Traced(rec)]))
  {
    hide Next, Enabled, Run, Possible;
    var cfg := NewSettings(bufferSize, batchSize);
    RunKeepsBounds(cfg, INITIAL, steps);
    OneRecord(cfg, Run(cfg, INITIAL, steps), rec);
    RunConcat(cfg, INITIAL, steps, [Record(rec)]);
  }

  /** The drain loop is a run of the drain steps. */
  lemma {:induction false} DrainIsARun(cfg: Settings, s: State) returns (steps: seq<Step>)
    requires s.phase == Draining
    ensures Possible(cfg, s, steps) && Run(cfg, s, steps) == Drained(s)
    decreases |s.queue|
  {
    if s.queue == [] {
      steps := [DrainEnd];
      assert steps[1..] == [];
      assert s.batch + s.queue == s.batch;
      assert s.(queue := [], batch := s.batch + s.queue) == s;
    } else {
      var next := Next(cfg, s, DrainOne);
      var rest := DrainIsARun(cfg, next);
      steps := [DrainOne] + rest;
      assert steps[1..] == rest;
      assert next.batch + next.queue == s.batch + s.queue;
    }
  }

  /** From any moment at which the worker still runs, a stop leads to its exit, with every accepted record written. */
  lemma StopWritesAll(cfg: Settings, steps: seq<Step>) returns (more: seq<Step>)
    requires Possible(cfg, INITIAL, steps) && Run(cfg, INITIAL, steps).phase == Running
    ensures Possible(cfg, INITIAL, steps + more)
    ensures var s, t := Run(cfg, INITIAL, steps), Run(cfg, INITIAL, steps + more);
            t.phase == Exited && t.accepted == s.accepted && Concat(t.written) == s.accepted
  {
    hide Next, Enabled, Run, Possible, Concat;
    var s := Run(cfg, INITIAL, steps);
    NothingYet();
    RunKeepsOrder(cfg, INITIAL, steps);
    var head := ToDrain(cfg, s);
    var draining := Run(cfg, s, head);
    var tail := DrainIsARun(cfg, draining);
    more := head + tail;
    RunConcat(cfg, s, head, tail);
    RunConcat(cfg, INITIAL, steps, more);
    DrainedIsWritten(draining);
  }

  lemma NothingYet()
    ensures Ordered(INITIAL)
  {
  }

  lemma ToDrain(cfg: Settings, s: State) returns (steps: seq<Step>)
    requires s.phase == Running
    ensures Possible(cfg, s, steps) && Run(cfg, s, steps) == s.(stopping := true, phase := Draining)
  {
    assert [BeginDrain][1..] == [] && [Stop, BeginDrain][1..] == [BeginDrain];
    if s.stopping {
      steps := [BeginDrain];
    } else {
      steps := [Stop, BeginDrain];
      assert Run(cfg, Next(cfg, s, Stop), [BeginDrain]) == s.(stopping := true, phase := Draining);
    }
  }

  lemma DrainedIsWritten(s: State)
    requires Concat(s.written) + s.batch + s.queue == s.accepted
    ensures Concat(Drained(s).written) == s.accepted && Drained(s).accepted == s.accepted && Drained(s).phase == Exited
  {
    var batch := s.batch + s.queue;
    if batch != [] {
      var w := s.written + [batch];
      assert w[..|w| - 1] == s.written;
    }
    assert Concat(s.written) + batch == Concat(s.written) + s.batch + s.queue;
  }

  // ---- Balances do not depend on where the worker cuts the stream ----

  lemma {:induction false} RecordedAllAppend(t: Tables, a: seq<UsageLog>, b: seq<UsageLog>)
    ensures RecordedAll(t, a + b) == RecordedAll(RecordedAll(t, a), b)
  {
    if b == [] {
      assert a + b == a;
    } else {
      hide Recorded;
      var n := |b| - 1;
      assert (a + b)[..|a + b| - 1] == a + b[..n];
      RecordedAllAppend(t, a, b[..n]);
    }
  }

  lemma SingleBatch(t: Tables, log: UsageLog)
    ensures RecordedAll(t, [log]) == Recorded(t, log)
  {
    assert [log][..0] == [];
  }

  lemma BatchIsSingles(t: Tables, batch: seq<UsageLog>)
    requires NonNegative(NormalizeAll(batch)) && OneTenantPerKey(NormalizeAll(batch))
    ensures Persisted(t, batch) == RecordedAll(t, NormalizeAll(batch))
  {
    hide Recorded, Batched, RecordedAll, Normalize;
    if |batch| == 1 {
      assert NormalizeAll(batch) == [Normalize(batch[0])];
      SingleBatch(t, Normalize(batch[0]));
    } else {
      OneTenantGivesSameReach(t, NormalizeAll(batch));
      BatchRefinesSingles(t, NormalizeAll(batch));
    }
  }

  lemma PartsAreFine(a: seq<UsageLog>, b: seq<UsageLog>)
    requires NonNegative(NormalizeAll(a + b)) && OneTenantPerKey(NormalizeAll(a + b))
    ensures NormalizeAll(a + b) == NormalizeAll(a) + NormalizeAll(b)
    ensures NonNegative(NormalizeAll(a)) && OneTenantPerKey(NormalizeAll(a))
    ensures NonNegative(NormalizeAll(b)) && OneTenantPerKey(NormalizeAll(b))
  {
    hide Normalize;
    var all := NormalizeAll(a + b);
    assert forall i :: 0 <= i < |a| ==> all[i] == NormalizeAll(a)[i];
    assert forall i :: 0 <= i < |b| ==> all[|a| + i] == NormalizeAll(b)[i];
  }

  /** However a stream of records is cut into batches, the tables end as if each record had been charged alone. */
  lemma {:induction false} CutsAreInvisible(t: Tables, batches: seq<seq<UsageLog>>)
    requires NonNegative(NormalizeAll(Concat(batches))) && OneTenantPerKey(NormalizeAll(Concat(batches)))
    ensures PersistedAll(t, batches) == RecordedAll(t, NormalizeAll(Concat(batches)))
  {
    hide NonNegative, OneTenantPerKey, Persisted;
    if batches == [] {
      assert NormalizeAll([]) == [];
    } else {
      var front := batches[..|batches| - 1];
      var last := batches[|batches| - 1];
      PartsAreFine(Concat(front), last);
      CutsAreInvisible(t, front);
      BatchIsSingles(PersistedAll(t, front), last);
      RecordedAllAppend(t, NormalizeAll(Concat(front)), NormalizeAll(last));
    }
  }

  /**
   * Asynchronous batching is invisible: after any complete run whose records keep one tenant
   * per key, the tables are those of charging the accepted records one at a time, in order.
   */
  lemma AsyncEqualsSynchronous(cfg: Settings, t: Tables, steps: seq<Step>)
    requires Possible(cfg, INITIAL, steps) && Run(cfg, INITIAL, steps).phase == Exited
    requires !RecordsAfterExit(cfg, INITIAL, steps)
    requires var accepted := NormalizeAll(Run(cfg, INITIAL, steps).accepted);
             NonNegative(accepted) && OneTenantPerKey(accepted)
    ensures var s := Run(cfg, INITIAL, steps);
            PersistedAll(t, s.written) == RecordedAll(t, NormalizeAll(s.accepted))
  {
    EveryAcceptedRecordIsWrittenOnce(cfg, steps);
    CutsAreInvisible(t, Run(cfg, INITIAL, steps).written);
  }
}
