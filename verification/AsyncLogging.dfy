/** The in-memory batching worker in front of the ledger (internal/storage/async_logger.go, local path). */
module AsyncLogging {
  import opened Common
  import opened Ledger
  import opened RepositoryObject

  datatype Phase = Running | Draining | Exited

  /** `queue` is the buffered channel, `written` the batches handed to the repository. */
  datatype State = State(
    queue: seq<UsageLog>, batch: seq<UsageLog>, stopping: bool, phase: Phase,
    accepted: seq<UsageLog>, written: seq<seq<UsageLog>>)

  const INITIAL := State([], [], false, Running, [], [])

  datatype Settings = Settings(bufferSize: nat, batchSize: nat)

  function NewSettings(bufferSize: int, batchSize: int): Settings {
    Settings(if bufferSize <= 0 then 10000 else bufferSize, if batchSize <= 0 then 100 else batchSize)
  }

  /** What the worker, a producer, the ticker or `Stop` does next. */
  datatype Step = Record(rec: UsageLog) | Receive | Tick | Stop | BeginDrain | DrainOne | DrainEnd

  function WithTrace(rec: UsageLog): UsageLog {
    if rec.traceId != "" then rec
    else rec.(traceId := if rec.sessionId != "" then rec.sessionId else rec.clockTrace)
  }

  function Flushed(s: State): State {
    if s.batch == [] then s else s.(batch := [], written := s.written + [s.batch])
  }

  predicate Enabled(s: State, step: Step) {
    match step
    case Record(_) => true
    case Receive => s.phase == Running && s.queue != []
    case Tick => s.phase == Running
    case Stop => !s.stopping
    case BeginDrain => s.phase == Running && s.stopping
    case DrainOne => s.phase == Draining && s.queue != []
    case DrainEnd => s.phase == Draining && s.queue == []
  }

  function Next(cfg: Settings, s: State, step: Step): State
    requires Enabled(s, step)
  {
    match step
    case Record(rec) =>
      if |s.queue| < cfg.bufferSize
      then s.(queue := s.queue + [WithTrace(rec)], accepted := s.accepted + [WithTrace(rec)])
      else s
    case Receive =>
      var r := s.(queue := s.queue[1..], batch := s.batch + [s.queue[0]]);
      if |r.batch| >= cfg.batchSize then Flushed(r) else r
    case Tick => Flushed(s)
    case Stop => s.(stopping := true)
    case BeginDrain => s.(phase := Draining)
    case DrainOne => s.(queue := s.queue[1..], batch := s.batch + [s.queue[0]])
    case DrainEnd => Flushed(s).(phase := Exited)
  }

  /** Draining with no producer in between. */
  function Drained(s: State): State {
    Flushed(s.(queue := [], batch := s.batch + s.queue)).(phase := Exited)
  }

  function Present(logs: seq<UsageLog>): (r: seq<Option<UsageLog>>)
    ensures |r| == |logs|
  {
    seq(|logs|, i requires 0 <= i < |logs| => Some(logs[i]))
  }

  function NormalizeAll(logs: seq<UsageLog>): (r: seq<UsageLog>)
    ensures |r| == |logs|
  {
    seq(|logs|, i requires 0 <= i < |logs| => Normalize(logs[i]))
  }

  /** The tables after the repository has written a batch. */
  ghost function Persisted(t: Tables, batch: seq<UsageLog>): Tables {
    if |batch| == 1 then Recorded(t, Normalize(batch[0])) else Batched(t, NormalizeAll(batch))
  }

  ghost function PersistedAll(t: Tables, batches: seq<seq<UsageLog>>): Tables {
    if batches == [] then t else Persisted(PersistedAll(t, batches[..|batches| - 1]), batches[|batches| - 1])
  }

  lemma {:induction false} PresentIsWritten(logs: seq<UsageLog>)
    ensures Written(Present(logs)) == NormalizeAll(logs)
  {
    if logs != [] {
      var n := |logs| - 1;
      PresentIsWritten(logs[..n]);
      assert Present(logs)[..n] == Present(logs[..n]);
      assert NormalizeAll(logs) == NormalizeAll(logs[..n]) + [Normalize(logs[n])];
    }
  }

  lemma PersistedSnoc(t: Tables, batches: seq<seq<UsageLog>>, batch: seq<UsageLog>)
    ensures PersistedAll(t, batches + [batch]) == Persisted(PersistedAll(t, batches), batch)
  {
    hide Persisted;
    assert (batches + [batch])[..|batches + [batch]| - 1] == batches;
  }

  class AsyncLogger {
    const repo: Repository
    const settings: Settings
    ghost const start: Tables
    var ch: seq<UsageLog>
    var batch: seq<UsageLog>
    var stopping: bool
    var phase: Phase
    ghost var accepted: seq<UsageLog>
    ghost var written: seq<seq<UsageLog>>

    ghost function Value(): State
      reads this
    {
      State(ch, batch, stopping, phase, accepted, written)
    }

    /** The repository holds what the batches written so far make of the tables at the start. */
    ghost predicate Valid()
      reads this, repo
    {
      repo.View() == PersistedAll(start, written)
    }

    constructor (repo: Repository, bufferSize: int, batchSize: int)
      ensures Valid() && this.repo == repo && Value() == INITIAL
      ensures settings == NewSettings(bufferSize, batchSize) && start == old(repo.View())
    {
      this.repo := repo;
      settings := NewSettings(bufferSize, batchSize);
      start := repo.View();
      ch, batch, stopping, phase := [], [], false, Running;
      accepted, written := [], [];
    }

    method Record(rec: UsageLog)
      requires Valid()
      modifies this
      ensures Valid() && Value() == Next(settings, old(Value()), Step.Record(rec))
    {
      var traced := rec;
      if rec.traceId == "" {
        if rec.sessionId != "" {
          traced := rec.(traceId := rec.sessionId);
        } else {
          traced := rec.(traceId := rec.clockTrace);
        }
      }
      if |ch| < settings.bufferSize {
        ch := ch + [traced];
        accepted := accepted + [traced];
      }
    }

    method Flush()
      requires Valid()
      modifies this, repo
      ensures Valid() && Value() == Flushed(old(Value()))
    {
      hide Normalize, Recorded, Batched, Written, NormalizeAll, PersistedAll;
      if |batch| == 0 {
        return;
      }
      PresentIsWritten(batch);
      PersistedSnoc(start, written, batch);
      var logs := Present(batch);
      assert |logs| == 1 ==> logs[0].value == batch[0];
      repo.BatchRecordUsageLogs(logs);
      written := written + [batch];
      batch := [];
    }

    method OnReceive()
      requires Valid() && Enabled(Value(), Receive)
      modifies this, repo
      ensures Valid() && Value() == Next(settings, old(Value()), Receive)
    {
      var rec := ch[0];
      ch := ch[1..];
      batch := batch + [rec];
      if |batch| >= settings.batchSize {
        Flush();
      }
    }

    method OnTick()
      requires Valid() && Enabled(Value(), Tick)
      modifies this, repo
      ensures Valid() && Value() == Next(settings, old(Value()), Tick)
    {
      Flush();
    }

    method Stop()
      requires Valid() && Enabled(Value(), Step.Stop)
      modifies this`stopping
      ensures Valid() && Value() == Next(settings, old(Value()), Step.Stop)
    {
      stopping := true;
    }

    method OnStop()
      requires Valid() && Enabled(Value(), BeginDrain)
      modifies this, repo
      ensures Valid() && Value() == Drained(old(Value()))
    {
      phase := Draining;
      while ch != []
        invariant Valid() && phase == Draining && stopping == old(stopping)
        invariant batch + ch == old(batch + ch)
        invariant accepted == old(accepted) && written == old(written)
        decreases |ch|
      {
        var rec := ch[0];
        assert batch + ch == batch + [rec] + ch[1..];
        ch := ch[1..];
        batch := batch + [rec];
      }
      assert batch == old(batch + ch);
      Flush();
      phase := Exited;
    }
  }
}
