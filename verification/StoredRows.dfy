/** What a usage log still says once it has been stored (internal/storage/repository.go). */
module StoredRows {
  import opened Common
  import opened Limits
  import opened Ledger
  import opened BatchCharging

  /** A row as the audit list reads it. */
  function Listed(row: Row, clockTrace: string): UsageLog {
    UsageLog(row.traceId, row.chatId, row.sessionId, row.apiKey, row.tenantId, row.model, row.channel,
             row.promptTokens, row.completionTokens, row.cachedTokens, row.totalTokens,
             row.cost, row.isOff == 1, row.discount, row.createdAt, row.meta, clockTrace)
  }

  /** The log with what is filled in when it has no trace id or no discount. */
  function Completed(log: UsageLog): UsageLog {
    log.(traceId := if log.traceId == "" then (if log.sessionId == "" then log.clockTrace else log.sessionId) else log.traceId,
         discount := if log.discount > 0.0 then log.discount else 1.0)
  }

  /** A stored log reads back as it was, but for a missing trace id and a discount that is none. */
  lemma ReadsBack(log: UsageLog)
    ensures Listed(RowOf(log), log.clockTrace) == Completed(log)
  {
  }

  /** One at a time or in a batch, the logs follow the rows there were, in order, and read back. */
  lemma RowsReadBack(t: Tables, logs: seq<UsageLog>, i: nat)
    requires i < |logs|
    ensures var singles, batch := RecordedAll(t, logs).rows, Batched(t, logs).rows;
            && singles == batch && |singles| == |t.rows| + |logs| && t.rows <= singles
            && Listed(singles[|t.rows| + i], logs[i].clockTrace) == Completed(logs[i])
  {
    hide Completed, Listed, BatchCharge, RecordedAll;
    RecordedRows(t, logs);
    ReadsBack(logs[i]);
  }

  function Min(a: nat, b: nat): nat { if a < b then a else b }

  /** Clamping cuts four names to what their columns hold, a prefix each, and touches nothing else. */
  lemma NormalizedFits(log: UsageLog)
    ensures var n := Normalize(log);
            && n.model == log.model[..Min(|log.model|, 128)] && n.channel == log.channel[..Min(|log.channel|, 128)]
            && n.tenantId == log.tenantId[..Min(|log.tenantId|, 128)] && n.apiKey == log.apiKey[..Min(|log.apiKey|, 255)]
            && n.(model := log.model, channel := log.channel, tenantId := log.tenantId, apiKey := log.apiKey) == log
            && Normalize(n) == n
  {
  }
}
