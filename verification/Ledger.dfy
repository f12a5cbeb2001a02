/**
 * Charging usage to API keys and user balances, one log at a time or in a batch
 * (internal/storage/repository.go:410-637). Money is an exact `real`; each SQL statement is
 * modelled by its effect on the tables, and every statement and commit succeeds.
 */
module Ledger {
  import opened Common
  import opened Limits

  /**
   * `clockTrace` is the id the clock would give a log without one; `meta` stands for the
   * durations and the status code, which are stored as they come.
   */
  datatype UsageLog = UsageLog(
    traceId: string, chatId: string, sessionId: string, apiKey: string, tenantId: string,
    model: string, channel: string,
    promptTokens: int, completionTokens: int, cachedTokens: int, totalTokens: int,
    cost: real, isOffPeak: bool, discount: real,
    createdAt: Option<int>, meta: int, clockTrace: string)

  datatype Row = Row(
    traceId: string, chatId: string, sessionId: string, apiKey: string, tenantId: string,
    model: string, channel: string,
    promptTokens: int, completionTokens: int, cachedTokens: int, totalTokens: int,
    cost: real, isOff: int, discount: real,
    createdAt: Option<int>, meta: int)

  datatype KeyRow = KeyRow(userId: int, usedCost: real, usedTokens: int)

  datatype UserRow = UserRow(username: string, email: string, role: string, balance: real)

  datatype Tables = Tables(keys: map<string, KeyRow>, users: map<int, UserRow>, rows: seq<Row>)

  function Normalize(log: UsageLog): UsageLog {
    log.(model := ClampRunes(log.model, 128), channel := ClampRunes(log.channel, 128),
         tenantId := ClampRunes(log.tenantId, 128), apiKey := ClampRunes(log.apiKey, 255))
  }

  function RowOf(log: UsageLog): Row {
    var trace := if log.traceId != "" then log.traceId else if log.sessionId != "" then log.sessionId else log.clockTrace;
    Row(trace, log.chatId, log.sessionId, log.apiKey, log.tenantId, log.model, log.channel,
        log.promptTokens, log.completionTokens, log.cachedTokens, log.totalTokens,
        log.cost, if log.isOffPeak then 1 else 0, if log.discount <= 0.0 then 1.0 else log.discount,
        log.createdAt, log.meta)
  }

  // ---- The effect of each statement ----

  function ChargeKey(keys: map<string, KeyRow>, key: string, cost: real, tokens: int): map<string, KeyRow> {
    if key in keys then
      keys[key := keys[key].(usedCost := keys[key].usedCost + cost, usedTokens := keys[key].usedTokens + tokens)]
    else keys
  }

  /** The user row that owns a key, when both exist. */
  function OwnerOf(keys: map<string, KeyRow>, users: map<int, UserRow>, key: string): Option<int> {
    if key in keys && keys[key].userId in users then Some(keys[key].userId) else None
  }

  function Debit(user: UserRow, cost: real): UserRow {
    user.(balance := user.balance - cost)
  }

  predicate IsAdmin(user: UserRow) { user.role == "admin" }

  predicate Reached(user: UserRow, tenant: string) {
    (user.username == tenant || user.email == tenant) && !IsAdmin(user)
  }

  function ChargeTenant(users: map<int, UserRow>, tenant: string, cost: real): map<int, UserRow> {
    map id | id in users :: if Reached(users[id], tenant) then Debit(users[id], cost) else users[id]
  }

  // ---- One log ----

  function ChargedFor(t: Tables, log: UsageLog): map<int, UserRow> {
    if log.cost <= 0.0 then t.users
    else if log.apiKey != "" then
      match OwnerOf(t.keys, t.users, log.apiKey)
      case Some(id) => if IsAdmin(t.users[id]) then t.users else t.users[id := Debit(t.users[id], log.cost)]
      case None => if log.tenantId != "" then ChargeTenant(t.users, log.tenantId, log.cost) else t.users
    else if log.tenantId != "" then ChargeTenant(t.users, log.tenantId, log.cost)
    else t.users
  }

  /** The tables after one (already normalized) log. */
  function Recorded(t: Tables, log: UsageLog): Tables {
    Tables(
      if log.apiKey != "" && (log.cost > 0.0 || log.totalTokens > 0)
      then ChargeKey(t.keys, log.apiKey, log.cost, log.totalTokens) else t.keys,
      ChargedFor(t, log),
      t.rows + [RowOf(log)])
  }

  function RecordedAll(t: Tables, logs: seq<UsageLog>): Tables {
    if logs == [] then t else Recorded(RecordedAll(t, logs[..|logs| - 1]), logs[|logs| - 1])
  }

  // ---- A batch: totals per key, then per tenant ----

  function CostOf(logs: seq<UsageLog>, key: string): real {
    if logs == [] then 0.0
    else CostOf(logs[..|logs| - 1], key) + if logs[|logs| - 1].apiKey == key then logs[|logs| - 1].cost else 0.0
  }

  function TokensOf(logs: seq<UsageLog>, key: string): int {
    if logs == [] then 0
    else TokensOf(logs[..|logs| - 1], key) + if logs[|logs| - 1].apiKey == key then logs[|logs| - 1].totalTokens else 0
  }

  /** The last non-empty tenant among the logs of a key, or "". */
  function LastTenant(logs: seq<UsageLog>, key: string): string {
    if logs == [] then ""
    else
      var last := logs[|logs| - 1];
      if last.apiKey == key && last.tenantId != "" then last.tenantId else LastTenant(logs[..|logs| - 1], key)
  }

  /** The positive cost of keyless logs of a tenant. */
  function KeylessCost(logs: seq<UsageLog>, tenant: string): real {
    if logs == [] then 0.0
    else
      var last := logs[|logs| - 1];
      KeylessCost(logs[..|logs| - 1], tenant)
        + if last.apiKey == "" && last.tenantId == tenant && last.cost > 0.0 then last.cost else 0.0
  }

  function KeysIn(logs: seq<UsageLog>): set<string> {
    set i | 0 <= i < |logs| && logs[i].apiKey != "" :: logs[i].apiKey
  }

  function TenantsIn(logs: seq<UsageLog>): set<string> {
    set i | 0 <= i < |logs| && logs[i].tenantId != "" :: logs[i].tenantId
  }

  function Positive(x: real): real { if x > 0.0 then x else 0.0 }

  ghost function SumOver(s: set<string>, f: string -> real): real {
    if s == {} then 0.0 else var x :| x in s; f(x) + SumOver(s - {x}, f)
  }

  /** What a key's batch total takes from user `id`. */
  ghost function OwnerShare(t: Tables, logs: seq<UsageLog>, id: int): string -> real {
    k => if OwnerOf(t.keys, t.users, k) == Some(id) && id in t.users && !IsAdmin(t.users[id]) then Positive(CostOf(logs, k))
         else 0.0
  }

  /** What a key without an owner adds to the bill of `tenant`. */
  ghost function OrphanShare(t: Tables, logs: seq<UsageLog>, tenant: string): string -> real {
    k => if OwnerOf(t.keys, t.users, k).None? && LastTenant(logs, k) == tenant then Positive(CostOf(logs, k)) else 0.0
  }

  ghost function TenantBill(t: Tables, logs: seq<UsageLog>, tenant: string): real {
    KeylessCost(logs, tenant) + SumOver(KeysIn(logs), OrphanShare(t, logs, tenant))
  }

  ghost function TenantShare(t: Tables, logs: seq<UsageLog>, id: int): string -> real {
    tenant => if id in t.users && Reached(t.users[id], tenant) then Positive(TenantBill(t, logs, tenant)) else 0.0
  }

  ghost function BatchCharge(t: Tables, logs: seq<UsageLog>, id: int): real {
    SumOver(KeysIn(logs), OwnerShare(t, logs, id)) + SumOver(TenantsIn(logs), TenantShare(t, logs, id))
  }

  function KeyAfter(row: KeyRow, cost: real, tokens: int): KeyRow {
    if cost > 0.0 || tokens > 0 then row.(usedCost := row.usedCost + cost, usedTokens := row.usedTokens + tokens) else row
  }

  function Rows(logs: seq<UsageLog>): (r: seq<Row>)
    ensures |r| == |logs|
  {
    seq(|logs|, i requires 0 <= i < |logs| => RowOf(logs[i]))
  }

  /** The tables after a batch of (already normalized) logs. */
  ghost function Batched(t: Tables, logs: seq<UsageLog>): Tables {
    Tables(
      map k | k in t.keys :: if k == "" then t.keys[k] else KeyAfter(t.keys[k], CostOf(logs, k), TokensOf(logs, k)),
      map id | id in t.users :: Debit(t.users[id], BatchCharge(t, logs, id)),
      t.rows + Rows(logs))
  }

  // ---- Sums over sets ----

  lemma {:induction false} SumOverPull(s: set<string>, x: string, f: string -> real)
    requires x in s
    ensures SumOver(s, f) == f(x) + SumOver(s - {x}, f)
  {
    var p :| p in s && SumOver(s, f) == f(p) + SumOver(s - {p}, f);
    if p != x {
      SumOverPull(s - {p}, x, f);
      SumOverPull(s - {x}, p, f);
      assert s - {p} - {x} == s - {x} - {p};
    }
  }

  lemma SumOverAdd(s: set<string>, x: string, f: string -> real)
    requires x !in s
    ensures SumOver(s + {x}, f) == f(x) + SumOver(s, f)
  {
    SumOverPull(s + {x}, x, f);
    assert s + {x} - {x} == s;
  }

  /** Members that contribute nothing may be left out. */
  lemma {:induction false} SumOverSubset(part: set<string>, whole: set<string>, f: string -> real)
    requires part <= whole && forall x :: x in whole - part ==> f(x) == 0.0
    ensures SumOver(part, f) == SumOver(whole, f)
    decreases |whole - part|
  {
    if whole - part == {} {
      assert part == whole;
    } else {
      var x :| x in whole - part;
      SumOverAdd(part, x, f);
      assert whole - (part + {x}) == whole - part - {x};
      SumOverSubset(part + {x}, whole, f);
    }
  }
}
