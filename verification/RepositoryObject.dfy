/** The usage-recording part of the repository, updating its tables in place (internal/storage/repository.go). */
module RepositoryObject {
  import opened Common
  import opened Ledger

  /** The logs of a batch as they are written: nil entries skipped, fields clamped. */
  function Written(logs: seq<Option<UsageLog>>): seq<UsageLog> {
    if logs == [] then []
    else
      var last := logs[|logs| - 1];
      Written(logs[..|logs| - 1]) + if last.Some? then [Normalize(last.value)] else []
  }

  /** What the four maps of the batch loop hold after the logs `done`. */
  ghost predicate Totals(done: seq<UsageLog>, keyCost: map<string, real>, keyTokens: map<string, int>,
                         keyTenant: map<string, string>, orphans: map<string, real>) {
    && keyCost.Keys == keyTokens.Keys == KeysIn(done)
    && (forall k :: k in keyCost ==> keyCost[k] == CostOf(done, k) && keyTokens[k] == TokensOf(done, k))
    && (forall k :: k != "" ==> GetOr(keyTenant, k, "") == LastTenant(done, k))
    && orphans.Keys <= TenantsIn(done)
    && (forall tenant :: tenant != "" ==> GetOr(orphans, tenant, 0.0) == KeylessCost(done, tenant))
  }

  lemma {:induction false} AbsentKeyIsZero(done: seq<UsageLog>, k: string)
    requires k != "" && k !in KeysIn(done)
    ensures CostOf(done, k) == 0.0 && TokensOf(done, k) == 0
  {
    if done != [] {
      var n := |done| - 1;
      assert done[n].apiKey != k;
      forall i | 0 <= i < n && done[..n][i].apiKey != ""
        ensures done[..n][i].apiKey in KeysIn(done)
      {
        assert done[..n][i] == done[i];
      }
      AbsentKeyIsZero(done[..n], k);
    }
  }

  lemma SumsSnoc(done: seq<UsageLog>, log: UsageLog)
    ensures forall k :: CostOf(done + [log], k) == CostOf(done, k) + if log.apiKey == k then log.cost else 0.0
    ensures forall k :: TokensOf(done + [log], k) == TokensOf(done, k) + if log.apiKey == k then log.totalTokens else 0
    ensures forall k :: LastTenant(done + [log], k)
                     == if log.apiKey == k && log.tenantId != "" then log.tenantId else LastTenant(done, k)
    ensures forall tenant :: KeylessCost(done + [log], tenant)
                          == KeylessCost(done, tenant)
                             + if log.apiKey == "" && log.tenantId == tenant && log.cost > 0.0 then log.cost else 0.0
  {
    var now := done + [log];
    assert now[..|now| - 1] == done && now[|now| - 1] == log;
  }

  lemma KeyedTotalsStep(done: seq<UsageLog>, log: UsageLog, keyCost: map<string, real>, keyTokens: map<string, int>,
                        keyTenant: map<string, string>, orphans: map<string, real>)
    requires Totals(done, keyCost, keyTokens, keyTenant, orphans) && log.apiKey != ""
    ensures var k := log.apiKey;
            Totals(done + [log],
              keyCost[k := GetOr(keyCost, k, 0.0) + log.cost], keyTokens[k := GetOr(keyTokens, k, 0) + log.totalTokens],
              if log.tenantId != "" then keyTenant[k := log.tenantId] else keyTenant, orphans)
  {
    SumsSnoc(done, log);
    KeysInSnoc(done, log);
    TenantsInSnoc(done, log);
    hide CostOf, TokensOf, LastTenant, KeylessCost, KeysIn, TenantsIn;
    if log.apiKey !in KeysIn(done) {
      AbsentKeyIsZero(done, log.apiKey);
    }
  }

  lemma KeylessTotalsStep(done: seq<UsageLog>, log: UsageLog, keyCost: map<string, real>, keyTokens: map<string, int>,
                          keyTenant: map<string, string>, orphans: map<string, real>)
    requires Totals(done, keyCost, keyTokens, keyTenant, orphans) && log.apiKey == ""
    ensures Totals(done + [log], keyCost, keyTokens, keyTenant,
              if log.tenantId != "" && log.cost > 0.0
              then orphans[log.tenantId := GetOr(orphans, log.tenantId, 0.0) + log.cost] else orphans)
  {
    SumsSnoc(done, log);
    KeysInSnoc(done, log);
    TenantsInSnoc(done, log);
    assert "" !in KeysIn(done);
    hide CostOf, TokensOf, LastTenant, KeylessCost, KeysIn, TenantsIn;
  }

  lemma KeysInSnoc(done: seq<UsageLog>, log: UsageLog)
    ensures KeysIn(done + [log]) == KeysIn(done) + if log.apiKey != "" then {log.apiKey} else {}
  {
    var now := done + [log];
    forall k
      ensures k in KeysIn(now) <==> k in KeysIn(done) || (k != "" && k == log.apiKey)
    {
      if k in KeysIn(done) {
        var i :| 0 <= i < |done| && done[i].apiKey != "" && done[i].apiKey == k;
        assert now[i] == done[i];
      }
      if k != "" && k == log.apiKey {
        assert now[|done|].apiKey == k;
      }
    }
  }

  lemma TenantsInSnoc(done: seq<UsageLog>, log: UsageLog)
    ensures TenantsIn(done + [log]) == TenantsIn(done) + if log.tenantId != "" then {log.tenantId} else {}
  {
    var now := done + [log];
    forall k
      ensures k in TenantsIn(now) <==> k in TenantsIn(done) || (k != "" && k == log.tenantId)
    {
      if k in TenantsIn(done) {
        var i :| 0 <= i < |done| && done[i].tenantId != "" && done[i].tenantId == k;
        assert now[i] == done[i];
      }
      if k != "" && k == log.tenantId {
        assert now[|done|].tenantId == k;
      }
    }
  }

  lemma {:induction false} LastTenantIsPresent(logs: seq<UsageLog>, k: string)
    ensures LastTenant(logs, k) != "" ==> LastTenant(logs, k) in TenantsIn(logs)
  {
    if logs != [] {
      var n := |logs| - 1;
      LastTenantIsPresent(logs[..n], k);
      TenantsInSnoc(logs[..n], logs[n]);
      assert logs == logs[..n] + [logs[n]];
    }
  }

  /** The users once the keys in `done` have paid what their owners owe. */
  ghost predicate OwnersPaid(t: Tables, logs: seq<UsageLog>, done: set<string>, users: map<int, UserRow>) {
    && users.Keys == t.users.Keys
    && forall id :: id in users ==> users[id] == Debit(t.users[id], SumOver(done, OwnerShare(t, logs, id)))
  }

  /** The tenant bills once the ownerless keys in `done` have been added. */
  ghost predicate OrphansBilled(t: Tables, logs: seq<UsageLog>, done: set<string>, orphans: map<string, real>) {
    && orphans.Keys <= TenantsIn(logs)
    && forall tenant :: tenant != "" ==>
         GetOr(orphans, tenant, 0.0) == KeylessCost(logs, tenant) + SumOver(done, OrphanShare(t, logs, tenant))
  }

  ghost predicate TenantsPaid(t: Tables, logs: seq<UsageLog>, done: set<string>, users: map<int, UserRow>) {
    && users.Keys == t.users.Keys
    && forall id :: id in users ==>
         users[id] == Debit(t.users[id],
           SumOver(KeysIn(logs), OwnerShare(t, logs, id)) + SumOver(done, TenantShare(t, logs, id)))
  }

  predicate SameOwners(keys: map<string, KeyRow>, before: map<string, KeyRow>) {
    keys.Keys == before.Keys && forall k :: k in keys ==> keys[k].userId == before[k].userId
  }

  /** Owners do not change while balances are charged. */
  lemma OwnersStay(t: Tables, logs: seq<UsageLog>, done: set<string>, keys: map<string, KeyRow>,
                   users: map<int, UserRow>, k: string)
    requires OwnersPaid(t, logs, done, users) && SameOwners(keys, t.keys)
    ensures OwnerOf(keys, users, k) == OwnerOf(t.keys, t.users, k)
    ensures var owner := OwnerOf(t.keys, t.users, k);
            owner.Some? ==>
              owner.value in users && owner.value in t.users && IsAdmin(users[owner.value]) == IsAdmin(t.users[owner.value])
  {
    hide SumOver, OwnerShare;
  }

  lemma OwnerShareAt(t: Tables, logs: seq<UsageLog>, id: int, k: string)
    ensures OwnerShare(t, logs, id)(k)
         == if OwnerOf(t.keys, t.users, k) == Some(id) && id in t.users && !IsAdmin(t.users[id])
            then Positive(CostOf(logs, k)) else 0.0
  {
  }

  lemma OwnerStep(t: Tables, logs: seq<UsageLog>, done: set<string>, users: map<int, UserRow>, k: string)
    requires OwnersPaid(t, logs, done, users) && k !in done
    ensures var cost := CostOf(logs, k);
            var owner := OwnerOf(t.keys, t.users, k);
            OwnersPaid(t, logs, done + {k},
              if cost > 0.0 && owner.Some? && owner.value in t.users && !IsAdmin(t.users[owner.value])
              then users[owner.value := Debit(users[owner.value], cost)] else users)
  {
    hide SumOver, CostOf, OwnerShare, OwnerOf;
    forall id | id in users
      ensures SumOver(done + {k}, OwnerShare(t, logs, id))
           == SumOver(done, OwnerShare(t, logs, id))
              + if OwnerOf(t.keys, t.users, k) == Some(id) && !IsAdmin(t.users[id]) then Positive(CostOf(logs, k)) else 0.0
    {
      SumOverAdd(done, k, OwnerShare(t, logs, id));
      OwnerShareAt(t, logs, id, k);
    }
  }

  lemma OrphanStep(t: Tables, logs: seq<UsageLog>, done: set<string>, orphans: map<string, real>, k: string)
    requires OrphansBilled(t, logs, done, orphans) && k !in done
    ensures var cost := CostOf(logs, k);
            var tenant := LastTenant(logs, k);
            OrphansBilled(t, logs, done + {k},
              if cost > 0.0 && OwnerOf(t.keys, t.users, k).None? && tenant != ""
              then orphans[tenant := GetOr(orphans, tenant, 0.0) + cost] else orphans)
  {
    LastTenantIsPresent(logs, k);
    forall tenant | tenant != ""
      ensures SumOver(done + {k}, OrphanShare(t, logs, tenant))
           == OrphanShare(t, logs, tenant)(k) + SumOver(done, OrphanShare(t, logs, tenant))
    {
      SumOverAdd(done, k, OrphanShare(t, logs, tenant));
    }
  }

  lemma TenantShareAt(t: Tables, logs: seq<UsageLog>, id: int, tenant: string)
    ensures TenantShare(t, logs, id)(tenant)
         == if id in t.users && Reached(t.users[id], tenant) then Positive(TenantBill(t, logs, tenant)) else 0.0
  {
  }

  lemma TenantStep(t: Tables, logs: seq<UsageLog>, done: set<string>, users: map<int, UserRow>, tenant: string)
    requires TenantsPaid(t, logs, done, users) && tenant !in done
    ensures var bill := TenantBill(t, logs, tenant);
            TenantsPaid(t, logs, done + {tenant}, if bill > 0.0 then ChargeTenant(users, tenant, bill) else users)
  {
    hide SumOver, TenantBill, KeysIn, OwnerShare, TenantShare;
    forall id | id in users
      ensures SumOver(done + {tenant}, TenantShare(t, logs, id))
           == SumOver(done, TenantShare(t, logs, id))
              + if Reached(t.users[id], tenant) then Positive(TenantBill(t, logs, tenant)) else 0.0
    {
      SumOverAdd(done, tenant, TenantShare(t, logs, id));
      TenantShareAt(t, logs, id, tenant);
    }
  }

  lemma UnbilledShare(t: Tables, logs: seq<UsageLog>, orphans: map<string, real>, id: int, tenant: string)
    requires OrphansBilled(t, logs, KeysIn(logs), orphans) && tenant != "" && tenant !in orphans
    ensures TenantShare(t, logs, id)(tenant) == 0.0
  {
    hide SumOver, OrphanShare, TenantShare, KeysIn, TenantsIn, Reached, KeylessCost;
    assert GetOr(orphans, tenant, 0.0) == TenantBill(t, logs, tenant);
    TenantShareAt(t, logs, id, tenant);
  }

  /** Tenants that were never billed owe nothing, so paying the billed ones pays all. */
  lemma UnbilledOweNothing(t: Tables, logs: seq<UsageLog>, orphans: map<string, real>, users: map<int, UserRow>)
    requires OrphansBilled(t, logs, KeysIn(logs), orphans) && orphans.Keys <= TenantsIn(logs)
    requires TenantsPaid(t, logs, orphans.Keys - {""}, users)
    ensures TenantsPaid(t, logs, TenantsIn(logs), users)
  {
    assert "" !in TenantsIn(logs);
    hide SumOver, OwnerShare, TenantShare, KeysIn, TenantsIn, OrphansBilled;
    forall id | id in users
      ensures SumOver(orphans.Keys - {""}, TenantShare(t, logs, id)) == SumOver(TenantsIn(logs), TenantShare(t, logs, id))
    {
      forall tenant | tenant in TenantsIn(logs) - (orphans.Keys - {""})
        ensures TenantShare(t, logs, id)(tenant) == 0.0
      {
        UnbilledShare(t, logs, orphans, id, tenant);
      }
      SumOverSubset(orphans.Keys - {""}, TenantsIn(logs), TenantShare(t, logs, id));
    }
  }

  lemma StartTenants(t: Tables, logs: seq<UsageLog>, users: map<int, UserRow>)
    requires OwnersPaid(t, logs, KeysIn(logs), users)
    ensures TenantsPaid(t, logs, {}, users)
  {
  }

  lemma AllPaid(t: Tables, logs: seq<UsageLog>, users: map<int, UserRow>)
    requires TenantsPaid(t, logs, TenantsIn(logs), users)
    ensures users == Batched(t, logs).users
  {
    hide KeyAfter, Rows, CostOf, TokensOf, SumOver, OwnerShare, TenantShare, KeysIn, TenantsIn;
  }

  lemma NoLogs()
    ensures Totals([], map[], map[], map[], map[]) && Rows([]) == []
  {
  }

  lemma RowsSnoc(done: seq<UsageLog>, log: UsageLog)
    ensures Rows(done + [log]) == Rows(done) + [RowOf(log)]
  {
  }

  /** The bills before any ownerless key is added are those of the keyless logs. */
  lemma NothingPaidYet(t: Tables, logs: seq<UsageLog>, keyCost: map<string, real>, keyTokens: map<string, int>,
                       keyTenant: map<string, string>, orphans: map<string, real>)
    requires Totals(logs, keyCost, keyTokens, keyTenant, orphans)
    ensures OwnersPaid(t, logs, {}, t.users) && OrphansBilled(t, logs, {}, orphans)
  {
  }

  lemma BatchedRows(t: Tables, logs: seq<UsageLog>)
    ensures Batched(t, logs).rows == t.rows + Rows(logs)
  {
  }

  lemma OwnersUnchanged(t: Tables, logs: seq<UsageLog>)
    ensures SameOwners(Batched(t, logs).keys, t.keys)
  {
  }

  /** The users after the batch total of one key has been charged to its owner. */
  function OwnerCharged(keys: map<string, KeyRow>, users: map<int, UserRow>, k: string, cost: real): map<int, UserRow> {
    var owner := OwnerOf(keys, users, k);
    if cost > 0.0 && owner.Some? && !IsAdmin(users[owner.value])
    then users[owner.value := Debit(users[owner.value], cost)] else users
  }

  /** The tenant bills after the batch total of one key without owner has been added. */
  function OrphanAdded(keys: map<string, KeyRow>, users: map<int, UserRow>, k: string, cost: real, tenant: string,
                       orphans: map<string, real>): map<string, real> {
    if cost > 0.0 && OwnerOf(keys, users, k).None? && tenant != ""
    then orphans[tenant := GetOr(orphans, tenant, 0.0) + cost] else orphans
  }

  /** All keys but those in `left` have been settled. */
  ghost predicate Settling(t: Tables, logs: seq<UsageLog>, left: set<string>, users: map<int, UserRow>,
                           orphans: map<string, real>) {
    OwnersPaid(t, logs, KeysIn(logs) - left, users) && OrphansBilled(t, logs, KeysIn(logs) - left, orphans)
  }

  lemma SettlingEnds(t: Tables, logs: seq<UsageLog>, users: map<int, UserRow>, orphans: map<string, real>)
    ensures Settling(t, logs, KeysIn(logs), users, orphans)
       <==> OwnersPaid(t, logs, {}, users) && OrphansBilled(t, logs, {}, orphans)
    ensures Settling(t, logs, {}, users, orphans)
       <==> OwnersPaid(t, logs, KeysIn(logs), users) && OrphansBilled(t, logs, KeysIn(logs), orphans)
  {
    hide OwnersPaid, OrphansBilled;
    assert KeysIn(logs) - KeysIn(logs) == {};
    assert KeysIn(logs) - {} == KeysIn(logs);
  }

  lemma KeyTotalStep(t: Tables, logs: seq<UsageLog>, left: set<string>, keys: map<string, KeyRow>,
                     users: map<int, UserRow>, orphans: map<string, real>, k: string)
    requires Settling(t, logs, left, users, orphans) && SameOwners(keys, t.keys) && k in left && k in KeysIn(logs)
    ensures Settling(t, logs, left - {k}, OwnerCharged(keys, users, k, CostOf(logs, k)),
              OrphanAdded(keys, users, k, CostOf(logs, k), LastTenant(logs, k), orphans))
  {
    var done := KeysIn(logs) - left;
    assert KeysIn(logs) - (left - {k}) == done + {k};
    hide KeysIn, CostOf, LastTenant, SumOver, OwnerShare, OrphanShare;
    assert OwnersPaid(t, logs, done + {k}, OwnerCharged(keys, users, k, CostOf(logs, k))) by {
      OwnersStay(t, logs, done, keys, users, k);
      OwnerStep(t, logs, done, users, k);
    }
    assert OrphansBilled(t, logs, done + {k}, OrphanAdded(keys, users, k, CostOf(logs, k), LastTenant(logs, k), orphans)) by {
      OwnersStay(t, logs, done, keys, users, k);
      OrphanStep(t, logs, done, orphans, k);
    }
  }

  class Repository {
    var keys: map<string, KeyRow>
    var users: map<int, UserRow>
    var rows: seq<Row>

    function View(): Tables
      reads this
    {
      Tables(keys, users, rows)
    }

    // The SQL statements.

    method UpdateKey(key: string, cost: real, tokens: int)
      modifies this`keys
      ensures keys == ChargeKey(old(keys), key, cost, tokens)
    {
      if key in keys {
        keys := keys[key := keys[key].(usedCost := keys[key].usedCost + cost, usedTokens := keys[key].usedTokens + tokens)];
      }
    }

    /** Charges the owner unless an admin; `affected` is the number of rows updated. */
    method UpdateOwner(key: string, cost: real) returns (affected: nat)
      modifies this`users
      ensures var owner := OwnerOf(keys, old(users), key);
              if owner.Some? && !IsAdmin(old(users)[owner.value])
              then affected == 1 && users == old(users)[owner.value := Debit(old(users)[owner.value], cost)]
              else affected == 0 && users == old(users)
    {
      affected := 0;
      var owner := OwnerOf(keys, users, key);
      if owner.Some? && users[owner.value].role != "admin" {
        users := users[owner.value := Debit(users[owner.value], cost)];
        affected := 1;
      }
    }

    method OwnerIsAdmin(key: string) returns (admin: bool)
      ensures admin <==> OwnerOf(keys, users, key).Some? && IsAdmin(users[OwnerOf(keys, users, key).value])
    {
      var owner := OwnerOf(keys, users, key);
      return owner.Some? && users[owner.value].role == "admin";
    }

    method UpdateTenant(tenant: string, cost: real)
      modifies this`users
      ensures users == ChargeTenant(old(users), tenant, cost)
    {
      users := ChargeTenant(users, tenant, cost);
    }

    method Insert(log: UsageLog)
      modifies this`rows
      ensures rows == old(rows) + [RowOf(log)]
    {
      var traceId := log.traceId;
      if traceId == "" {
        traceId := if log.sessionId != "" then log.sessionId else log.clockTrace;
      }
      var isOff := if log.isOffPeak then 1 else 0;
      var discount := log.discount;
      if discount <= 0.0 {
        discount := 1.0;
      }
      rows := rows + [Row(traceId, log.chatId, log.sessionId, log.apiKey, log.tenantId, log.model, log.channel,
                          log.promptTokens, log.completionTokens, log.cachedTokens, log.totalTokens,
                          log.cost, isOff, discount, log.createdAt, log.meta)];
    }

    method RecordUsageLog(rec: UsageLog)
      modifies this
      ensures View() == Recorded(old(View()), Normalize(rec))
    {
      var log := Normalize(rec);
      Insert(log);
      if log.apiKey != "" && (log.cost > 0.0 || log.totalTokens > 0) {
        UpdateKey(log.apiKey, log.cost, log.totalTokens);
        if log.cost > 0.0 {
          var affected := UpdateOwner(log.apiKey, log.cost);
          if affected == 0 && log.tenantId != "" {
            var admin := OwnerIsAdmin(log.apiKey);
            if !admin {
              UpdateTenant(log.tenantId, log.cost);
            }
          }
        }
      } else if log.tenantId != "" && log.cost > 0.0 {
        UpdateTenant(log.tenantId, log.cost);
      }
    }

    /** A single nil log is a crash in the source; nil logs inside a longer batch are skipped. */
    method BatchRecordUsageLogs(logs: seq<Option<UsageLog>>)
      requires |logs| == 1 ==> logs[0].Some?
      modifies this
      ensures View() == if |logs| == 1 then Recorded(old(View()), Normalize(logs[0].value))
                        else Batched(old(View()), Written(logs))
    {
      ghost var t := View();
      if |logs| == 0 {
        EmptyBatch(t);
        return;
      }
      if |logs| == 1 {
        RecordUsageLog(logs[0].value);
        return;
      }
      hide Batched, OwnersPaid, OrphansBilled;
      var keyCost, keyTokens, keyTenant, orphans := InsertAll(logs);
      ghost var done := Written(logs);
      NothingPaidYet(t, done, keyCost, keyTokens, keyTenant, orphans);
      OwnersUnchanged(t, done);
      UpdateKeys(t, done, keyCost, keyTokens);
      orphans := ChargeOwners(t, done, keyCost, keyTenant, orphans);
      ChargeTenants(t, done, orphans);
      assert rows == Batched(t, done).rows by { BatchedRows(t, done); }
    }

    method InsertAll(logs: seq<Option<UsageLog>>)
      returns (keyCost: map<string, real>, keyTokens: map<string, int>, keyTenant: map<string, string>,
               orphans: map<string, real>)
      modifies this`rows
      ensures rows == old(rows) + Rows(Written(logs))
      ensures Totals(Written(logs), keyCost, keyTokens, keyTenant, orphans)
    {
      keyCost, keyTokens, keyTenant, orphans := map[], map[], map[], map[];
      NoLogs();
      hide Totals, Rows, Normalize;
      for i := 0 to |logs|
        invariant rows == old(rows) + Rows(Written(logs[..i]))
        invariant Totals(Written(logs[..i]), keyCost, keyTokens, keyTenant, orphans)
      {
        assert logs[..i + 1][..i] == logs[..i];
        if logs[i].None? {
          assert Written(logs[..i]) + [] == Written(logs[..i]);
          continue;
        }
        var log := Normalize(logs[i].value);
        ghost var done := Written(logs[..i]);
        assert Written(logs[..i + 1]) == done + [log];
        RowsSnoc(done, log);
        Insert(log);
        var k := log.apiKey;
        if k != "" {
          KeyedTotalsStep(done, log, keyCost, keyTokens, keyTenant, orphans);
          keyCost := keyCost[k := GetOr(keyCost, k, 0.0) + log.cost];
          keyTokens := keyTokens[k := GetOr(keyTokens, k, 0) + log.totalTokens];
          if log.tenantId != "" {
            keyTenant := keyTenant[k := log.tenantId];
          }
        } else {
          KeylessTotalsStep(done, log, keyCost, keyTokens, keyTenant, orphans);
          if log.tenantId != "" && log.cost > 0.0 {
            orphans := orphans[log.tenantId := GetOr(orphans, log.tenantId, 0.0) + log.cost];
          }
        }
      }
      assert logs[..|logs|] == logs;
    }

    /** Map iteration order is arbitrary: each round picks any key not yet seen. */
    method UpdateKeys(ghost t: Tables, ghost logs: seq<UsageLog>, keyCost: map<string, real>, keyTokens: map<string, int>)
      requires keys == t.keys && keyCost.Keys == keyTokens.Keys == KeysIn(logs)
      requires forall k :: k in keyCost ==> keyCost[k] == CostOf(logs, k) && keyTokens[k] == TokensOf(logs, k)
      modifies this`keys
      ensures keys == Batched(t, logs).keys
    {
      assert "" !in KeysIn(logs);
      hide CostOf, TokensOf, KeysIn, OwnerShare, OrphanShare, BatchCharge, Rows;
      var left := keyCost.Keys;
      while left != {}
        invariant left <= KeysIn(logs)
        invariant keys.Keys == t.keys.Keys
        invariant forall k :: k in keys ==>
                    keys[k] == if k in KeysIn(logs) - left then KeyAfter(t.keys[k], CostOf(logs, k), TokensOf(logs, k))
                               else t.keys[k]
      {
        var k :| k in left;
        left := left - {k};
        if keyCost[k] > 0.0 || keyTokens[k] > 0 {
          UpdateKey(k, keyCost[k], keyTokens[k]);
        }
      }
      forall k | k in keys && k != ""
        ensures keys[k] == KeyAfter(t.keys[k], CostOf(logs, k), TokensOf(logs, k))
      {
        if k !in KeysIn(logs) {
          AbsentKeyIsZero(logs, k);
        }
      }
    }

    /** The batch total of one key goes to its owner, or onto the bill of its tenant. */
    method ChargeKeyTotal(k: string, cost: real, tenant: string, billed: map<string, real>)
      returns (orphans: map<string, real>)
      modifies this`users
      ensures users == OwnerCharged(keys, old(users), k, cost)
      ensures orphans == OrphanAdded(keys, old(users), k, cost, tenant, billed)
    {
      orphans := billed;
      if cost > 0.0 {
        var affected := UpdateOwner(k, cost);
        if affected == 0 {
          var admin := OwnerIsAdmin(k);
          if !admin && tenant != "" {
            orphans := orphans[tenant := GetOr(orphans, tenant, 0.0) + cost];
          }
        }
      }
    }

    method ChargeOwners(ghost t: Tables, ghost logs: seq<UsageLog>, keyCost: map<string, real>,
                        keyTenant: map<string, string>, billed: map<string, real>)
      returns (orphans: map<string, real>)
      requires keyCost.Keys == KeysIn(logs) && SameOwners(keys, t.keys)
      requires forall k :: k in keyCost ==> keyCost[k] == CostOf(logs, k)
      requires forall k :: k != "" ==> GetOr(keyTenant, k, "") == LastTenant(logs, k)
      requires OwnersPaid(t, logs, {}, users) && OrphansBilled(t, logs, {}, billed)
      modifies this`users
      ensures OwnersPaid(t, logs, KeysIn(logs), users) && OrphansBilled(t, logs, KeysIn(logs), orphans)
    {
      assert "" !in KeysIn(logs);
      hide OwnersPaid, OrphansBilled, CostOf, LastTenant, KeysIn, SameOwners, Settling, OwnerCharged, OrphanAdded;
      orphans := billed;
      SettlingEnds(t, logs, users, orphans);
      var left := keyCost.Keys;
      while left != {}
        invariant left <= keyCost.Keys
        invariant Settling(t, logs, left, users, orphans)
      {
        var k :| k in left;
        KeyTotalStep(t, logs, left, keys, users, orphans, k);
        left := left - {k};
        orphans := ChargeKeyTotal(k, keyCost[k], GetOr(keyTenant, k, ""), orphans);
      }
      SettlingEnds(t, logs, users, orphans);
    }

    method ChargeTenants(ghost t: Tables, ghost logs: seq<UsageLog>, orphans: map<string, real>)
      requires OwnersPaid(t, logs, KeysIn(logs), users) && OrphansBilled(t, logs, KeysIn(logs), orphans)
      modifies this`users
      ensures users == Batched(t, logs).users
    {
      StartTenants(t, logs, users);
      assert "" !in orphans;
      assert forall tenant :: tenant in orphans ==> orphans[tenant] == TenantBill(t, logs, tenant);
      hide OwnersPaid, OrphansBilled, TenantsPaid, TenantBill, ChargeTenant, TenantsIn, KeysIn, Batched;
      var left := orphans.Keys;
      ghost var done: set<string> := {};
      while left != {}
        invariant left !! done && left + done == orphans.Keys
        invariant TenantsPaid(t, logs, done, users)
      {
        var tenant :| tenant in left;
        left := left - {tenant};
        TenantStep(t, logs, done, users, tenant);
        if orphans[tenant] > 0.0 {
          UpdateTenant(tenant, orphans[tenant]);
        }
        done := done + {tenant};
      }
      assert done == orphans.Keys - {""};
      UnbilledOweNothing(t, logs, orphans, users);
      AllPaid(t, logs, users);
    }
  }

  lemma EmptyBatch(t: Tables)
    ensures Batched(t, []) == t
  {
    assert KeysIn([]) == {} && TenantsIn([]) == {};
    assert Rows([]) == [];
  }
}
