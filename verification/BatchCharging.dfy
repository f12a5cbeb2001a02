/** When charging a batch equals charging its logs one at a time. */
module BatchCharging {
  import opened Common
  import opened Ledger

  predicate NonNegative(logs: seq<UsageLog>) {
    forall i :: 0 <= i < |logs| ==> logs[i].cost >= 0.0 && logs[i].totalTokens >= 0
  }

  /** A positive charge to `tenant` takes from user `id`. */
  predicate Reaches(t: Tables, id: int, tenant: string) {
    && id in t.users && tenant != "" && t.users[id].role != "admin"
    && (t.users[id].username == tenant || t.users[id].email == tenant)
  }

  /** A log with a key that no user row owns. */
  predicate IsOrphan(t: Tables, log: UsageLog) {
    log.apiKey != "" && !HasOwner(t, log.apiKey)
  }

  predicate HasOwner(t: Tables, key: string) { key in t.keys && t.keys[key].userId in t.users }

  /** What a log takes from user `id`, `tenant` being billed where there is no owner. */
  function Share(t: Tables, log: UsageLog, tenant: string, id: int): real {
    if log.cost <= 0.0 then 0.0
    else if log.apiKey != "" && HasOwner(t, log.apiKey) then
      if t.keys[log.apiKey].userId == id && t.users[id].role != "admin" then log.cost else 0.0
    else if Reaches(t, id, tenant) then log.cost
    else 0.0
  }

  function SingleCharge(t: Tables, logs: seq<UsageLog>, id: int): real {
    if logs == [] then 0.0
    else
      var last := logs[|logs| - 1];
      SingleCharge(t, logs[..|logs| - 1], id) + Share(t, last, last.tenantId, id)
  }

  /** The tenant a batch bills for a log: its own without a key, else the key's last tenant. */
  function Billed(all: seq<UsageLog>, log: UsageLog): string {
    if log.apiKey == "" then log.tenantId else LastTenant(all, log.apiKey)
  }

  function GroupedCharge(t: Tables, logs: seq<UsageLog>, all: seq<UsageLog>, id: int): real {
    if logs == [] then 0.0
    else
      var last := logs[|logs| - 1];
      GroupedCharge(t, logs[..|logs| - 1], all, id) + Share(t, last, Billed(all, last), id)
  }

  // ---- One at a time ----

  predicate SameShape(a: Tables, b: Tables) {
    && a.keys.Keys == b.keys.Keys
    && (forall k :: k in a.keys ==> a.keys[k].userId == b.keys[k].userId)
    && a.users.Keys == b.users.Keys
    && (forall id :: id in a.users ==> a.users[id].(balance := 0.0) == b.users[id].(balance := 0.0))
  }

  lemma RecordedOne(t: Tables, log: UsageLog)
    ensures SameShape(Recorded(t, log), t)
    ensures forall id :: id in t.users ==> Recorded(t, log).users[id] == Debit(t.users[id], Share(t, log, log.tenantId, id))
  {
  }

  lemma ShareOfShape(a: Tables, b: Tables, log: UsageLog, tenant: string, id: int)
    requires SameShape(a, b)
    ensures Share(a, log, tenant, id) == Share(b, log, tenant, id)
  {
    if id in a.users {
      assert a.users[id].(balance := 0.0) == b.users[id].(balance := 0.0);
    }
  }

  lemma {:induction false} RecordedUsers(t: Tables, logs: seq<UsageLog>)
    ensures SameShape(RecordedAll(t, logs), t)
    ensures forall id :: id in t.users ==> RecordedAll(t, logs).users[id] == Debit(t.users[id], SingleCharge(t, logs, id))
  {
    if logs != [] {
      var n := |logs| - 1;
      var before := RecordedAll(t, logs[..n]);
      RecordedUsers(t, logs[..n]);
      RecordedOne(before, logs[n]);
      hide Recorded, Share;
      forall id | id in t.users
        ensures Share(before, logs[n], logs[n].tenantId, id) == Share(t, logs[n], logs[n].tenantId, id)
      {
        ShareOfShape(before, t, logs[n], logs[n].tenantId, id);
      }
    }
  }

  /** One log at a time: each balance falls by the user's charge, and nothing else of a user changes. */
  lemma BalancesAfterSingles(t: Tables, logs: seq<UsageLog>, id: int)
    requires id in t.users
    ensures id in RecordedAll(t, logs).users
    ensures RecordedAll(t, logs).users[id] == t.users[id].(balance := t.users[id].balance - SingleCharge(t, logs, id))
  {
    hide SingleCharge;
    RecordedUsers(t, logs);
  }

  lemma RecordedOneKey(t: Tables, log: UsageLog, k: string)
    requires k in t.keys
    ensures Recorded(t, log).keys.Keys == t.keys.Keys
    ensures Recorded(t, log).keys[k]
         == if k != "" && log.apiKey == k then KeyAfter(t.keys[k], log.cost, log.totalTokens) else t.keys[k]
  {
  }

  lemma KeyAfterTwice(row: KeyRow, c0: real, n0: int, c: real, n: int)
    requires c0 >= 0.0 && n0 >= 0 && c >= 0.0 && n >= 0
    ensures KeyAfter(KeyAfter(row, c0, n0), c, n) == KeyAfter(row, c0 + c, n0 + n)
    ensures KeyAfter(row, 0.0, 0) == row
  {
  }

  lemma {:induction false} CostsAreNonNegative(logs: seq<UsageLog>, k: string)
    requires NonNegative(logs)
    ensures CostOf(logs, k) >= 0.0 && TokensOf(logs, k) >= 0
  {
    if logs != [] {
      CostsAreNonNegative(logs[..|logs| - 1], k);
    }
  }

  lemma {:induction false} RecordedKey(t: Tables, logs: seq<UsageLog>, k: string)
    requires NonNegative(logs) && k in t.keys
    ensures k in RecordedAll(t, logs).keys
    ensures RecordedAll(t, logs).keys[k]
         == if k == "" then t.keys[k] else KeyAfter(t.keys[k], CostOf(logs, k), TokensOf(logs, k))
  {
    hide KeyAfter, Recorded;
    KeyAfterTwice(t.keys[k], 0.0, 0, 0.0, 0);
    if logs != [] {
      var front := logs[..|logs| - 1];
      var last := logs[|logs| - 1];
      RecordedKey(t, front, k);
      RecordedOneKey(RecordedAll(t, front), last, k);
      CostsAreNonNegative(front, k);
      KeyAfterTwice(t.keys[k], CostOf(front, k), TokensOf(front, k), last.cost, last.totalTokens);
    }
  }

  lemma {:induction false} RecordedRows(t: Tables, logs: seq<UsageLog>)
    ensures RecordedAll(t, logs).rows == t.rows + Rows(logs)
  {
    if logs == [] {
      assert Rows(logs) == [];
    } else {
      var n := |logs| - 1;
      RecordedRows(t, logs[..n]);
      assert Rows(logs) == Rows(logs[..n]) + [RowOf(logs[n])];
    }
  }

  // ---- Regrouping a sum by class ----

  ghost function CostBy(logs: seq<UsageLog>, cls: UsageLog -> string, k: string): real {
    if logs == [] then 0.0
    else
      var last := logs[|logs| - 1];
      CostBy(logs[..|logs| - 1], cls, k) + if cls(last) == k then last.cost else 0.0
  }

  ghost function ClassShare(logs: seq<UsageLog>, cls: UsageLog -> string, w: string -> bool): string -> real {
    k => if w(k) then CostBy(logs, cls, k) else 0.0
  }

  /** The cost of the logs whose class is in `s` and counts. */
  ghost function CostIn(logs: seq<UsageLog>, cls: UsageLog -> string, w: string -> bool, s: set<string>): real {
    if logs == [] then 0.0
    else
      var last := logs[|logs| - 1];
      CostIn(logs[..|logs| - 1], cls, w, s) + if cls(last) in s && w(cls(last)) then last.cost else 0.0
  }

  lemma {:induction false} SumOverSame(s: set<string>, f: string -> real, g: string -> real)
    requires forall x :: x in s ==> f(x) == g(x)
    ensures SumOver(s, f) == SumOver(s, g)
  {
    if s != {} {
      var x :| x in s;
      SumOverPull(s, x, f);
      SumOverPull(s, x, g);
      SumOverSame(s - {x}, f, g);
    }
  }

  lemma SumOverBump(s: set<string>, f: string -> real, g: string -> real, x: string, d: real)
    requires x in s && g(x) == f(x) + d && forall y :: y in s && y != x ==> f(y) == g(y)
    ensures SumOver(s, g) == SumOver(s, f) + d
  {
    SumOverPull(s, x, f);
    SumOverPull(s, x, g);
    SumOverSame(s - {x}, f, g);
  }

  lemma {:induction false} SumOverZero(s: set<string>, f: string -> real)
    requires forall x :: x in s ==> f(x) == 0.0
    ensures SumOver(s, f) == 0.0
  {
    if s != {} {
      var x :| x in s;
      SumOverPull(s, x, f);
      SumOverZero(s - {x}, f);
    }
  }

  lemma {:induction false} Regroup(logs: seq<UsageLog>, cls: UsageLog -> string, w: string -> bool, s: set<string>)
    ensures SumOver(s, ClassShare(logs, cls, w)) == CostIn(logs, cls, w, s)
  {
    hide SumOver;
    if logs == [] {
      SumOverZero(s, ClassShare(logs, cls, w));
    } else {
      var front := logs[..|logs| - 1];
      var last := logs[|logs| - 1];
      Regroup(front, cls, w, s);
      if cls(last) in s && w(cls(last)) {
        SumOverBump(s, ClassShare(front, cls, w), ClassShare(logs, cls, w), cls(last), last.cost);
      } else {
        SumOverSame(s, ClassShare(front, cls, w), ClassShare(logs, cls, w));
      }
    }
  }

  // ---- A batch, regrouped per log ----

  ghost function ByKey(): UsageLog -> string { (log: UsageLog) => log.apiKey }

  ghost function ByBill(t: Tables, all: seq<UsageLog>): UsageLog -> string {
    (log: UsageLog) => if log.apiKey == "" || IsOrphan(t, log) then Billed(all, log) else ""
  }

  ghost function OwnedBy(t: Tables, id: int): string -> bool {
    k => OwnerOf(t.keys, t.users, k) == Some(id) && id in t.users && !IsAdmin(t.users[id])
  }

  ghost function OrphanOf(t: Tables, all: seq<UsageLog>, tenant: string): string -> bool {
    k => OwnerOf(t.keys, t.users, k).None? && LastTenant(all, k) == tenant
  }

  ghost function ReachedFrom(t: Tables, id: int): string -> bool {
    tenant => id in t.users && Reached(t.users[id], tenant)
  }

  lemma {:induction false} CostByKeyIsCostOf(logs: seq<UsageLog>, k: string)
    requires NonNegative(logs)
    ensures CostBy(logs, ByKey(), k) == CostOf(logs, k) >= 0.0
  {
    if logs != [] {
      CostByKeyIsCostOf(logs[..|logs| - 1], k);
    }
  }

  lemma OwnerPart(t: Tables, logs: seq<UsageLog>, id: int)
    requires NonNegative(logs)
    ensures SumOver(KeysIn(logs), OwnerShare(t, logs, id)) == CostIn(logs, ByKey(), OwnedBy(t, id), KeysIn(logs))
  {
    hide SumOver, CostOf, CostBy, CostIn, KeysIn, NonNegative;
    forall k | k in KeysIn(logs)
      ensures OwnerShare(t, logs, id)(k) == ClassShare(logs, ByKey(), OwnedBy(t, id))(k)
    {
      CostByKeyIsCostOf(logs, k);
    }
    SumOverSame(KeysIn(logs), OwnerShare(t, logs, id), ClassShare(logs, ByKey(), OwnedBy(t, id)));
    Regroup(logs, ByKey(), OwnedBy(t, id), KeysIn(logs));
  }

  /** Bills are what the logs billed to the tenant cost. */
  lemma {:induction false} BillIsCostByBill(t: Tables, logs: seq<UsageLog>, all: seq<UsageLog>, tenant: string)
    requires NonNegative(logs) && tenant != ""
    requires forall i :: 0 <= i < |logs| && logs[i].apiKey != "" ==> logs[i].apiKey in KeysIn(all)
    ensures KeylessCost(logs, tenant) + CostIn(logs, ByKey(), OrphanOf(t, all, tenant), KeysIn(all))
         == CostBy(logs, ByBill(t, all), tenant) >= 0.0
  {
    if logs != [] {
      hide KeysIn, LastTenant, OwnerOf;
      BillIsCostByBill(t, logs[..|logs| - 1], all, tenant);
      EmptyKeyNotIn(all);
    }
  }

  lemma EmptyKeyNotIn(logs: seq<UsageLog>)
    ensures "" !in KeysIn(logs) && "" !in TenantsIn(logs)
  {
  }

  lemma AllKeysIn(logs: seq<UsageLog>)
    ensures forall i :: 0 <= i < |logs| && logs[i].apiKey != "" ==> logs[i].apiKey in KeysIn(logs)
    ensures forall i :: 0 <= i < |logs| && logs[i].tenantId != "" ==> logs[i].tenantId in TenantsIn(logs)
  {
  }

  lemma TenantBillIsCostByBill(t: Tables, logs: seq<UsageLog>, tenant: string)
    requires NonNegative(logs) && tenant != ""
    ensures TenantBill(t, logs, tenant) == CostBy(logs, ByBill(t, logs), tenant) >= 0.0
  {
    AllKeysIn(logs);
    hide SumOver, CostOf, CostBy, CostIn, KeysIn, NonNegative, LastTenant, OwnerOf, KeylessCost;
    forall k | k in KeysIn(logs)
      ensures OrphanShare(t, logs, tenant)(k) == ClassShare(logs, ByKey(), OrphanOf(t, logs, tenant))(k)
    {
      CostByKeyIsCostOf(logs, k);
    }
    SumOverSame(KeysIn(logs), OrphanShare(t, logs, tenant), ClassShare(logs, ByKey(), OrphanOf(t, logs, tenant)));
    Regroup(logs, ByKey(), OrphanOf(t, logs, tenant), KeysIn(logs));
    BillIsCostByBill(t, logs, logs, tenant);
  }

  lemma TenantPart(t: Tables, logs: seq<UsageLog>, id: int)
    requires NonNegative(logs)
    ensures SumOver(TenantsIn(logs), TenantShare(t, logs, id))
         == CostIn(logs, ByBill(t, logs), ReachedFrom(t, id), TenantsIn(logs))
  {
    EmptyKeyNotIn(logs);
    hide SumOver, CostBy, CostIn, TenantsIn, NonNegative, TenantBill, ByBill;
    forall tenant | tenant in TenantsIn(logs)
      ensures TenantShare(t, logs, id)(tenant) == ClassShare(logs, ByBill(t, logs), ReachedFrom(t, id))(tenant)
    {
      TenantBillIsCostByBill(t, logs, tenant);
    }
    SumOverSame(TenantsIn(logs), TenantShare(t, logs, id), ClassShare(logs, ByBill(t, logs), ReachedFrom(t, id)));
    Regroup(logs, ByBill(t, logs), ReachedFrom(t, id), TenantsIn(logs));
  }

  lemma {:induction false} LastTenantListed(logs: seq<UsageLog>, k: string)
    ensures LastTenant(logs, k) != "" ==> exists i :: 0 <= i < |logs| && logs[i].apiKey == k && logs[i].tenantId == LastTenant(logs, k)
  {
    if logs != [] {
      var n := |logs| - 1;
      LastTenantListed(logs[..n], k);
      if LastTenant(logs, k) != "" && !(logs[n].apiKey == k && logs[n].tenantId != "") {
        var i :| 0 <= i < n && logs[..n][i].apiKey == k && logs[..n][i].tenantId == LastTenant(logs, k);
        assert logs[i].apiKey == k;
      }
    }
  }

  lemma BilledIsListed(logs: seq<UsageLog>, log: UsageLog)
    requires log in logs
    ensures Billed(logs, log) == "" || Billed(logs, log) in TenantsIn(logs)
  {
    LastTenantListed(logs, log.apiKey);
    AllKeysIn(logs);
  }

  lemma OneShare(t: Tables, all: seq<UsageLog>, log: UsageLog, id: int)
    requires log in all && log.cost >= 0.0
    ensures Share(t, log, Billed(all, log), id)
         == (if ByKey()(log) in KeysIn(all) && OwnedBy(t, id)(ByKey()(log)) then log.cost else 0.0)
          + (if ByBill(t, all)(log) in TenantsIn(all) && ReachedFrom(t, id)(ByBill(t, all)(log)) then log.cost else 0.0)
  {
    AllKeysIn(all);
    EmptyKeyNotIn(all);
    BilledIsListed(all, log);
    hide KeysIn, TenantsIn, Billed, IsAdmin, Reached;
  }

  lemma {:induction false} GroupedIsRegrouped(t: Tables, logs: seq<UsageLog>, all: seq<UsageLog>, id: int)
    requires NonNegative(logs) && forall i :: 0 <= i < |logs| ==> logs[i] in all
    ensures GroupedCharge(t, logs, all, id)
         == CostIn(logs, ByKey(), OwnedBy(t, id), KeysIn(all))
            + CostIn(logs, ByBill(t, all), ReachedFrom(t, id), TenantsIn(all))
  {
    hide Share, KeysIn, TenantsIn, Billed, ByKey, ByBill, OwnedBy, ReachedFrom;
    if logs != [] {
      GroupedIsRegrouped(t, logs[..|logs| - 1], all, id);
      OneShare(t, all, logs[|logs| - 1], id);
    }
  }

  /** What a batch takes from a user, log by log. */
  lemma BatchChargeIsGrouped(t: Tables, logs: seq<UsageLog>, id: int)
    requires NonNegative(logs)
    ensures BatchCharge(t, logs, id) == GroupedCharge(t, logs, logs, id)
  {
    OwnerPart(t, logs, id);
    TenantPart(t, logs, id);
    GroupedIsRegrouped(t, logs, logs, id);
  }

  /** A batch: each balance falls by the batch's charge, which for costs of no less than zero its logs add up to. */
  lemma BalancesAfterBatch(t: Tables, logs: seq<UsageLog>, id: int)
    requires id in t.users
    ensures id in Batched(t, logs).users
    ensures Batched(t, logs).users[id] == t.users[id].(balance := t.users[id].balance - BatchCharge(t, logs, id))
    ensures NonNegative(logs) ==>
              Batched(t, logs).users[id] == t.users[id].(balance := t.users[id].balance - GroupedCharge(t, logs, logs, id))
  {
    hide BatchCharge, GroupedCharge, NonNegative;
    if NonNegative(logs) {
      BatchChargeIsGrouped(t, logs, id);
    }
  }

  /** Cost and tokens of the logs of a key, summed over the logs themselves; `all` or only those that charge something. */
  function Spent(logs: seq<UsageLog>, k: string, all: bool): (r: (real, int)) {
    if logs == [] then (0.0, 0)
    else
      var before, last := Spent(logs[..|logs| - 1], k, all), logs[|logs| - 1];
      if last.apiKey == k && (all || last.cost > 0.0 || last.totalTokens > 0)
      then (before.0 + last.cost, before.1 + last.totalTokens) else before
  }

  lemma {:induction false} SpentIsTotals(logs: seq<UsageLog>, k: string)
    ensures Spent(logs, k, true) == (CostOf(logs, k), TokensOf(logs, k))
    ensures NonNegative(logs) ==> Spent(logs, k, false) == Spent(logs, k, true)
  {
    if logs != [] {
      SpentIsTotals(logs[..|logs| - 1], k);
    }
  }

  /** One at a time a key's usage grows by the cost and tokens of those of its logs that charge something; its owner stays. */
  lemma {:induction false} UsageAfterSingles(t: Tables, logs: seq<UsageLog>, k: string)
    requires k in t.keys && k != ""
    ensures k in RecordedAll(t, logs).keys
    ensures RecordedAll(t, logs).keys[k]
         == KeyRow(t.keys[k].userId, t.keys[k].usedCost + Spent(logs, k, false).0, t.keys[k].usedTokens + Spent(logs, k, false).1)
  {
    hide Recorded;
    if logs != [] {
      UsageAfterSingles(t, logs[..|logs| - 1], k);
      RecordedOneKey(RecordedAll(t, logs[..|logs| - 1]), logs[|logs| - 1], k);
    }
  }

  /** In a batch it grows by the totals of all its logs, if one of the totals is positive. */
  lemma UsageAfterBatch(t: Tables, logs: seq<UsageLog>, k: string)
    requires k in t.keys && k != ""
    ensures k in Batched(t, logs).keys
    ensures var (cost, tokens) := Spent(logs, k, true);
            Batched(t, logs).keys[k] == (if cost > 0.0 || tokens > 0
              then KeyRow(t.keys[k].userId, t.keys[k].usedCost + cost, t.keys[k].usedTokens + tokens) else t.keys[k])
  {
    hide CostOf, TokensOf, Spent, BatchCharge;
    SpentIsTotals(logs, k);
  }

  // ---- The comparison ----

  /** For each orphan log that costs something, its tenant and the key's last tenant reach the same users. */
  ghost predicate SameReach(t: Tables, logs: seq<UsageLog>) {
    forall i, id :: 0 <= i < |logs| && id in t.users && IsOrphan(t, logs[i]) && logs[i].cost > 0.0 ==>
      (Reaches(t, id, logs[i].tenantId) <==> Reaches(t, id, LastTenant(logs, logs[i].apiKey)))
  }

  predicate OneTenantPerKey(logs: seq<UsageLog>) {
    forall i, j :: 0 <= i < |logs| && 0 <= j < |logs| && logs[i].apiKey != "" && logs[i].apiKey == logs[j].apiKey ==>
      logs[i].tenantId == logs[j].tenantId
  }

  lemma {:induction false} GroupedIsSingle(t: Tables, logs: seq<UsageLog>, all: seq<UsageLog>, id: int)
    requires SameReach(t, all) && logs <= all
    ensures GroupedCharge(t, logs, all, id) == SingleCharge(t, logs, id)
  {
    hide LastTenant, OwnerOf;
    if logs != [] {
      GroupedIsSingle(t, logs[..|logs| - 1], all, id);
      var last := logs[|logs| - 1];
      assert all[|logs| - 1] == last;
      assert Share(t, last, Billed(all, last), id) == Share(t, last, last.tenantId, id);
    }
  }

  lemma KeysAgree(t: Tables, logs: seq<UsageLog>)
    requires NonNegative(logs)
    ensures Batched(t, logs).keys == RecordedAll(t, logs).keys
  {
    RecordedUsers(t, logs);
    hide CostOf, TokensOf, KeyAfter, RecordedAll, NonNegative, BatchCharge;
    forall k | k in t.keys
      ensures Batched(t, logs).keys[k] == RecordedAll(t, logs).keys[k]
    {
      RecordedKey(t, logs, k);
    }
  }

  lemma UsersAgree(t: Tables, logs: seq<UsageLog>)
    requires NonNegative(logs)
    ensures Batched(t, logs).users == RecordedAll(t, logs).users
       <==> forall id :: id in t.users ==> GroupedCharge(t, logs, logs, id) == SingleCharge(t, logs, id)
  {
    var b := Batched(t, logs).users;
    var r := RecordedAll(t, logs).users;
    RecordedUsers(t, logs);
    hide CostOf, TokensOf, KeyAfter, RecordedAll, NonNegative, BatchCharge, GroupedCharge, SingleCharge;
    assert b.Keys == r.Keys == t.users.Keys;
    forall id | id in t.users
      ensures b[id] == r[id] <==> GroupedCharge(t, logs, logs, id) == SingleCharge(t, logs, id)
    {
      BatchChargeIsGrouped(t, logs, id);
    }
    assert b == r <==> forall id :: id in t.users ==> b[id] == r[id];
  }

  lemma TablesAgree(t: Tables, logs: seq<UsageLog>)
    requires NonNegative(logs)
    ensures Batched(t, logs) == RecordedAll(t, logs)
       <==> forall id :: id in t.users ==> GroupedCharge(t, logs, logs, id) == SingleCharge(t, logs, id)
  {
    KeysAgree(t, logs);
    UsersAgree(t, logs);
    RecordedRows(t, logs);
    assert Batched(t, logs).rows == t.rows + Rows(logs);
    hide Batched, RecordedAll, GroupedCharge, SingleCharge;
  }

  /** Charging a batch is charging its logs one by one, in any map order, where orphan keys keep one reach. */
  lemma BatchRefinesSingles(t: Tables, logs: seq<UsageLog>)
    requires NonNegative(logs) && SameReach(t, logs)
    ensures Batched(t, logs) == RecordedAll(t, logs)
  {
    hide Batched, RecordedAll, SameReach, NonNegative;
    TablesAgree(t, logs);
    forall id | id in t.users
      ensures GroupedCharge(t, logs, logs, id) == SingleCharge(t, logs, id)
    {
      GroupedIsSingle(t, logs, logs, id);
    }
  }

  lemma {:induction false} OneTenantIsLast(logs: seq<UsageLog>, i: nat)
    requires OneTenantPerKey(logs) && i < |logs| && logs[i].apiKey != ""
    ensures LastTenant(logs, logs[i].apiKey) == logs[i].tenantId
  {
    var n := |logs| - 1;
    var k := logs[i].apiKey;
    if !(logs[n].apiKey == k && logs[n].tenantId != "") {
      if i < n {
        assert logs[..n][i] == logs[i];
        OneTenantIsLast(logs[..n], i);
      } else {
        LastTenantListed(logs, k);
      }
    }
  }

  lemma OneTenantGivesSameReach(t: Tables, logs: seq<UsageLog>)
    requires OneTenantPerKey(logs)
    ensures SameReach(t, logs)
  {
    forall i, id | 0 <= i < |logs| && id in t.users && IsOrphan(t, logs[i]) && logs[i].cost > 0.0
      ensures Reaches(t, id, logs[i].tenantId) <==> Reaches(t, id, LastTenant(logs, logs[i].apiKey))
    {
      OneTenantIsLast(logs, i);
    }
  }

  // ---- The exact condition, user by user ----

  /** Batching moves the log's cost onto the user: the key's last tenant reaches the user, the log's own does not. */
  predicate MovesOnto(t: Tables, all: seq<UsageLog>, log: UsageLog, id: int) {
    IsOrphan(t, log) && log.cost > 0.0 && !Reaches(t, id, log.tenantId) && Reaches(t, id, LastTenant(all, log.apiKey))
  }

  predicate MovesOff(t: Tables, all: seq<UsageLog>, log: UsageLog, id: int) {
    IsOrphan(t, log) && log.cost > 0.0 && Reaches(t, id, log.tenantId) && !Reaches(t, id, LastTenant(all, log.apiKey))
  }

  function MovedOnto(t: Tables, logs: seq<UsageLog>, all: seq<UsageLog>, id: int): real {
    if logs == [] then 0.0
    else
      var last := logs[|logs| - 1];
      MovedOnto(t, logs[..|logs| - 1], all, id) + if MovesOnto(t, all, last, id) then last.cost else 0.0
  }

  function MovedOff(t: Tables, logs: seq<UsageLog>, all: seq<UsageLog>, id: int): real {
    if logs == [] then 0.0
    else
      var last := logs[|logs| - 1];
      MovedOff(t, logs[..|logs| - 1], all, id) + if MovesOff(t, all, last, id) then last.cost else 0.0
  }

  lemma OneMoves(t: Tables, all: seq<UsageLog>, log: UsageLog, id: int)
    ensures Share(t, log, Billed(all, log), id) - Share(t, log, log.tenantId, id)
         == (if MovesOnto(t, all, log, id) then log.cost else 0.0) - if MovesOff(t, all, log, id) then log.cost else 0.0
  {
    hide LastTenant, OwnerOf, Reaches;
  }

  /** What a batch takes from a user beyond single recording is what it moves onto the user less what it moves off. */
  lemma {:induction false} GapIsWhatMoves(t: Tables, logs: seq<UsageLog>, all: seq<UsageLog>, id: int)
    ensures GroupedCharge(t, logs, all, id) - SingleCharge(t, logs, id) == MovedOnto(t, logs, all, id) - MovedOff(t, logs, all, id)
  {
    if logs != [] {
      hide Share, Billed, MovesOnto, MovesOff;
      GapIsWhatMoves(t, logs[..|logs| - 1], all, id);
      OneMoves(t, all, logs[|logs| - 1], id);
    }
  }

  /**
   * For all logs of non-negative cost: a batch leaves the tables of recording its logs one by one if and only
   * if, for every user, the cost of orphan logs it moves onto the user equals the cost it moves off.
   */
  lemma BatchEqualsSinglesIffNothingMoves(t: Tables, logs: seq<UsageLog>)
    requires NonNegative(logs)
    ensures Batched(t, logs) == RecordedAll(t, logs)
       <==> forall id :: id in t.users ==> MovedOnto(t, logs, logs, id) == MovedOff(t, logs, logs, id)
  {
    hide Batched, RecordedAll, GroupedCharge, SingleCharge, MovedOnto, MovedOff, NonNegative;
    TablesAgree(t, logs);
    forall id | id in t.users
      ensures GroupedCharge(t, logs, logs, id) == SingleCharge(t, logs, id)
         <==> MovedOnto(t, logs, logs, id) == MovedOff(t, logs, logs, id)
    {
      GapIsWhatMoves(t, logs, logs, id);
    }
  }

  // ---- The condition is exact when at most one orphan key is charged ----

  predicate OneOrphanKey(t: Tables, logs: seq<UsageLog>, key: string) {
    forall i :: 0 <= i < |logs| && IsOrphan(t, logs[i]) && logs[i].cost > 0.0 ==> logs[i].apiKey == key
  }

  /**
   * The two charges of a user differ in one direction only: upwards if the key's last tenant
   * reaches the user, else downwards. Equal sums therefore mean equal terms.
   */
  lemma {:induction false} GapIsOneSided(t: Tables, logs: seq<UsageLog>, all: seq<UsageLog>, key: string, id: int)
    requires NonNegative(logs) && OneOrphanKey(t, logs, key)
    ensures var up := Reaches(t, id, LastTenant(all, key));
            var gap := GroupedCharge(t, logs, all, id) - SingleCharge(t, logs, id);
            && (up ==> gap >= 0.0)
            && (!up ==> gap <= 0.0)
            && (gap == 0.0 ==> forall i :: 0 <= i < |logs| && IsOrphan(t, logs[i]) && logs[i].cost > 0.0 ==>
                                 (Reaches(t, id, logs[i].tenantId) <==> up))
  {
    hide LastTenant, OwnerOf, Reached;
    if logs != [] {
      var n := |logs| - 1;
      GapIsOneSided(t, logs[..n], all, key, id);
      var last := logs[n];
      assert forall i :: 0 <= i < n ==> logs[..n][i] == logs[i];
      assert !IsOrphan(t, last) || last.cost <= 0.0 ==>
          Share(t, last, Billed(all, last), id) == Share(t, last, last.tenantId, id);
    }
  }

  /** Exact condition: with one orphan key charged, batch and single agree if and only if its logs keep one reach. */
  lemma BatchEqualsSinglesIff(t: Tables, logs: seq<UsageLog>, key: string)
    requires NonNegative(logs) && OneOrphanKey(t, logs, key)
    ensures Batched(t, logs) == RecordedAll(t, logs) <==> SameReach(t, logs)
  {
    if SameReach(t, logs) {
      BatchRefinesSingles(t, logs);
    }
    if Batched(t, logs) == RecordedAll(t, logs) {
      TablesAgree(t, logs);
      hide Batched, RecordedAll, GroupedCharge, SingleCharge, LastTenant, OwnerOf, Reached;
      forall i, id | 0 <= i < |logs| && id in t.users && IsOrphan(t, logs[i]) && logs[i].cost > 0.0
        ensures Reaches(t, id, logs[i].tenantId) <==> Reaches(t, id, LastTenant(logs, logs[i].apiKey))
      {
        GapIsOneSided(t, logs, logs, key, id);
      }
    }
  }

  /** Two logs of one unowned key under two tenants: one at a time each tenant pays, in a batch the last pays all. */
  lemma LastTenantPaysAll(t: Tables, a: UsageLog, b: UsageLog)
    requires t.keys == map[]
    requires t.users == map[1 := UserRow("ann", "", "user", 10.0), 2 := UserRow("bob", "", "user", 10.0)]
    requires a.apiKey == b.apiKey == "k" && a.tenantId == "ann" && b.tenantId == "bob"
    requires a.cost == 3.0 && b.cost == 4.0 && a.totalTokens == b.totalTokens == 7
    ensures SingleCharge(t, [a, b], 1) == 3.0 && SingleCharge(t, [a, b], 2) == 4.0
    ensures BatchCharge(t, [a, b], 1) == 0.0 && BatchCharge(t, [a, b], 2) == 7.0
  {
    hide BatchCharge, GroupedCharge, SingleCharge, LastTenant, Reached, Share;
    LastOfTwo(a, b);
    forall id | id in t.users
      ensures BatchCharge(t, [a, b], id) == Share(t, a, "bob", id) + Share(t, b, "bob", id)
      ensures SingleCharge(t, [a, b], id) == Share(t, a, "ann", id) + Share(t, b, "bob", id)
    {
      BatchChargeIsGrouped(t, [a, b], id);
      TwoLogs(t, a, b, [a, b], id);
    }
    SharesOfTwo(t, a);
    SharesOfTwo(t, b);
    assert 1 in t.users && 2 in t.users;
  }

  lemma LastOfTwo(a: UsageLog, b: UsageLog)
    requires a.apiKey == b.apiKey == "k" && b.tenantId == "bob"
    ensures LastTenant([a, b], "k") == "bob"
  {
  }

  lemma SharesOfTwo(t: Tables, log: UsageLog)
    requires t.keys == map[] && log.apiKey == "k" && log.cost > 0.0
    requires t.users == map[1 := UserRow("ann", "", "user", 10.0), 2 := UserRow("bob", "", "user", 10.0)]
    ensures Share(t, log, "ann", 1) == Share(t, log, "bob", 2) == log.cost
    ensures Share(t, log, "ann", 2) == Share(t, log, "bob", 1) == 0.0
  {
  }

  lemma TwoLogs(t: Tables, a: UsageLog, b: UsageLog, all: seq<UsageLog>, id: int)
    ensures SingleCharge(t, [a, b], id) == Share(t, a, a.tenantId, id) + Share(t, b, b.tenantId, id)
    ensures GroupedCharge(t, [a, b], all, id) == Share(t, a, Billed(all, a), id) + Share(t, b, Billed(all, b), id)
  {
    hide Share, Billed;
    assert [a, b][..1] == [a];
    assert [a][..0] == [];
    assert SingleCharge(t, [a], id) == SingleCharge(t, [], id) + Share(t, a, a.tenantId, id);
    assert GroupedCharge(t, [a], all, id) == GroupedCharge(t, [], all, id) + Share(t, a, Billed(all, a), id);
  }
}
