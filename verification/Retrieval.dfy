/** Which channels a request may use, and in which order (internal/router/dispatcher.go:124-185). */
module Retrieval {
  import opened Common
  import opened Channels
  import opened LoadBalancer

  /** What session affinity knows of one request: its id, and per model the Redis pin and hash. */
  datatype Session = Session(id: string, pin: string -> string, hash: string -> nat)

  predicate Matches(ch: Channel, model: string, proto: string) {
    (proto == "" || SupportsProtocol(ch, proto)) && SupportsModel(ch, model)
  }

  function Matched(channels: seq<Channel>, model: string, proto: string): seq<Channel> {
    if channels == [] then []
    else
      var n := |channels| - 1;
      Matched(channels[..n], model, proto) + if Matches(channels[n], model, proto) then [channels[n]] else []
  }

  /** Exactly the channels that serve the model, and speak the protocol if one is asked for, as often as configured. */
  lemma {:induction false} MatchedExactly(channels: seq<Channel>, model: string, proto: string, c: Channel)
    ensures multiset(Matched(channels, model, proto))[c]
         == if SupportsModel(c, model) && (proto == "" || SupportsProtocol(c, proto)) then multiset(channels)[c] else 0
  {
    hide SupportsModel, SupportsProtocol;
    if channels != [] {
      var n := |channels| - 1;
      assert channels == channels[..n] + [channels[n]];
      MatchedExactly(channels[..n], model, proto, c);
    }
  }

  /** The channels of one priority, in their order. */
  function Tier(cs: seq<Channel>, p: int): seq<Channel> {
    if cs == [] then []
    else
      var n := |cs| - 1;
      Tier(cs[..n], p) + if cs[n].priority == p then [cs[n]] else []
  }

  /** The priorities in use, each once, in order of first appearance. */
  function FirstSeen(cs: seq<Channel>): seq<int> {
    if cs == [] then []
    else
      var ps := FirstSeen(cs[..|cs| - 1]);
      var p := cs[|cs| - 1].priority;
      if p in ps then ps else ps + [p]
  }

  predicate Ascending(s: seq<int>) {
    forall i, j :: 0 <= i < j < |s| ==> s[i] <= s[j]
  }

  function Insert(s: seq<int>, x: int): seq<int> {
    if s == [] || x <= s[0] then [x] + s else [s[0]] + Insert(s[1..], x)
  }

  /** `sort.Ints`. */
  function SortInts(s: seq<int>): seq<int> {
    if s == [] then [] else Insert(SortInts(s[..|s| - 1]), s[|s| - 1])
  }

  lemma {:induction false} InsertAdds(s: seq<int>, x: int)
    ensures multiset(Insert(s, x)) == multiset(s) + multiset{x}
  {
    if s != [] && x > s[0] {
      InsertAdds(s[1..], x);
      assert s == [s[0]] + s[1..];
    }
  }

  lemma {:induction false} InsertKeepsAscending(s: seq<int>, x: int, low: int)
    requires Ascending(s) && low <= x && forall k :: 0 <= k < |s| ==> low <= s[k]
    ensures Ascending(Insert(s, x)) && forall k :: 0 <= k < |Insert(s, x)| ==> low <= Insert(s, x)[k]
  {
    if s != [] && x > s[0] {
      InsertKeepsAscending(s[1..], x, s[0]);
    }
  }

  lemma {:induction false} SortIntsSorts(s: seq<int>)
    ensures multiset(SortInts(s)) == multiset(s) && Ascending(SortInts(s))
  {
    if s != [] {
      assert s == s[..|s| - 1] + [s[|s| - 1]];
      SortIntsSorts(s[..|s| - 1]);
      var r := SortInts(s[..|s| - 1]);
      var x := s[|s| - 1];
      InsertAdds(r, x);
      InsertKeepsAscending(r, x, if r == [] || x < r[0] then x else r[0]);
    }
  }

  /** The order of one tier and the weights left behind. */
  function TierOrder(session: Session, model: string, first: bool, group: seq<Channel>, weights: map<string, int>)
    : (seq<Channel>, map<string, int>)
  {
    if first && session.id != "" && |group| > 1 then
      (SessionOrder(session, model, group), weights)
    else
      (Ordered(weights, model, group), Selected(weights, model, group))
  }

  function SessionOrder(session: Session, model: string, group: seq<Channel>): seq<Channel>
    requires |group| > 1
  {
    ByAffinity(group, session.pin(model), session.hash(model))
  }

  /** All tiers in turn, lowest priority number first; only the first may follow the session. */
  function Tiers(session: Session, model: string, cs: seq<Channel>, ps: seq<int>, k: nat, weights: map<string, int>)
    : (seq<Channel>, map<string, int>)
    requires k <= |ps|
  {
    if k == 0 then ([], weights)
    else
      var done := Tiers(session, model, cs, ps, k - 1, weights);
      var tier := TierOrder(session, model, k == 1, Tier(cs, ps[k - 1]), done.1);
      (done.0 + tier.0, tier.1)
  }

  function Candidates(session: Session, channels: seq<Channel>, weights: map<string, int>, model: string, proto: string)
    : (seq<Channel>, map<string, int>)
  {
    var cs := Matched(channels, model, proto);
    if |cs| <= 1 then (cs, weights)
    else
      var ps := SortInts(FirstSeen(cs));
      Tiers(session, model, cs, ps, |ps|, weights)
  }

  // ---- The order is a permutation of the matching channels, by non-decreasing priority ----

  predicate ByPriority(cs: seq<Channel>) {
    forall i, j :: 0 <= i < j < |cs| ==> cs[i].priority <= cs[j].priority
  }

  lemma {:induction false} TierHasPriority(cs: seq<Channel>, p: int)
    ensures forall i :: 0 <= i < |Tier(cs, p)| ==> Tier(cs, p)[i].priority == p
  {
    if cs != [] {
      TierHasPriority(cs[..|cs| - 1], p);
    }
  }

  lemma TierOrderIsPermutation(session: Session, model: string, first: bool, group: seq<Channel>, weights: map<string, int>)
    ensures multiset(TierOrder(session, model, first, group, weights).0) == multiset(group)
  {
    if |group| > 1 {
      forall i | 0 <= i < |group| {
        WinnerFirstIsPermutation(group, i);
      }
    }
  }

  /** The channels whose priority is among the first `k` of `ps`. */
  function InTiers(cs: seq<Channel>, ps: seq<int>, k: nat): seq<Channel>
    requires k <= |ps|
  {
    if cs == [] then []
    else
      var n := |cs| - 1;
      InTiers(cs[..n], ps, k) + if cs[n].priority in ps[..k] then [cs[n]] else []
  }

  /** Adding the `k`-th priority adds the channels of that priority, seen from the last channel. */
  lemma TierUnfolds(cs: seq<Channel>, ps: seq<int>, k: nat)
    requires cs != [] && 0 < k <= |ps| && ps[k - 1] !in ps[..k - 1]
    ensures var n := |cs| - 1;
            var more := if cs[n].priority == ps[k - 1] then [cs[n]] else [];
            var before := if cs[n].priority in ps[..k - 1] then [cs[n]] else [];
            && Tier(cs, ps[k - 1]) == Tier(cs[..n], ps[k - 1]) + more
            && InTiers(cs, ps, k - 1) == InTiers(cs[..n], ps, k - 1) + before
            && InTiers(cs, ps, k) == InTiers(cs[..n], ps, k) + (before + more)
  {
    var p := cs[|cs| - 1].priority;
    assert ps[..k] == ps[..k - 1] + [ps[k - 1]];
    assert p in ps[..k] <==> p in ps[..k - 1] || p == ps[k - 1];
  }

  lemma {:induction false} OneTierMore(cs: seq<Channel>, ps: seq<int>, k: nat)
    requires 0 < k <= |ps| && ps[k - 1] !in ps[..k - 1]
    ensures multiset(InTiers(cs, ps, k)) == multiset(InTiers(cs, ps, k - 1)) + multiset(Tier(cs, ps[k - 1]))
  {
    if cs != [] {
      hide Tier, InTiers;
      TierUnfolds(cs, ps, k);
      OneTierMore(cs[..|cs| - 1], ps, k);
    }
  }

  lemma {:induction false} AllTiers(cs: seq<Channel>, ps: seq<int>)
    requires forall i :: 0 <= i < |cs| ==> cs[i].priority in ps
    ensures InTiers(cs, ps, |ps|) == cs
  {
    if cs != [] {
      var n := |cs| - 1;
      AllTiers(cs[..n], ps);
      assert cs[n].priority in ps[..|ps|] by {
        assert ps[..|ps|] == ps;
      }
      assert cs == cs[..n] + [cs[n]];
    }
  }

  lemma {:induction false} NoTiers(cs: seq<Channel>, ps: seq<int>)
    ensures InTiers(cs, ps, 0) == []
  {
    if cs != [] {
      NoTiers(cs[..|cs| - 1], ps);
    }
  }

  lemma {:induction false} TiersArePermutation(session: Session, model: string, cs: seq<Channel>, ps: seq<int>, k: nat,
                                               weights: map<string, int>)
    requires k <= |ps| && forall i, j :: 0 <= i < j < |ps| ==> ps[i] < ps[j]
    ensures var r := Tiers(session, model, cs, ps, k, weights).0;
            && multiset(r) == multiset(InTiers(cs, ps, k))
            && ByPriority(r)
            && (forall c :: c in r ==> k > 0 && c.priority <= ps[k - 1])
  {
    if k == 0 {
      NoTiers(cs, ps);
    } else {
      TiersArePermutation(session, model, cs, ps, k - 1, weights);
      var done := Tiers(session, model, cs, ps, k - 1, weights);
      var tier := TierOrder(session, model, k == 1, Tier(cs, ps[k - 1]), done.1).0;
      TierOrderIsPermutation(session, model, k == 1, Tier(cs, ps[k - 1]), done.1);
      OneTierMore(cs, ps, k);
      TierHasPriority(cs, ps[k - 1]);
      SamePriority(tier, Tier(cs, ps[k - 1]), ps[k - 1]);
      hide Tiers, TierOrder, Tier, InTiers;
      assert forall c :: c in done.0 ==> c.priority <= ps[k - 1];
      TierExtendsOrder(done.0, tier, ps[k - 1]);
    }
  }

  lemma SamePriority(tier: seq<Channel>, group: seq<Channel>, p: int)
    requires multiset(tier) == multiset(group)
    requires forall i :: 0 <= i < |group| ==> group[i].priority == p
    ensures forall c :: c in tier ==> c.priority == p
  {
    forall c | c in tier
      ensures c.priority == p
    {
      assert c in multiset(tier);
      assert c in group;
    }
  }

  lemma TierExtendsOrder(done: seq<Channel>, tier: seq<Channel>, p: int)
    requires ByPriority(done) && forall c :: c in done ==> c.priority <= p
    requires forall c :: c in tier ==> c.priority == p
    ensures ByPriority(done + tier) && forall c :: c in done + tier ==> c.priority <= p
  {
  }

  lemma {:induction false} FirstSeenIsDistinct(cs: seq<Channel>)
    ensures forall i, j :: 0 <= i < j < |FirstSeen(cs)| ==> FirstSeen(cs)[i] != FirstSeen(cs)[j]
    ensures forall p :: p in FirstSeen(cs) <==> exists i :: 0 <= i < |cs| && cs[i].priority == p
  {
    if cs != [] {
      var n := |cs| - 1;
      FirstSeenIsDistinct(cs[..n]);
      forall p
        ensures p in FirstSeen(cs) <==> exists i :: 0 <= i < |cs| && cs[i].priority == p
      {
        if i :| 0 <= i < n && cs[..n][i].priority == p {
          assert cs[i].priority == p;
        }
        if i :| 0 <= i < |cs| && cs[i].priority == p {
          if i < n {
            assert cs[..n][i].priority == p;
          }
        }
      }
    }
  }

  lemma SortedDistinct(s: seq<int>)
    requires forall i, j :: 0 <= i < j < |s| ==> s[i] != s[j]
    ensures forall i, j :: 0 <= i < j < |SortInts(s)| ==> SortInts(s)[i] < SortInts(s)[j]
    ensures forall x :: x in s <==> x in SortInts(s)
  {
    hide SortInts;
    var r := SortInts(s);
    SortIntsSorts(s);
    assert forall x :: x in s <==> x in multiset(s);
    assert forall x :: x in r <==> x in multiset(r);
    forall i, j | 0 <= i < j < |r|
      ensures r[i] < r[j]
    {
      if r[i] == r[j] {
        TwiceMeansTwo(r, i, j);
        DistinctMeansOne(s, r[i]);
      }
    }
  }

  lemma TwiceMeansTwo(s: seq<int>, i: nat, j: nat)
    requires i < j < |s| && s[i] == s[j]
    ensures multiset(s)[s[i]] >= 2
  {
    assert s == s[..j] + [s[j]] + s[j + 1..];
    assert s[i] in s[..j];
  }

  lemma {:induction false} DistinctMeansOne(s: seq<int>, x: int)
    requires forall i, j :: 0 <= i < j < |s| ==> s[i] != s[j]
    ensures multiset(s)[x] <= 1
  {
    if s != [] {
      var n := |s| - 1;
      assert s == s[..n] + [s[n]];
      DistinctMeansOne(s[..n], x);
    }
  }

  /** Every matching channel is a candidate exactly as often as it is configured, lower priority numbers first. */
  lemma CandidatesOrderTheMatched(session: Session, channels: seq<Channel>, weights: map<string, int>,
                                  model: string, proto: string)
    ensures var r := Candidates(session, channels, weights, model, proto).0;
            && multiset(r) == multiset(Matched(channels, model, proto))
            && ByPriority(r)
  {
    var cs := Matched(channels, model, proto);
    FirstSeenIsDistinct(cs);
    SortedDistinct(FirstSeen(cs));
    var ps := SortInts(FirstSeen(cs));
    TiersArePermutation(session, model, cs, ps, |ps|, weights);
    AllTiers(cs, ps);
  }
}
