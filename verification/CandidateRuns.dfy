/** The tiers of a request as selections in a run, and where its session decides (internal/router/dispatcher.go:142-185). */
module CandidateRuns {
  import opened Common
  import opened Channels
  import opened LoadBalancer
  import opened Retrieval
  import opened SwrrFairness

  /** A tier is selected by weight, unless it is the first of a request with a session and has a choice. */
  function TierCall(session: Session, model: string, first: bool, group: seq<Channel>): seq<Call> {
    if session.id == "" || !first || |group| <= 1 then [Call(model, group)] else []
  }

  function TierCalls(session: Session, model: string, cs: seq<Channel>, ps: seq<int>, k: nat): seq<Call>
    requires k <= |ps|
  {
    if k == 0 then []
    else TierCalls(session, model, cs, ps, k - 1) + TierCall(session, model, k == 1, Tier(cs, ps[k - 1]))
  }

  /** The selections by weight that a request makes, lowest priority number first. */
  function CallsOf(session: Session, channels: seq<Channel>, model: string, proto: string): seq<Call> {
    var cs := Matched(channels, model, proto);
    var ps := SortInts(FirstSeen(cs));
    TierCalls(session, model, cs, ps, |ps|)
  }

  /** What one tier contributes, the weights being those after the selections `before`. */
  function TierAnswer(session: Session, model: string, first: bool, group: seq<Channel>, weights: map<string, int>,
                      before: seq<Call>): seq<Channel>
  {
    if TierCall(session, model, first, group) == [] && group != []
    then ByAffinity(group, session.pin(model), session.hash(model))
    else Answer(After(weights, before), Call(model, group))
  }

  lemma AfterSnoc(weights: map<string, int>, calls: seq<Call>, call: Call)
    ensures After(weights, calls + [call]) == Selected(After(weights, calls), call.model, call.group)
    ensures After(weights, calls + []) == After(weights, calls)
  {
    assert (calls + [call])[..|calls|] == calls && calls + [] == calls;
  }

  lemma {:induction false} TierConcat(a: seq<Channel>, b: seq<Channel>, p: int)
    ensures Tier(a + b, p) == Tier(a, p) + Tier(b, p)
  {
    if b == [] {
      assert a + b == a;
    } else {
      var n := |b| - 1;
      assert (a + b)[..|a + b| - 1] == a + b[..n];
      TierConcat(a, b[..n], p);
    }
  }

  lemma {:induction false} TierOfOnePriority(cs: seq<Channel>, q: int, p: int)
    requires forall i :: 0 <= i < |cs| ==> cs[i].priority == q
    ensures Tier(cs, p) == if p == q then cs else []
  {
    if cs != [] {
      TierOfOnePriority(cs[..|cs| - 1], q, p);
      assert cs == cs[..|cs| - 1] + [cs[|cs| - 1]];
    }
  }

  lemma OneTierAnswers(session: Session, model: string, first: bool, cs: seq<Channel>, p: int, q: int, weights: map<string, int>)
    ensures Tier(TierOrder(session, model, first, Tier(cs, q), weights).0, p)
         == if p == q then TierOrder(session, model, first, Tier(cs, q), weights).0 else []
  {
    var group := Tier(cs, q);
    var order := TierOrder(session, model, first, group, weights).0;
    hide Tier, TierOrder;
    TierHasPriority(cs, q);
    TierOrderIsPermutation(session, model, first, group, weights);
    SamePriority(order, group, q);
    assert forall i :: 0 <= i < |order| ==> order[i] in order;
    TierOfOnePriority(order, q, p);
  }

  lemma TierOrderIsAnswer(session: Session, model: string, first: bool, group: seq<Channel>, weights: map<string, int>,
                          before: seq<Call>)
    ensures var r := TierOrder(session, model, first, group, After(weights, before));
            && r.0 == TierAnswer(session, model, first, group, weights, before)
            && r.1 == After(weights, before + TierCall(session, model, first, group))
  {
    hide Ordered, Selected, ByAffinity;
    AfterSnoc(weights, before, Call(model, group));
  }

  /** After the first `k` tiers: the weights, and for each tier what it contributed. */
  lemma {:induction false} TiersAreCalls(session: Session, model: string, cs: seq<Channel>, ps: seq<int>, k: nat,
                                         weights: map<string, int>, j: nat)
    requires k <= |ps| && Increasing(ps)
    ensures var r := Tiers(session, model, cs, ps, k, weights);
            && r.1 == After(weights, TierCalls(session, model, cs, ps, k))
            && (j < |ps| ==>
                  Tier(r.0, ps[j]) == (if j < k
                    then TierAnswer(session, model, j == 0, Tier(cs, ps[j]), weights, TierCalls(session, model, cs, ps, j))
                    else []))
  {
    hide TierOrder, TierAnswer, After, TierCall, Tier;
    if k == 0 {
      assert Tier([], if j < |ps| then ps[j] else 0) == [] by { NoTier(if j < |ps| then ps[j] else 0); }
      assert After(weights, []) == weights by { NoCalls(weights); }
    } else {
      TiersAreCalls(session, model, cs, ps, k - 1, weights, j);
      var done := Tiers(session, model, cs, ps, k - 1, weights);
      var before := TierCalls(session, model, cs, ps, k - 1);
      var tier := TierOrder(session, model, k == 1, Tier(cs, ps[k - 1]), done.1);
      TierOrderIsAnswer(session, model, k == 1, Tier(cs, ps[k - 1]), weights, before);
      if j < |ps| {
        TierConcat(done.0, tier.0, ps[j]);
        OneTierAnswers(session, model, k == 1, cs, ps[j], ps[k - 1], done.1);
      }
    }
  }

  lemma NoTier(p: int)
    ensures Tier([], p) == []
  {
  }

  lemma NoCalls(weights: map<string, int>)
    ensures After(weights, []) == weights
  {
  }

  /** The number of tiers before priority `p`. */
  predicate PriorityAt(cs: seq<Channel>, p: int, j: nat) {
    var ps := SortInts(FirstSeen(cs));
    j < |ps| && ps[j] == p && (j == 0 <==> forall c :: c in cs ==> p <= c.priority)
  }

  predicate Increasing(s: seq<int>) {
    forall a, b :: 0 <= a < b < |s| ==> s[a] < s[b]
  }

  lemma PrioritiesAreOrdered(cs: seq<Channel>)
    ensures Increasing(SortInts(FirstSeen(cs)))
    ensures forall c :: c in cs ==> c.priority in SortInts(FirstSeen(cs))
    ensures forall p :: p in SortInts(FirstSeen(cs)) ==> exists c :: c in cs && c.priority == p
  {
    FirstSeenIsDistinct(cs);
    SortedDistinct(FirstSeen(cs));
  }

  lemma {:induction false} TierIsUsed(cs: seq<Channel>, p: int)
    requires Tier(cs, p) != []
    ensures exists c :: c in cs && c.priority == p
  {
    if cs[|cs| - 1].priority != p {
      TierIsUsed(cs[..|cs| - 1], p);
    } else {
      assert cs[|cs| - 1] in cs;
    }
  }

  lemma FindPriority(cs: seq<Channel>, p: int) returns (j: nat)
    requires Tier(cs, p) != []
    ensures PriorityAt(cs, p, j)
  {
    hide Tier;
    TierIsUsed(cs, p);
    PrioritiesAreOrdered(cs);
    j := IndexIn(cs, SortInts(FirstSeen(cs)), p);
  }

  lemma IndexIn(cs: seq<Channel>, ps: seq<int>, p: int) returns (j: nat)
    requires Increasing(ps)
    requires forall c :: c in cs ==> c.priority in ps
    requires forall q :: q in ps ==> exists c :: c in cs && c.priority == q
    requires exists c :: c in cs && c.priority == p
    ensures j < |ps| && ps[j] == p && (j == 0 <==> forall c :: c in cs ==> p <= c.priority)
  {
    j :| j < |ps| && ps[j] == p;
    if j > 0 {
      assert ps[0] in ps;
      var c :| c in cs && c.priority == ps[0];
    } else {
      forall c | c in cs ensures p <= c.priority {
        var a :| 0 <= a < |ps| && ps[a] == c.priority;
      }
    }
  }

  lemma SingleChannel(session: Session, model: string, cs: seq<Channel>, weights: map<string, int>)
    requires |cs| <= 1
    ensures var ps := SortInts(FirstSeen(cs));
            Tiers(session, model, cs, ps, |ps|, weights) == (cs, weights)
  {
    if |cs| == 1 {
      var p := cs[0].priority;
      assert SortInts(FirstSeen(cs)) == [p] by { SortOne(cs); }
      assert Tier(cs, p) == cs by { TierOfOnePriority(cs, p, p); }
      hide Tier, SortInts, FirstSeen;
      assert Tiers(session, model, cs, [p], 0, weights) == ([], weights);
    } else {
      assert SortInts([]) == [];
    }
  }

  lemma SortOne(cs: seq<Channel>)
    requires |cs| == 1
    ensures SortInts(FirstSeen(cs)) == [cs[0].priority]
  {
    assert cs[..0] == [] && FirstSeen([]) == [];
    assert [cs[0].priority][..0] == [] && SortInts([]) == [];
  }

  lemma CandidatesAreTiers(session: Session, channels: seq<Channel>, weights: map<string, int>, model: string, proto: string)
    ensures var cs := Matched(channels, model, proto);
            var ps := SortInts(FirstSeen(cs));
            Candidates(session, channels, weights, model, proto) == Tiers(session, model, cs, ps, |ps|, weights)
  {
    var cs := Matched(channels, model, proto);
    if |cs| <= 1 {
      SingleChannel(session, model, cs, weights);
    }
  }

  /** The stored weights a request leaves behind are those of its selections. */
  lemma CandidatesAreCalls(session: Session, channels: seq<Channel>, weights: map<string, int>, model: string, proto: string)
    ensures Candidates(session, channels, weights, model, proto).1
         == After(weights, CallsOf(session, channels, model, proto))
  {
    hide Tiers, TierCalls, After, SortInts, FirstSeen;
    var cs := Matched(channels, model, proto);
    CandidatesAreTiers(session, channels, weights, model, proto);
    PrioritiesAreOrdered(cs);
    TiersAreCalls(session, model, cs, SortInts(FirstSeen(cs)), |SortInts(FirstSeen(cs))|, weights, 0);
  }

  /**
   * The candidates of each priority are what its tier answers: in the first tier of a request with a session,
   * where there is a choice, the session's channel and then the others; in any other tier the answer of its own
   * selection, made after those of the tiers before it.
   */
  lemma CandidatesOfOnePriority(session: Session, channels: seq<Channel>, weights: map<string, int>, model: string,
                                proto: string, p: int) returns (before: seq<Call>)
    requires Tier(Matched(channels, model, proto), p) != []
    ensures var cs := Matched(channels, model, proto);
            var tier := Tier(cs, p);
            var offered := Tier(Candidates(session, channels, weights, model, proto).0, p);
            if session.id != "" && |tier| > 1 && (forall c :: c in cs ==> p <= c.priority)
            then offered == ByAffinity(tier, session.pin(model), session.hash(model))
            else
              && offered == Answer(After(weights, before), Call(model, tier))
              && before + [Call(model, tier)] <= CallsOf(session, channels, model, proto)
  {
    hide Tiers, After, SortInts, FirstSeen, Tier, Matched, ByAffinity, Answer, Candidates;
    var cs := Matched(channels, model, proto);
    var ps := SortInts(FirstSeen(cs));
    CandidatesAreTiers(session, channels, weights, model, proto);
    PrioritiesAreOrdered(cs);
    var j := FindPriority(cs, p);
    TiersAreCalls(session, model, cs, ps, |ps|, weights, j);
    before := TierCalls(session, model, cs, ps, j);
    CallsGrow(session, model, cs, ps, j + 1, |ps|);
  }

  lemma {:induction false} CallsGrow(session: Session, model: string, cs: seq<Channel>, ps: seq<int>, j: nat, k: nat)
    requires j <= k <= |ps|
    ensures TierCalls(session, model, cs, ps, j) <= TierCalls(session, model, cs, ps, k)
    decreases k
  {
    if j < k {
      CallsGrow(session, model, cs, ps, j, k - 1);
    }
  }
}
