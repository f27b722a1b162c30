/** When a tenant with a limit of its own is refused for good. */
module AdmissionQuota {
  import opened AdmissionQueue
  import opened WaitLine

  /** The permits a tenant has in hand. */
  function Holders(p: Pool, t: Tenant): set<Ticket> {
    set k | k in p.parties && p.parties[k].tenant == t && p.parties[k].stage == Holding
  }

  /** Every permit a tenant ever collected: in hand or given back. */
  function Quota(p: Pool, t: Tenant): nat {
    |Holders(p, t)| + Releases(p, t)
  }

  /** Moving the line up hands out slots; nobody's permits change. */
  lemma {:induction false} GrantLoopKeepsQuota(p: Pool, t: Tenant)
    requires LineFits(p)
    ensures LineKnown(p)
    ensures var q := GrantLoop(p); q.limit == p.limit && q.parties.Keys == p.parties.Keys && Quota(q, t) == Quota(p, t)
    decreases |p.line|
  {
    if p.active < p.limit.maxActive && p.line != [] {
      var q := GrantHead(p);
      GrantHeadLineFits(p);
      assert Holders(q, t) == Holders(p, t);
      GrantLoopKeepsQuota(q, t);
    }
  }

  lemma GrantHeadLineFits(p: Pool)
    requires LineFits(p) && p.line != []
    ensures LineFits(GrantHead(p))
  {
  }

  lemma CancelKeepsQuota(p: Pool, w: Ticket, t: Tenant)
    requires Inv(p) && Enabled(p, DoCancel(w))
    ensures var q := Next(p, DoCancel(w));
            q.limit == p.limit && q.parties.Keys == p.parties.Keys - {w} && Quota(q, t) == Quota(p, t)
  {
    LeaveKeeps(p, w);
    assert Holders(Leave(p, w), t) == Holders(p, t);
    GrantLoopKeepsQuota(Leave(p, w), t);
  }

  lemma GiveBackQuota(p: Pool, w: Ticket, t: Tenant)
    requires Has(p, w)
    ensures Quota(GiveBack(p, w), t) == Quota(p, t)
  {
    var q := GiveBack(p, w);
    if p.parties[w].tenant == t {
      assert Holders(p, t) == Holders(q, t) + {w};
    } else {
      assert Holders(q, t) == Holders(p, t);
    }
  }

  predicate Has(p: Pool, w: Ticket) {
    w in p.parties && p.parties[w].stage == Holding
  }

  lemma ReleaseKeepsQuota(p: Pool, w: Ticket, t: Tenant)
    requires Inv(p) && Enabled(p, DoRelease(w))
    ensures var q := Next(p, DoRelease(w));
            q.limit == p.limit && q.parties.Keys == p.parties.Keys - {w} && Quota(q, t) == Quota(p, t)
  {
    GiveBackKeeps(p, w);
    GiveBackQuota(p, w, t);
    GrantLoopKeepsQuota(GiveBack(p, w), t);
  }

  /** Whoever holds a permit goes on holding it. */
  lemma MoreHolders(p: Pool, q: Pool, t: Tenant)
    requires q.released == p.released
    requires forall k :: k in p.parties && p.parties[k].stage == Holding ==> k in q.parties && q.parties[k] == p.parties[k]
    ensures Quota(p, t) <= Quota(q, t)
  {
    var more := Holders(q, t) - Holders(p, t);
    assert Holders(q, t) == Holders(p, t) + more;
  }

  lemma AcquireRaisesQuota(p: Pool, u: Tenant, t: Tenant)
    requires Inv(p)
    ensures Quota(p, t) <= Quota(Acquire(p, u), t)
  {
    assert p.next !in p.parties;
    MoreHolders(p, Acquire(p, u), t);
  }

  lemma CollectRaisesQuota(p: Pool, w: Ticket, t: Tenant)
    requires Enabled(p, DoCollect(w))
    ensures Quota(p, t) <= Quota(Collect(p, w), t)
  {
    MoreHolders(p, Collect(p, w), t);
  }

  /** A tenant's quota never falls. */
  lemma {:induction false} QuotaNeverFalls(p: Pool, os: seq<Op>, t: Tenant)
    requires Inv(p) && Runs(p, os)
    ensures Quota(p, t) <= Quota(After(p, os), t) && After(p, os).limit == p.limit
    decreases |os|
  {
    if os != [] {
      StepKeepsInv(p, os[0]);
      match os[0] {
        case DoAcquire(u) => AcquireRaisesQuota(p, u, t);
        case DoCollect(w) => CollectRaisesQuota(p, w, t);
        case DoCancel(w) => CancelKeepsQuota(p, w, t);
        case DoRelease(w) => ReleaseKeepsQuota(p, w, t);
      }
      QuotaNeverFalls(Next(p, os[0]), os[1..], t);
    }
  }

  /** Everybody leaves: waiters cancel, permits are given back. No quota changes on the way. */
  lemma {:induction false} Drain(p: Pool, t: Tenant) returns (os: seq<Op>)
    requires Inv(p)
    ensures Runs(p, os) && Inv(After(p, os))
    ensures var q := After(p, os); q.limit == p.limit && q.parties == map[] && Quota(q, t) == Quota(p, t)
    decreases |p.parties|
  {
    if p.parties == map[] {
      os := [];
    } else {
      var w :| w in p.parties;
      var o := if p.parties[w].stage == Holding then DoRelease(w) else DoCancel(w);
      LeavesOne(p, w, t);
      var rest := Drain(Next(p, o), t);
      os := [o] + rest;
      assert os[1..] == rest;
    }
  }

  lemma LeavesOne(p: Pool, w: Ticket, t: Tenant)
    requires Inv(p) && w in p.parties
    ensures var o := if p.parties[w].stage == Holding then DoRelease(w) else DoCancel(w);
            && Enabled(p, o) && Inv(Next(p, o)) && Next(p, o).limit == p.limit
            && |Next(p, o).parties| < |p.parties| && Quota(Next(p, o), t) == Quota(p, t)
  {
    if p.parties[w].stage == Holding {
      GiveBackKeeps(p, w);
      ReleaseKeepsQuota(p, w, t);
      StepKeepsInv(p, DoRelease(w));
      FewerKeys(p.parties, Next(p, DoRelease(w)).parties, w);
    } else {
      LeaveKeeps(p, w);
      CancelKeepsQuota(p, w, t);
      StepKeepsInv(p, DoCancel(w));
      FewerKeys(p.parties, Next(p, DoCancel(w)).parties, w);
    }
  }

  lemma FewerKeys(m: map<Ticket, Party>, n: map<Ticket, Party>, w: Ticket)
    requires w in m && n.Keys == m.Keys - {w}
    ensures |n| < |m|
  {
    assert |n| == |n.Keys| && |m| == |m.Keys|;
  }

  /** Nobody is left: a tenant below its limit gets a permit at once. */
  lemma EmptyPoolAdmits(p: Pool, t: Tenant)
    requires Inv(p) && p.parties == map[] && !(p.limit.perTenant > 0 && Quota(p, t) >= p.limit.perTenant)
    ensures !Overloaded(p, t)
  {
    assert CountFits(p, t);
    assert Occupancy(p, t) == {} && Holders(p, t) == {} && Served(p) == {};
  }

  lemma FullQuotaRefuses(p: Pool, t: Tenant)
    requires Inv(p) && p.limit.perTenant > 0 && Quota(p, t) >= p.limit.perTenant
    ensures TenantFull(p, t) && Overloaded(p, t)
  {
    assert CountFits(p, t);
    HeldIsOccupied(p, t);
  }

  lemma HeldIsOccupied(p: Pool, t: Tenant)
    ensures |Holders(p, t)| <= |Occupancy(p, t)|
  {
    var more := Occupancy(p, t) - Holders(p, t);
    assert Occupancy(p, t) == Holders(p, t) + more;
  }

  ghost predicate RefusedForGood(p: Pool, t: Tenant) {
    forall os :: Runs(p, os) ==> Overloaded(After(p, os), t)
  }

  /** After every run, a tenant is refused from then on, whatever anybody does, exactly when
    * it has a limit and the permits it ever collected, in hand or given back, fill it. */
  lemma RefusedForGoodIff(limit: Limit, before: seq<Op>, t: Tenant)
    requires Runs(Empty(limit), before)
    ensures var p := After(Empty(limit), before);
            RefusedForGood(p, t) <==> limit.perTenant > 0 && Quota(p, t) >= limit.perTenant
  {
    var p := After(Empty(limit), before);
    EmptyFits(limit);
    RunKeepsInv(Empty(limit), before);
    QuotaNeverFalls(Empty(limit), before, t);
    if limit.perTenant > 0 && Quota(p, t) >= limit.perTenant {
      forall os | Runs(p, os) ensures Overloaded(After(p, os), t) {
        QuotaNeverFalls(p, os, t);
        RunKeepsInv(p, os);
        FullQuotaRefuses(After(p, os), t);
      }
    } else {
      var os := Drain(p, t);
      EmptyPoolAdmits(After(p, os), t);
    }
  }

  /** In particular a limited tenant that gave back its limit's worth of permits gets no other. */
  lemma ReleasedQuotaRefusesForever(limit: Limit, before: seq<Op>, os: seq<Op>, t: Tenant)
    requires Runs(Empty(limit), before) && Runs(After(Empty(limit), before), os)
    requires limit.perTenant > 0 && Releases(After(Empty(limit), before), t) >= limit.perTenant
    ensures Overloaded(After(After(Empty(limit), before), os), t)
  {
    RefusedForGoodIff(limit, before, t);
  }
}
