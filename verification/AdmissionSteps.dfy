/** What each operation on an admission pool does to the callers, in their own terms. */
module AdmissionSteps {
  import opened AdmissionQueue
  import opened WaitLine

  /** The free slots and places of a pool, and what a tenant has had of it, without its counters. */
  ghost predicate SlotFree(p: Pool) {
    |Served(p)| < p.limit.maxActive
  }

  ghost predicate LineFull(p: Pool) {
    p.limit.maxQueued <= 0 || |p.line| >= p.limit.maxQueued
  }

  ghost predicate QuotaSpent(p: Pool, t: Tenant) {
    p.limit.perTenant > 0 && |Occupancy(p, t)| + Releases(p, t) >= p.limit.perTenant
  }

  /** After every run a caller is refused exactly if its tenant has spent its quota, or no slot is free
    * and the line is full or not allowed; it gets a permit at once exactly if it is not refused and a
    * slot is free, and joins the end of the line otherwise. Nobody else is affected. */
  lemma AcquireMeans(limit: Limit, os: seq<Op>, t: Tenant)
    requires Runs(Empty(limit), os)
    ensures var p := After(Empty(limit), os); var q := Next(p, DoAcquire(t));
            && (QuotaSpent(p, t) || (!SlotFree(p) && LineFull(p)) ==> q == p)
            && (!QuotaSpent(p, t) && SlotFree(p) ==> q.parties == p.parties[p.next := Party(t, Holding)] && q.line == p.line == [])
            && (!QuotaSpent(p, t) && !SlotFree(p) && !LineFull(p) ==>
                  q.parties == p.parties[p.next := Party(t, Waiting)] && q.line == p.line + [p.next])
            && p.next !in p.parties && q.released == p.released && q.limit == p.limit
  {
    EmptyFits(limit);
    RunKeepsInv(Empty(limit), os);
    assert CountFits(After(Empty(limit), os), t);
  }

  lemma {:induction false} LimitStays(p: Pool, os: seq<Op>)
    requires Inv(p) && Runs(p, os)
    ensures After(p, os).limit == p.limit
    decreases |os|
  {
    if os != [] {
      StepKeepsInv(p, os[0]);
      match os[0] {
        case DoCancel(w) => GrantLoopKeepsLimit(Leave(p, w));
        case DoRelease(w) => GrantLoopKeepsLimit(GiveBack(p, w));
        case _ =>
      }
      LimitStays(Next(p, os[0]), os[1..]);
    }
  }

  lemma {:induction false} GrantLoopKeepsLimit(p: Pool)
    requires LineKnown(p)
    ensures GrantLoop(p).limit == p.limit
    decreases |p.line|
  {
    if p.active < p.limit.maxActive && p.line != [] { GrantLoopKeepsLimit(GrantHead(p)); }
  }

  /** The pool has as many slots as configured, or one, for good. */
  lemma SlotsAsConfigured(limit: Limit, os: seq<Op>)
    requires Runs(Empty(limit), os)
    ensures var l := After(Empty(limit), os).limit;
            && l.maxActive == (if limit.maxActive <= 0 then 1 else limit.maxActive)
            && l.maxQueued == limit.maxQueued && l.perTenant == limit.perTenant
  {
    EmptyFits(limit);
    LimitStays(Empty(limit), os);
  }

  /** With one slot free the head of the line gets it, and no one else moves. */
  lemma OneGrant(p: Pool)
    requires LineKnown(p) && p.line != [] && p.active == p.limit.maxActive - 1
    ensures GrantLoop(p) == GrantHead(p)
  {
    assert GrantLoop(GrantHead(p)) == GrantHead(p);
  }

  ghost predicate Reachable(p: Pool, limit: Limit, os: seq<Op>) {
    Runs(Empty(limit), os) && p == After(Empty(limit), os)
  }

  lemma ReachableFits(p: Pool, limit: Limit, os: seq<Op>)
    requires Reachable(p, limit, os)
    ensures Inv(p)
  {
    EmptyFits(limit);
    RunKeepsInv(Empty(limit), os);
  }

  /** A caller that gives back its permit, or leaves with a slot on its way, hands the slot to the
    * first in line at once if there is one; only a permit given back counts for its tenant's quota. */
  lemma SlotIsHandedOn(p: Pool, limit: Limit, os: seq<Op>, o: Op)
    requires Reachable(p, limit, os) && (o.DoCancel? || o.DoRelease?) && Enabled(p, o) && p.parties[o.w].stage != Waiting
    ensures var q := Next(p, o);
            && (p.line == [] ==> q.line == [] && q.parties == p.parties - {o.w})
            && (p.line != [] ==>
                  var head := p.line[0];
                  q.line == p.line[1..] && head in p.parties && head != o.w
                  && q.parties == (p.parties - {o.w})[head := Party(p.parties[head].tenant, Granted)])
            && (o.DoCancel? ==> q.released == p.released)
            && (o.DoRelease? ==> q.released == p.released[p.parties[o.w].tenant := Releases(p, p.parties[o.w].tenant) + 1])
  {
    ReachableFits(p, limit, os);
    var left := if o.DoCancel? then Leave(p, o.w) else GiveBack(p, o.w);
    if p.line != [] { OneGrant(left); }
  }

  /** A caller that leaves the line gives up its place and nothing else. */
  lemma PlaceIsVacated(p: Pool, limit: Limit, os: seq<Op>, w: Ticket)
    requires Reachable(p, limit, os) && Enabled(p, DoCancel(w)) && p.parties[w].stage == Waiting
    ensures var q := Next(p, DoCancel(w));
            && q.parties == p.parties - {w} && q.released == p.released
            && |q.line| == |p.line| - 1 && (forall v :: v in q.line <==> v in p.line && v != w)
  {
    ReachableFits(p, limit, os);
    WithoutFits(p.line, w);
    assert GrantLoop(Leave(p, w)) == Leave(p, w);
  }

  /** A caller whose slot arrived holds its permit. */
  lemma CollectMeans(p: Pool, w: Ticket)
    requires Enabled(p, DoCollect(w))
    ensures Next(p, DoCollect(w)).parties == p.parties[w := Party(p.parties[w].tenant, Holding)]
    ensures Next(p, DoCollect(w)).line == p.line && Next(p, DoCollect(w)).released == p.released
  {
  }
}
