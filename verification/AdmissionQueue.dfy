/** One admission pool as a bounded first-come queue: its states and operations.
  *
  * Every caller that gets past the overload checks is a ticket, numbered in order
  * of arrival. A ticket waits in line, is granted a slot it has not collected yet,
  * or holds its permit. Each operation is what the code does under the pool's mutex.
  */
module AdmissionQueue {
  import opened WaitLine

  type Tenant = string

  /** A per-tenant limit of zero or less means no limit; a queue limit of zero or less means no queue. */
  datatype Limit = Limit(maxActive: int, maxQueued: int, perTenant: int)

  datatype Stage = Waiting | Granted | Holding

  datatype Party = Party(tenant: Tenant, stage: Stage)

  /** `released` counts the permits each tenant has given back. */
  datatype Pool = Pool(
    limit: Limit,
    active: int,
    queued: int,
    tenants: map<Tenant, int>,
    line: seq<Ticket>,
    parties: map<Ticket, Party>,
    next: Ticket,
    released: map<Tenant, nat>)

  function Count(m: map<Tenant, int>, t: Tenant): int {
    if t in m then m[t] else 0
  }

  function Releases(p: Pool, t: Tenant): nat {
    if t in p.released then p.released[t] else 0
  }

  /** NewAdmission gives every pool at least one slot. */
  function Empty(limit: Limit): Pool {
    Pool(limit.(maxActive := if limit.maxActive <= 0 then 1 else limit.maxActive), 0, 0, map[], [], map[], 0, map[])
  }

  predicate TenantFull(p: Pool, t: Tenant) {
    p.limit.perTenant > 0 && Count(p.tenants, t) >= p.limit.perTenant
  }

  predicate Immediate(p: Pool, t: Tenant) {
    p.active < p.limit.maxActive && p.line == [] && !TenantFull(p, t)
  }

  predicate Overloaded(p: Pool, t: Tenant) {
    !Immediate(p, t) && (TenantFull(p, t) || p.limit.maxQueued <= 0 || p.queued >= p.limit.maxQueued)
  }

  function Arrive(p: Pool, t: Tenant, stage: Stage): Pool {
    p.(tenants := p.tenants[t := Count(p.tenants, t) + 1], parties := p.parties[p.next := Party(t, stage)], next := p.next + 1)
  }

  /** Acquire up to the point where it returns or starts to wait. */
  function Acquire(p: Pool, t: Tenant): Pool {
    if Immediate(p, t) then Arrive(p, t, Holding).(active := p.active + 1)
    else if Overloaded(p, t) then p
    else Arrive(p, t, Waiting).(queued := p.queued + 1, line := p.line + [p.next])
  }

  /** grantLocked's one turn: the head of the line gets a slot. */
  function GrantHead(p: Pool): Pool
    requires p.line != [] && p.line[0] in p.parties
  {
    p.(line := p.line[1..], queued := p.queued - 1, active := p.active + 1,
       parties := p.parties[p.line[0] := p.parties[p.line[0]].(stage := Granted)])
  }

  function GrantLoop(p: Pool): Pool
    requires forall i :: 0 <= i < |p.line| ==> p.line[i] in p.parties
    decreases |p.line|
  {
    if p.active < p.limit.maxActive && p.line != [] then GrantLoop(GrantHead(p)) else p
  }

  /** The waiter saw its wake signal. */
  function Collect(p: Pool, w: Ticket): Pool
    requires w in p.parties && p.parties[w].stage == Granted
  {
    p.(parties := p.parties[w := p.parties[w].(stage := Holding)])
  }

  /** One less for a tenant; an entry that reaches zero is dropped. */
  function Drop(m: map<Tenant, int>, t: Tenant): map<Tenant, int> {
    if Count(m, t) - 1 <= 0 then m - {t} else m[t := Count(m, t) - 1]
  }

  predicate LineKnown(p: Pool) {
    forall i :: 0 <= i < |p.line| ==> p.line[i] in p.parties
  }

  /** A waiter leaves: a slot handed to it is given up, a place in line is vacated. */
  function Leave(p: Pool, w: Ticket): Pool
    requires w in p.parties
  {
    var party := p.parties[w];
    var q := p.(tenants := Drop(p.tenants, party.tenant), parties := p.parties - {w});
    if party.stage == Granted then q.(active := p.active - 1)
    else q.(line := Without(p.line, w), queued := p.queued - 1)
  }

  /** Cancellation of a waiter, racing with its grant. */
  function Cancel(p: Pool, w: Ticket): Pool
    requires w in p.parties && p.parties[w].stage in {Waiting, Granted} && LineKnown(Leave(p, w))
  {
    GrantLoop(Leave(p, w))
  }

  function GiveBack(p: Pool, w: Ticket): Pool
    requires w in p.parties
  {
    var t := p.parties[w].tenant;
    p.(active := p.active - 1, parties := p.parties - {w}, released := p.released[t := Releases(p, t) + 1])
  }

  /** Release frees the slot; the tenant's count is left as it is. */
  function Release(p: Pool, w: Ticket): Pool
    requires w in p.parties && p.parties[w].stage == Holding && LineKnown(GiveBack(p, w))
  {
    GrantLoop(GiveBack(p, w))
  }

  // ---- Runs ----

  datatype Op = DoAcquire(t: Tenant) | DoCollect(w: Ticket) | DoCancel(w: Ticket) | DoRelease(w: Ticket)

  predicate Enabled(p: Pool, o: Op) {
    match o
    case DoAcquire(_) => true
    case DoCollect(w) => w in p.parties && p.parties[w].stage == Granted
    case DoCancel(w) => w in p.parties && p.parties[w].stage in {Waiting, Granted} && LineKnown(Leave(p, w))
    case DoRelease(w) => w in p.parties && p.parties[w].stage == Holding && LineKnown(GiveBack(p, w))
  }

  function Next(p: Pool, o: Op): Pool
    requires Enabled(p, o)
  {
    match o
    case DoAcquire(t) => Acquire(p, t)
    case DoCollect(w) => Collect(p, w)
    case DoCancel(w) => Cancel(p, w)
    case DoRelease(w) => Release(p, w)
  }

  predicate Runs(p: Pool, os: seq<Op>)
    decreases |os|
  {
    os == [] || (Enabled(p, os[0]) && Runs(Next(p, os[0]), os[1..]))
  }

  function After(p: Pool, os: seq<Op>): Pool
    requires Runs(p, os)
    decreases |os|
  {
    if os == [] then p else After(Next(p, os[0]), os[1..])
  }

  // ---- The invariant ----

  /** The tickets in a stage other than waiting. */
  function Served(p: Pool): set<Ticket> {
    set k | k in p.parties && p.parties[k].stage != Waiting
  }

  function Occupancy(p: Pool, t: Tenant): set<Ticket> {
    set k | k in p.parties && p.parties[k].tenant == t
  }

  ghost predicate LineFits(p: Pool) {
    && p.queued == |p.line|
    && (forall i :: 0 <= i < |p.line| ==> p.line[i] in p.parties && p.parties[p.line[i]].stage == Waiting)
    && (forall k :: k in p.parties && p.parties[k].stage == Waiting ==> k in p.line)
    && Ascending(p.line)
  }

  /** First come, first served: nobody in line arrived before anybody who has a slot. */
  ghost predicate InOrder(p: Pool) {
    && (forall k :: k in p.parties ==> k < p.next)
    && (forall k, i :: k in Served(p) && 0 <= i < |p.line| ==> k < p.line[i])
  }

  ghost predicate CountFits(p: Pool, t: Tenant) {
    && Count(p.tenants, t) == |Occupancy(p, t)| + Releases(p, t)
    && (t in p.tenants ==> p.tenants[t] > 0)
    && (p.limit.perTenant > 0 ==> Count(p.tenants, t) <= p.limit.perTenant)
  }

  /** What holds even between a slot becoming free and the line moving up. */
  ghost predicate Loose(p: Pool) {
    && p.limit.maxActive > 0
    && p.active == |Served(p)| && p.active <= p.limit.maxActive
    && LineFits(p) && InOrder(p)
    && (p.limit.maxQueued > 0 ==> p.queued <= p.limit.maxQueued) && (p.limit.maxQueued <= 0 ==> p.line == [])
    && (forall t :: CountFits(p, t))
  }

  ghost predicate Inv(p: Pool) {
    Loose(p) && (p.line != [] ==> p.active == p.limit.maxActive)
  }

  // ---- Every operation keeps the invariant ----

  lemma GrantHeadLine(p: Pool)
    requires Loose(p) && p.line != []
    ensures LineFits(GrantHead(p)) && InOrder(GrantHead(p)) && Served(GrantHead(p)) == Served(p) + {p.line[0]}
  {
    var q, w := GrantHead(p), p.line[0];
    assert Served(q) == Served(p) + {w};
  }

  lemma GrantHeadCounts(p: Pool, t: Tenant)
    requires Loose(p) && p.line != []
    ensures CountFits(GrantHead(p), t)
  {
    assert CountFits(p, t);
    assert Occupancy(GrantHead(p), t) == Occupancy(p, t);
  }

  lemma GrantHeadKeeps(p: Pool)
    requires Loose(p) && p.line != [] && p.active < p.limit.maxActive
    ensures Loose(GrantHead(p))
  {
    GrantHeadLine(p);
    forall t ensures CountFits(GrantHead(p), t) { GrantHeadCounts(p, t); }
  }

  lemma {:induction false} GrantLoopKeeps(p: Pool)
    requires Loose(p)
    ensures Inv(GrantLoop(p))
    decreases |p.line|
  {
    if p.active < p.limit.maxActive && p.line != [] {
      GrantHeadKeeps(p);
      GrantLoopKeeps(GrantHead(p));
    }
  }

  /** The tickets of a tenant after one more arrived. */
  lemma ArrivalCounts(p: Pool, t: Tenant, stage: Stage, u: Tenant)
    requires CountFits(p, u) && !TenantFull(p, t) && p.next !in p.parties
    ensures CountFits(Arrive(p, t, stage), u)
  {
    var q := Arrive(p, t, stage);
    if u == t {
      assert Occupancy(q, t) == Occupancy(p, t) + {p.next};
    } else {
      assert Occupancy(q, u) == Occupancy(p, u);
    }
  }

  lemma AcquireNowKeeps(p: Pool, t: Tenant)
    requires Inv(p) && Immediate(p, t)
    ensures Inv(Acquire(p, t))
  {
    var q := Acquire(p, t);
    forall u ensures CountFits(q, u) {
      assert CountFits(p, u);
      ArrivalCounts(p, t, Holding, u);
      assert Occupancy(q, u) == Occupancy(Arrive(p, t, Holding), u);
    }
    assert Served(q) == Served(p) + {p.next};
  }

  lemma AcquireQueuedKeeps(p: Pool, t: Tenant)
    requires Inv(p) && !Immediate(p, t) && !Overloaded(p, t)
    ensures Inv(Acquire(p, t))
  {
    var q := Acquire(p, t);
    forall u ensures CountFits(q, u) {
      assert CountFits(p, u);
      ArrivalCounts(p, t, Waiting, u);
      assert Occupancy(q, u) == Occupancy(Arrive(p, t, Waiting), u);
    }
    assert Served(q) == Served(p);
    assert forall i :: 0 <= i < |p.line| ==> q.line[i] == p.line[i];
    assert q.line[|p.line|] == p.next;
    forall i | 0 <= i < |p.line| ensures p.line[i] < p.next {}
  }

  lemma AcquireKeeps(p: Pool, t: Tenant)
    requires Inv(p)
    ensures Inv(Acquire(p, t))
  {
    if Immediate(p, t) { AcquireNowKeeps(p, t); }
    else if !Overloaded(p, t) { AcquireQueuedKeeps(p, t); }
  }

  lemma CollectKeeps(p: Pool, w: Ticket)
    requires Inv(p) && w in p.parties && p.parties[w].stage == Granted
    ensures Inv(Collect(p, w))
  {
    var q := Collect(p, w);
    assert Served(q) == Served(p);
    forall t ensures CountFits(q, t) {
      assert CountFits(p, t);
      assert Occupancy(q, t) == Occupancy(p, t);
    }
  }

  lemma LeavingCounts(p: Pool, w: Ticket, t: Tenant)
    requires w in p.parties && CountFits(p, t)
    ensures CountFits(Leave(p, w), t)
  {
    var q := Leave(p, w);
    if t == p.parties[w].tenant {
      assert Occupancy(p, t) == Occupancy(q, t) + {w};
    } else {
      assert Occupancy(q, t) == Occupancy(p, t);
    }
  }

  lemma LeaveGrantedKeeps(p: Pool, w: Ticket)
    requires Inv(p) && w in p.parties && p.parties[w].stage == Granted
    ensures Loose(Leave(p, w))
  {
    var q := Leave(p, w);
    forall t ensures CountFits(q, t) { assert CountFits(p, t); LeavingCounts(p, w, t); }
    assert Served(p) == Served(q) + {w};
  }

  lemma LeaveLineKeeps(p: Pool, w: Ticket)
    requires Inv(p) && w in p.parties && p.parties[w].stage == Waiting
    ensures Loose(Leave(p, w))
  {
    var q := Leave(p, w);
    forall t ensures CountFits(q, t) { assert CountFits(p, t); LeavingCounts(p, w, t); }
    assert Served(q) == Served(p);
    WithoutFits(p.line, w);
    assert q.line == Without(p.line, w);
    forall i | 0 <= i < |q.line| ensures q.line[i] in p.line && q.line[i] != w {}
    forall k | k in q.parties && q.parties[k].stage == Waiting ensures k in q.line {}
  }

  lemma LeaveKeeps(p: Pool, w: Ticket)
    requires Inv(p) && w in p.parties && p.parties[w].stage in {Waiting, Granted}
    ensures Loose(Leave(p, w))
  {
    if p.parties[w].stage == Granted { LeaveGrantedKeeps(p, w); } else { LeaveLineKeeps(p, w); }
  }

  lemma GivingBackCounts(p: Pool, w: Ticket, t: Tenant)
    requires w in p.parties && CountFits(p, t)
    ensures CountFits(GiveBack(p, w), t)
  {
    var q := GiveBack(p, w);
    if t == p.parties[w].tenant {
      assert Occupancy(p, t) == Occupancy(q, t) + {w};
    } else {
      assert Occupancy(q, t) == Occupancy(p, t);
    }
  }

  lemma GiveBackKeeps(p: Pool, w: Ticket)
    requires Inv(p) && w in p.parties && p.parties[w].stage == Holding
    ensures Loose(GiveBack(p, w))
  {
    var q := GiveBack(p, w);
    forall t ensures CountFits(q, t) { assert CountFits(p, t); GivingBackCounts(p, w, t); }
    assert Served(p) == Served(q) + {w};
  }

  lemma StepKeepsInv(p: Pool, o: Op)
    requires Inv(p) && Enabled(p, o)
    ensures Inv(Next(p, o))
  {
    match o
    case DoAcquire(t) => AcquireKeeps(p, t);
    case DoCollect(w) => CollectKeeps(p, w);
    case DoCancel(w) =>
      LeaveKeeps(p, w);
      GrantLoopKeeps(Leave(p, w));
    case DoRelease(w) =>
      GiveBackKeeps(p, w);
      GrantLoopKeeps(GiveBack(p, w));
  }

  lemma {:induction false} RunKeepsInv(p: Pool, os: seq<Op>)
    requires Inv(p) && Runs(p, os)
    ensures Inv(After(p, os))
    decreases |os|
  {
    if os != [] {
      StepKeepsInv(p, os[0]);
      RunKeepsInv(Next(p, os[0]), os[1..]);
    }
  }

  lemma EmptyFits(limit: Limit)
    ensures Inv(Empty(limit))
  {
    forall t ensures CountFits(Empty(limit), t) { assert Occupancy(Empty(limit), t) == {}; }
    assert Served(Empty(limit)) == {};
  }

  // ---- Main results ----

  /** After every run: slots are never oversubscribed, every slot in use is a permit or a
    * grant on its way, the queue is bounded, callers wait only while every slot is taken,
    * and no waiting caller arrived before one that was served. */
  lemma PoolIsBoundedFifo(limit: Limit, os: seq<Op>)
    requires Runs(Empty(limit), os)
    ensures var p := After(Empty(limit), os);
            && p.active == |Served(p)| <= p.limit.maxActive
            && p.queued == |p.line| && (p.limit.maxQueued > 0 ==> |p.line| <= p.limit.maxQueued)
            && (p.line != [] ==> p.active == p.limit.maxActive)
            && (forall k :: k in p.parties && p.parties[k].stage == Waiting <==> k in p.line)
            && (forall k, i :: k in Served(p) && 0 <= i < |p.line| ==> k < p.line[i])
            && Ascending(p.line)
  {
    EmptyFits(limit);
    RunKeepsInv(Empty(limit), os);
  }

  /** A tenant's counter is its occupancy plus every permit it ever gave back, and a
    * per-tenant limit bounds it; so it equals the occupancy exactly if nothing was released. */
  lemma TenantCounterIff(limit: Limit, os: seq<Op>, t: Tenant)
    requires Runs(Empty(limit), os)
    ensures var p := After(Empty(limit), os);
            && |Occupancy(p, t)| <= Count(p.tenants, t)
            && (p.limit.perTenant > 0 ==> Count(p.tenants, t) <= p.limit.perTenant)
            && (Count(p.tenants, t) == |Occupancy(p, t)| <==> Releases(p, t) == 0)
  {
    EmptyFits(limit);
    RunKeepsInv(Empty(limit), os);
    assert CountFits(After(Empty(limit), os), t);
  }
}
