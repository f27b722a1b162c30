/** The admission pool as the code keeps it: counters, a tenant map and a waiter
  * list, updated under one mutex. Every method is proved to be the operation of
  * AdmissionQueue with the same name, so what is proved of runs there holds here. */
module AdmissionPool {
  import opened AdmissionQueue
  import opened WaitLine

  datatype Admission = Permit(w: Ticket) | Queued(w: Ticket) | Overload

  class Gate {
    const limit: Limit
    var active: int
    var queued: int
    var tenants: map<Tenant, int>
    var line: seq<Ticket>
    var parties: map<Ticket, Party>
    var next: Ticket
    ghost var released: map<Tenant, nat>

    ghost function View(): Pool
      reads this
    {
      Pool(limit, active, queued, tenants, line, parties, next, released)
    }

    constructor (cfg: Limit)
      ensures View() == Empty(cfg) && Inv(View())
    {
      limit := cfg.(maxActive := if cfg.maxActive <= 0 then 1 else cfg.maxActive);
      active, queued, tenants, line, parties, next, released := 0, 0, map[], [], map[], 0, map[];
      new;
      EmptyFits(cfg);
    }

    /** Hands freed capacity to the head of the line. */
    method GrantLocked()
      requires LineKnown(View())
      modifies this
      ensures View() == GrantLoop(old(View()))
    {
      while active < limit.maxActive && line != []
        invariant LineKnown(View()) && GrantLoop(View()) == GrantLoop(old(View()))
        decreases |line|
      {
        assert GrantLoop(View()) == GrantLoop(GrantHead(View()));
        ghost var expected := GrantHead(View());
        var w := line[0];
        line := line[1..];
        queued := queued - 1;
        active := active + 1;
        parties := parties[w := parties[w].(stage := Granted)];
        assert View() == expected;
      }
    }

    /** The part of Acquire before it waits. */
    method Acquire(t: Tenant) returns (r: Admission)
      requires Inv(View())
      modifies this
      ensures View() == AdmissionQueue.Acquire(old(View()), t) && Inv(View())
      ensures r == if Immediate(old(View()), t) then Permit(old(next))
                   else if Overloaded(old(View()), t) then Overload else Queued(old(next))
    {
      AcquireKeeps(View(), t);
      var count := Count(tenants, t);
      var tenantFull := limit.perTenant > 0 && count >= limit.perTenant;
      if active < limit.maxActive && |line| == 0 && !tenantFull {
        active := active + 1;
        r := Permit(next);
        parties := parties[next := Party(t, Holding)];
      } else {
        var atQueue := limit.maxQueued <= 0 || queued >= limit.maxQueued;
        if tenantFull || atQueue { return Overload; }
        queued := queued + 1;
        line := line + [next];
        r := Queued(next);
        parties := parties[next := Party(t, Waiting)];
      }
      tenants := tenants[t := count + 1];
      next := next + 1;
    }

    /** The waiter received its wake signal. */
    method Collect(w: Ticket)
      requires Inv(View()) && w in parties && parties[w].stage == Granted
      modifies this
      ensures View() == AdmissionQueue.Collect(old(View()), w) && Inv(View())
    {
      CollectKeeps(View(), w);
      parties := parties[w := parties[w].(stage := Holding)];
    }

    /** A waiter gives up its slot or its place in line. */
    method LeaveLocked(w: Ticket)
      requires w in parties
      modifies this
      ensures View() == Leave(old(View()), w)
    {
      var tenant := parties[w].tenant;
      if parties[w].stage == Granted {
        active := active - 1;
      } else {
        line := Without(line, w);
        queued := queued - 1;
      }
      var count := Count(tenants, tenant) - 1;
      if count <= 0 { tenants := tenants - {tenant}; } else { tenants := tenants[tenant := count]; }
      parties := parties - {w};
    }

    /** The waiter's context ended, before or after it was granted a slot. */
    method Cancel(w: Ticket)
      requires Inv(View()) && w in parties && parties[w].stage in {Waiting, Granted}
      modifies this
      ensures LineKnown(Leave(old(View()), w)) && View() == AdmissionQueue.Cancel(old(View()), w) && Inv(View())
    {
      LeaveKeeps(View(), w);
      GrantLoopKeeps(Leave(View(), w));
      LeaveLocked(w);
      GrantLocked();
    }

    /** Idempotent: a second release of the same permit does nothing. */
    method Release(w: Ticket)
      requires Inv(View())
      modifies this
      ensures Inv(View())
      ensures w in old(parties) && old(parties)[w].stage == Holding ==>
                LineKnown(GiveBack(old(View()), w)) && View() == AdmissionQueue.Release(old(View()), w)
      ensures !(w in old(parties) && old(parties)[w].stage == Holding) ==> View() == old(View())
    {
      if w !in parties || parties[w].stage != Holding { return; }
      GiveBackKeeps(View(), w);
      GrantLoopKeeps(GiveBack(View(), w));
      released := released[parties[w].tenant := Releases(View(), parties[w].tenant) + 1];
      active := active - 1;
      parties := parties - {w};
      assert View() == GiveBack(old(View()), w);
      GrantLocked();
    }
  }
}
