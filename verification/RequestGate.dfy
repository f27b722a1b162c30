/** The request gate as the code keeps it: counters and a waiter list updated under one
  * mutex. Every method is proved to be the operation of GateQueue with the same name. */
module RequestGate {
  import opened GateQueue
  import opened WaitLine

  datatype Entry = Lease(w: Ticket) | Queued(w: Ticket) | Overload

  class InferenceGate {
    const cfg: Config
    var inflight: int
    var queued: int
    var bodyUsed: int
    var waiters: seq<Ticket>
    var calls: map<Ticket, Call>
    var next: Ticket
    var bodies: map<Ticket, int>

    ghost function View(): Gate
      reads this
    {
      Gate(cfg, inflight, queued, bodyUsed, waiters, calls, next, bodies)
    }

    constructor (cfg: Config)
      ensures View() == Empty(cfg) && Inv(View())
    {
      this.cfg := if cfg.maxInflight <= 0 then cfg.(maxInflight := 64) else cfg;
      inflight, queued, bodyUsed, waiters, calls, next, bodies := 0, 0, 0, [], map[], 0, map[];
      new;
      EmptyFits(cfg);
    }

    predicate FitsLocked(len: int, known: bool)
      reads this
      ensures FitsLocked(len, known) <==> Fits(View(), len, known)
    {
      if inflight >= cfg.maxInflight then false
      else if known && cfg.maxBody > 0 && bodyUsed + len > cfg.maxBody then false
      else true
    }

    method GrantLocked()
      requires LineKnown(View())
      modifies this
      ensures View() == GrantLoop(old(View()))
    {
      while waiters != [] && FitsLocked(calls[waiters[0]].len, calls[waiters[0]].known)
        invariant LineKnown(View()) && GrantLoop(View()) == GrantLoop(old(View()))
        decreases |waiters|
      {
        assert GrantLoop(View()) == GrantLoop(GrantHead(View()));
        ghost var expected := GrantHead(View());
        var w := waiters[0];
        waiters := waiters[1..];
        queued := queued - 1;
        inflight := inflight + 1;
        if calls[w].known { bodyUsed := bodyUsed + calls[w].len; }
        calls := calls[w := calls[w].(stage := Granted)];
        assert View() == expected;
      }
    }

    method StartLocked(len: int, known: bool)
      requires Immediate(View(), len, known)
      modifies this
      ensures View() == GateQueue.Enter(old(View()), len, known)
    {
      inflight := inflight + 1;
      if known { bodyUsed := bodyUsed + len; }
      calls := calls[next := Call(known, len, Running)];
      next := next + 1;
    }

    method JoinLocked(len: int, known: bool)
      requires !Immediate(View(), len, known) && !Overloaded(View(), len, known)
      modifies this
      ensures View() == GateQueue.Enter(old(View()), len, known)
    {
      queued := queued + 1;
      waiters := waiters + [next];
      calls := calls[next := Call(known, len, Waiting)];
      next := next + 1;
    }

    /** The part of enter before it waits. */
    method Enter(len: int, known: bool) returns (r: Entry)
      requires Inv(View()) && (known ==> len >= 0)
      modifies this
      ensures View() == GateQueue.Enter(old(View()), len, known) && Inv(View())
      ensures r == if Immediate(old(View()), len, known) then Lease(old(next))
                   else if Overloaded(old(View()), len, known) then Overload else Queued(old(next))
    {
      EnterKeeps(View(), len, known);
      var ticket := next;
      if known && cfg.maxBody > 0 && len > cfg.maxBody { return Overload; }
      if FitsLocked(len, known) && |waiters| == 0 {
        StartLocked(len, known);
        return Lease(ticket);
      }
      if cfg.maxQueued <= 0 || queued >= cfg.maxQueued { return Overload; }
      JoinLocked(len, known);
      return Queued(ticket);
    }

    /** The waiter received its wake signal: its slot and bytes were charged by the grant. */
    method Collect(w: Ticket)
      requires Inv(View()) && Has(View(), w, {Granted})
      modifies this
      ensures View() == GateQueue.Collect(old(View()), w) && Inv(View())
    {
      CollectKeeps(View(), w);
      calls := calls[w := calls[w].(stage := Running)];
    }

    method GiveBackLocked(w: Ticket)
      requires w in calls
      modifies this
      ensures View() == GiveBack(old(View()), w)
    {
      inflight := inflight - 1;
      if calls[w].known { bodyUsed := bodyUsed - calls[w].len; }
      calls := calls - {w};
    }

    method LeaveLineLocked(w: Ticket)
      requires w in calls
      modifies this
      ensures View() == LeaveLine(old(View()), w)
    {
      waiters := Without(waiters, w);
      queued := queued - 1;
      calls := calls - {w};
    }

    /** The waiter's request ended, before or after it was granted a slot. */
    method Cancel(w: Ticket)
      requires Inv(View()) && Has(View(), w, {Waiting, Granted})
      modifies this
      ensures LineKnown(Leave(old(View()), w)) && View() == GrantLoop(Leave(old(View()), w)) && Inv(View())
    {
      LeaveKeeps(View(), w);
      GrantLoopKeeps(Leave(View(), w));
      if calls[w].stage == Granted { GiveBackLocked(w); } else { LeaveLineLocked(w); }
      GrantLocked();
    }

    /** The lease's release; a second one does nothing. */
    method Release(w: Ticket)
      requires Inv(View())
      modifies this
      ensures Inv(View())
      ensures Has(old(View()), w, {Running}) ==>
                LineKnown(GiveBack(old(View()), w)) && View() == GrantLoop(GiveBack(old(View()), w))
      ensures !Has(old(View()), w, {Running}) ==> View() == old(View())
    {
      if w !in calls || calls[w].stage != Running { return; }
      GiveBackKeeps(View(), w);
      GrantLoopKeeps(GiveBack(View(), w));
      GiveBackLocked(w);
      GrantLocked();
    }

    /** A running call of unknown length gets its body wrapped. */
    method OpenBody(w: Ticket)
      requires Inv(View()) && Enabled(View(), DoOpenBody(w))
      modifies this
      ensures View() == GateQueue.OpenBody(old(View()), w) && Inv(View())
    {
      OpenBodyKeeps(View(), w);
      bodies := bodies[w := 0];
    }

    /** One turn of charging `n` arrived bytes: it waits, changing nothing, until they fit. */
    method ChargeBody(w: Ticket, n: nat) returns (charged: bool)
      requires Inv(View()) && w in bodies
      modifies this
      ensures charged == Chargeable(old(View()), n) && Inv(View())
      ensures View() == if charged then Charge(old(View()), w, n) else old(View())
    {
      if cfg.maxBody <= 0 || bodyUsed + n <= cfg.maxBody {
        ChargeKeeps(View(), w, n);
        if cfg.maxBody > 0 { bodyUsed := bodyUsed + n; }
        bodies := bodies[w := bodies[w] + n];
        return true;
      }
      return false;
    }

    method UnchargeLocked(w: Ticket)
      requires w in bodies
      modifies this
      ensures View() == Uncharge(old(View()), w)
    {
      if cfg.maxBody > 0 { bodyUsed := bodyUsed - bodies[w]; }
      bodies := bodies - {w};
    }

    /** Closing a wrapped body returns its bytes; a second close does nothing. */
    method CloseBody(w: Ticket)
      requires Inv(View())
      modifies this
      ensures Inv(View())
      ensures w in old(bodies) ==> LineKnown(Uncharge(old(View()), w)) && View() == GrantLoop(Uncharge(old(View()), w))
      ensures w !in old(bodies) ==> View() == old(View())
    {
      if w !in bodies { return; }
      UnchargeKeeps(View(), w);
      GrantLoopKeeps(Uncharge(View(), w));
      UnchargeLocked(w);
      GrantLocked();
    }
  }
}
