/** What each operation on the request gate does to its calls, in their own terms. */
module GateSteps {
  import opened GateQueue
  import opened WaitLine
  import opened MapSums

  ghost predicate Reachable(g: Gate, cfg: Config, os: seq<Op>) {
    Runs(Empty(cfg), os) && g == After(Empty(cfg), os)
  }

  lemma ReachableFits(g: Gate, cfg: Config, os: seq<Op>)
    requires Reachable(g, cfg, os)
    ensures Inv(g) && g.cfg == Configured(cfg)
  {
    EmptyFits(cfg);
    RunKeepsInv(Empty(cfg), os);
    RunKeepsConfig(Empty(cfg), os);
  }

  /** The gate has the limits it was configured with, and 64 slots if none were stated, for good. */
  lemma SlotsAsConfigured(g: Gate, cfg: Config, os: seq<Op>)
    requires Reachable(g, cfg, os)
    ensures g.cfg.maxInflight == if cfg.maxInflight <= 0 then 64 else cfg.maxInflight
    ensures g.cfg.maxQueued == cfg.maxQueued && g.cfg.maxBody == cfg.maxBody
  {
    ReachableFits(g, cfg, os);
  }

  /** The bytes in use, without the gate's counter. */
  ghost function InUse(g: Gate): int {
    Sum(Declared(g.calls)) + Sum(g.bodies)
  }

  /** Which are the stated lengths of the calls that have a slot, and what open bodies were charged. */
  lemma DeclaredIs(g: Gate, k: Ticket)
    ensures k in Declared(g.calls) <==> k in g.calls && g.calls[k].stage in {Granted, Running}
    ensures k in Declared(g.calls) ==> Declared(g.calls)[k] == if g.calls[k].known then g.calls[k].len else 0
  {
  }

  ghost predicate TooLong(g: Gate, len: int, known: bool) {
    known && g.cfg.maxBody > 0 && len > g.cfg.maxBody
  }

  ghost predicate RoomFor(g: Gate, len: int, known: bool) {
    |Served(g.calls)| < g.cfg.maxInflight && (known && g.cfg.maxBody > 0 ==> InUse(g) + len <= g.cfg.maxBody)
  }

  /** After every run a request is refused exactly if it could never fit, or would have to wait while
    * the line is full or not allowed; it runs at once exactly if nobody waits and slot and bytes
    * are free, and joins the end of the line otherwise. Nobody else is affected. */
  lemma EnterMeans(g: Gate, cfg: Config, os: seq<Op>, len: int, known: bool)
    requires Reachable(g, cfg, os) && (known ==> len >= 0)
    ensures var q := Next(g, DoEnter(len, known));
            var atOnce := !TooLong(g, len, known) && g.line == [] && RoomFor(g, len, known);
            var refused := TooLong(g, len, known) || (!atOnce && (g.cfg.maxQueued <= 0 || |g.line| >= g.cfg.maxQueued));
            && (atOnce ==> q.calls == g.calls[g.next := Call(known, len, Running)] && q.line == g.line)
            && (refused ==> q == g)
            && (!atOnce && !refused ==> q.calls == g.calls[g.next := Call(known, len, Waiting)] && q.line == g.line + [g.next])
            && g.next !in g.calls && q.bodies == g.bodies
  {
    ReachableFits(g, cfg, os);
  }

  /** From `g` to `q` the first `n` of the line were granted, and nothing else changed. */
  ghost predicate Front(g: Gate, q: Gate, n: nat) {
    && n <= |g.line| && q.line == g.line[n..] && q.calls == FrontGranted(g.calls, g.line[..n])
    && q.bodies == g.bodies && q.next == g.next
  }

  /** Moving the line up grants a stretch of its front and changes nothing else. */
  lemma {:induction false} GrantsFront(g: Gate) returns (n: nat)
    requires LineKnown(g)
    ensures Front(g, GrantLoop(g), n)
    decreases |g.line|
  {
    if HeadFits(g) {
      n := GrantsFront(GrantHead(g));
      FrontMore(g, GrantLoop(g), n);
      n := n + 1;
    } else {
      n := 0;
      assert g.line[..0] == [] && FrontGranted(g.calls, []) == g.calls;
    }
  }

  lemma FrontMore(g: Gate, q: Gate, m: nat)
    requires g.line != [] && g.line[0] in g.calls && Front(GrantHead(g), q, m)
    ensures Front(g, q, m + 1)
  {
    assert g.line[..m + 1] == [g.line[0]] + g.line[1..][..m];
    assert g.line[1..][m..] == g.line[m + 1..];
    FrontTwice(g.calls, g.line[0], g.line[1..][..m]);
  }

  function FrontGranted(calls: map<Ticket, Call>, front: seq<Ticket>): map<Ticket, Call> {
    map k | k in calls :: if k in front then calls[k].(stage := Granted) else calls[k]
  }

  lemma FrontTwice(calls: map<Ticket, Call>, w: Ticket, rest: seq<Ticket>)
    requires w in calls
    ensures FrontGranted(calls[w := calls[w].(stage := Granted)], rest) == FrontGranted(calls, [w] + rest)
  {
  }

  /** What is left of the line, and of calls and bodies, before the line moves up. */
  ghost predicate Moves(g: Gate, q: Gate, calls: map<Ticket, Call>, line: seq<Ticket>, bodies: map<Ticket, int>, n: nat) {
    && n <= |line| && q.line == line[n..] && q.calls == FrontGranted(calls, line[..n]) && q.bodies == bodies && q.next == g.next
    && (q.line != [] ==> q.line[0] in q.calls && !RoomFor(q, q.calls[q.line[0]].len, q.calls[q.line[0]].known))
  }

  lemma HeadDoesNotFit(q: Gate)
    requires Inv(q) && q.line != []
    ensures q.line[0] in q.calls && !RoomFor(q, q.calls[q.line[0]].len, q.calls[q.line[0]].known)
  {
  }

  lemma MovesUp(left: Gate) returns (n: nat)
    requires Loose(left) && LineKnown(left)
    ensures Moves(left, GrantLoop(left), left.calls, left.line, left.bodies, n)
  {
    n := GrantsFront(left);
    GrantLoopKeeps(left);
    if GrantLoop(left).line != [] { HeadDoesNotFit(GrantLoop(left)); }
  }

  /** A call that ends, or leaves with a slot on its way, gives back its slot and its declared bytes;
    * the front of the line is granted for as long as it fits, and nobody overtakes. */
  lemma EndFreesSlot(g: Gate, cfg: Config, os: seq<Op>, o: Op) returns (n: nat)
    requires Reachable(g, cfg, os) && (o.DoCancel? || o.DoRelease?) && Enabled(g, o) && g.calls[o.w].stage != Waiting
    ensures Moves(g, Next(g, o), g.calls - {o.w}, g.line, g.bodies, n)
  {
    ReachableFits(g, cfg, os);
    GiveBackKeeps(g, o.w);
    n := MovesUp(GiveBack(g, o.w));
  }

  /** A caller that leaves the line gives up its place; if it was in the way of others, they move up. */
  lemma PlaceIsVacated(g: Gate, cfg: Config, os: seq<Op>, w: Ticket) returns (n: nat)
    requires Reachable(g, cfg, os) && Enabled(g, DoCancel(w)) && g.calls[w].stage == Waiting
    ensures Moves(g, Next(g, DoCancel(w)), g.calls - {w}, Without(g.line, w), g.bodies, n)
  {
    ReachableFits(g, cfg, os);
    LeaveLineKeeps(g, w);
    n := MovesUp(LeaveLine(g, w));
  }

  /** A body that is closed returns what it was charged, and the line moves up; its call goes on. */
  lemma CloseFreesBytes(g: Gate, cfg: Config, os: seq<Op>, w: Ticket) returns (n: nat)
    requires Reachable(g, cfg, os) && Enabled(g, DoCloseBody(w))
    ensures Moves(g, Next(g, DoCloseBody(w)), g.calls, g.line, g.bodies - {w}, n)
  {
    ReachableFits(g, cfg, os);
    UnchargeKeeps(g, w);
    n := MovesUp(Uncharge(g, w));
  }

  /** Bytes of a body are charged exactly while they fit, to that body; wrapping a body charges nothing,
    * and a wake signal only starts its call. */
  lemma BytesAreCharged(g: Gate, cfg: Config, os: seq<Op>, w: Ticket, n: nat)
    requires Reachable(g, cfg, os)
    ensures w in g.bodies ==> (Enabled(g, DoCharge(w, n)) <==> InUse(g) + n <= g.cfg.maxBody)
    ensures Enabled(g, DoCharge(w, n)) ==>
              var q := Next(g, DoCharge(w, n)); q.bodies == g.bodies[w := g.bodies[w] + n] && q.calls == g.calls && q.line == g.line
    ensures Enabled(g, DoOpenBody(w)) ==>
              var q := Next(g, DoOpenBody(w)); q.bodies == g.bodies[w := 0] && q.calls == g.calls && q.line == g.line
    ensures Enabled(g, DoCollect(w)) ==>
              var q := Next(g, DoCollect(w));
              q.bodies == g.bodies && q.calls == g.calls[w := Call(g.calls[w].known, g.calls[w].len, Running)] && q.line == g.line
  {
    ReachableFits(g, cfg, os);
  }
}
