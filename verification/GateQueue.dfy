/** The request gate as a queue: callers wait in order of arrival until a slot and the
  * bytes of their body both fit.
  *
  * Every caller that gets past the overload check is a ticket, numbered by arrival. A
  * body of declared length is charged with its slot; a body of unknown length is charged
  * as its bytes arrive, and keeps that charge until it is closed.
  */
module GateQueue {
  import opened MapSums
  import opened WaitLine

  /** A byte limit of zero or less means no limit; a queue limit of zero or less means no queue. */
  datatype Config = Config(maxInflight: int, maxQueued: int, maxBody: int)

  datatype Stage = Waiting | Granted | Running

  datatype Call = Call(known: bool, len: int, stage: Stage)

  /** `bodies` are the wrapped bodies not closed so far, with what each has been charged. */
  datatype Gate = Gate(
    cfg: Config,
    inflight: int,
    queued: int,
    used: int,
    line: seq<Ticket>,
    calls: map<Ticket, Call>,
    next: Ticket,
    bodies: map<Ticket, int>)

  function Configured(cfg: Config): Config {
    if cfg.maxInflight <= 0 then cfg.(maxInflight := 64) else cfg
  }

  function Empty(cfg: Config): Gate {
    Gate(Configured(cfg), 0, 0, 0, [], map[], 0, map[])
  }

  predicate Fits(g: Gate, len: int, known: bool) {
    && g.inflight < g.cfg.maxInflight
    && !(known && g.cfg.maxBody > 0 && g.used + len > g.cfg.maxBody)
  }

  predicate Oversize(g: Gate, len: int, known: bool) {
    known && g.cfg.maxBody > 0 && len > g.cfg.maxBody
  }

  predicate Immediate(g: Gate, len: int, known: bool) {
    !Oversize(g, len, known) && Fits(g, len, known) && g.line == []
  }

  predicate Overloaded(g: Gate, len: int, known: bool) {
    || Oversize(g, len, known)
    || (!Immediate(g, len, known) && (g.cfg.maxQueued <= 0 || g.queued >= g.cfg.maxQueued))
  }

  function Weight(c: Call): int {
    if c.known then c.len else 0
  }

  function Enter(g: Gate, len: int, known: bool): Gate {
    if Immediate(g, len, known) then
      g.(inflight := g.inflight + 1, used := g.used + Weight(Call(known, len, Running)),
         calls := g.calls[g.next := Call(known, len, Running)], next := g.next + 1)
    else if Overloaded(g, len, known) then g
    else g.(queued := g.queued + 1, line := g.line + [g.next],
            calls := g.calls[g.next := Call(known, len, Waiting)], next := g.next + 1)
  }

  predicate LineKnown(g: Gate) {
    forall i :: 0 <= i < |g.line| ==> g.line[i] in g.calls
  }

  predicate HeadFits(g: Gate)
    requires LineKnown(g)
  {
    g.line != [] && Fits(g, g.calls[g.line[0]].len, g.calls[g.line[0]].known)
  }

  /** grantLocked's one turn. */
  function GrantHead(g: Gate): Gate
    requires g.line != [] && g.line[0] in g.calls
  {
    var w := g.line[0];
    g.(line := g.line[1..], queued := g.queued - 1, inflight := g.inflight + 1,
       used := g.used + Weight(g.calls[w]), calls := g.calls[w := g.calls[w].(stage := Granted)])
  }

  /** The head of the line is granted for as long as it fits; it is never overtaken. */
  function GrantLoop(g: Gate): Gate
    requires LineKnown(g)
    decreases |g.line|
  {
    if HeadFits(g) then GrantLoop(GrantHead(g)) else g
  }

  function Collect(g: Gate, w: Ticket): Gate
    requires w in g.calls
  {
    g.(calls := g.calls[w := g.calls[w].(stage := Running)])
  }

  /** A call with a slot gives back the slot and its declared bytes. */
  function GiveBack(g: Gate, w: Ticket): Gate
    requires w in g.calls
  {
    g.(inflight := g.inflight - 1, used := g.used - Weight(g.calls[w]), calls := g.calls - {w})
  }

  function LeaveLine(g: Gate, w: Ticket): Gate
    requires w in g.calls
  {
    g.(line := Without(g.line, w), queued := g.queued - 1, calls := g.calls - {w})
  }

  /** Cancellation of a waiter, racing with its grant. */
  function Leave(g: Gate, w: Ticket): Gate
    requires w in g.calls
  {
    if g.calls[w].stage == Granted then GiveBack(g, w) else LeaveLine(g, w)
  }

  function OpenBody(g: Gate, w: Ticket): Gate {
    g.(bodies := g.bodies[w := 0])
  }

  /** Whether `n` more bytes of a body may be charged; the caller waits while they may not. */
  predicate Chargeable(g: Gate, n: nat) {
    g.cfg.maxBody <= 0 || g.used + n <= g.cfg.maxBody
  }

  function Charge(g: Gate, w: Ticket, n: nat): Gate
    requires w in g.bodies
  {
    g.(used := if g.cfg.maxBody > 0 then g.used + n else g.used, bodies := g.bodies[w := g.bodies[w] + n])
  }

  function Uncharge(g: Gate, w: Ticket): Gate
    requires w in g.bodies
  {
    g.(used := if g.cfg.maxBody > 0 then g.used - g.bodies[w] else g.used, bodies := g.bodies - {w})
  }

  // ---- Runs ----

  datatype Op =
    | DoEnter(len: int, known: bool)
    | DoCollect(w: Ticket)
    | DoCancel(w: Ticket)
    | DoRelease(w: Ticket)
    | DoOpenBody(w: Ticket)
    | DoCharge(w: Ticket, n: nat)
    | DoCloseBody(w: Ticket)

  predicate Has(g: Gate, w: Ticket, stages: set<Stage>) {
    w in g.calls && g.calls[w].stage in stages
  }

  /** Only a body of unknown length under a byte limit is wrapped, and only while its call runs. */
  predicate Enabled(g: Gate, o: Op) {
    match o
    case DoEnter(len, known) => known ==> len >= 0
    case DoCollect(w) => Has(g, w, {Granted})
    case DoCancel(w) => Has(g, w, {Waiting, Granted}) && LineKnown(Leave(g, w))
    case DoRelease(w) => Has(g, w, {Running}) && LineKnown(GiveBack(g, w))
    case DoOpenBody(w) => Has(g, w, {Running}) && !g.calls[w].known && g.cfg.maxBody > 0 && w !in g.bodies
    case DoCharge(w, n) => w in g.bodies && Chargeable(g, n)
    case DoCloseBody(w) => w in g.bodies && LineKnown(g)
  }

  function Next(g: Gate, o: Op): Gate
    requires Enabled(g, o)
  {
    match o
    case DoEnter(len, known) => Enter(g, len, known)
    case DoCollect(w) => Collect(g, w)
    case DoCancel(w) => GrantLoop(Leave(g, w))
    case DoRelease(w) => GrantLoop(GiveBack(g, w))
    case DoOpenBody(w) => OpenBody(g, w)
    case DoCharge(w, n) => Charge(g, w, n)
    case DoCloseBody(w) => GrantLoop(Uncharge(g, w))
  }

  predicate Runs(g: Gate, os: seq<Op>)
    decreases |os|
  {
    os == [] || (Enabled(g, os[0]) && Runs(Next(g, os[0]), os[1..]))
  }

  function After(g: Gate, os: seq<Op>): Gate
    requires Runs(g, os)
    decreases |os|
  {
    if os == [] then g else After(Next(g, os[0]), os[1..])
  }

  // ---- The invariant ----

  /** The calls that hold a slot. */
  function Served(calls: map<Ticket, Call>): set<Ticket> {
    set k | k in calls && calls[k].stage != Waiting
  }

  /** The declared bytes of the calls that hold a slot. */
  function Declared(calls: map<Ticket, Call>): map<Ticket, int> {
    map k | k in calls && calls[k].stage != Waiting :: Weight(calls[k])
  }

  ghost predicate LineFits(g: Gate) {
    && g.queued == |g.line|
    && (forall i :: 0 <= i < |g.line| ==> g.line[i] in g.calls && g.calls[g.line[i]].stage == Waiting)
    && (forall k :: k in g.calls && g.calls[k].stage == Waiting ==> k in g.line)
    && Ascending(g.line)
    && (g.cfg.maxQueued > 0 ==> g.queued <= g.cfg.maxQueued) && (g.cfg.maxQueued <= 0 ==> g.line == [])
  }

  ghost predicate InOrder(g: Gate) {
    && (forall k :: k in g.calls ==> k < g.next)
    && (forall k, i :: k in Served(g.calls) && 0 <= i < |g.line| ==> k < g.line[i])
  }

  ghost predicate BytesFit(g: Gate) {
    && g.used == Sum(Declared(g.calls)) + Sum(g.bodies)
    && (g.cfg.maxBody > 0 ==> g.used <= g.cfg.maxBody)
    && (g.bodies != map[] ==> g.cfg.maxBody > 0)
  }

  predicate CallFits(cfg: Config, c: Call) {
    c.known ==> 0 <= c.len && (cfg.maxBody > 0 ==> c.len <= cfg.maxBody)
  }

  ghost predicate LengthsFit(g: Gate) {
    && (forall k :: k in g.calls ==> CallFits(g.cfg, g.calls[k]))
    && (forall k :: k in g.bodies ==> 0 <= g.bodies[k])
  }

  ghost predicate SlotsFit(g: Gate) {
    g.inflight == |Served(g.calls)| <= g.cfg.maxInflight
  }

  /** What holds even between capacity becoming free and the line moving up. */
  ghost predicate Loose(g: Gate) {
    SlotsFit(g) && LineFits(g) && InOrder(g) && BytesFit(g) && LengthsFit(g)
  }

  /** At rest, the head of the line does not fit. */
  ghost predicate Inv(g: Gate) {
    Loose(g) && LineKnown(g) && !HeadFits(g)
  }

  // ---- Every operation keeps the invariant ----

  /** A call that comes to hold a slot adds its declared bytes. */
  lemma ServeBytes(calls: map<Ticket, Call>, w: Ticket, c: Call)
    requires c.stage != Waiting && (w in calls ==> calls[w].stage == Waiting)
    ensures Sum(Declared(calls[w := c])) == Sum(Declared(calls)) + Weight(c)
  {
    Adds(Declared(calls), w, Weight(c));
    assert Declared(calls[w := c]) == Declared(calls)[w := Weight(c)];
  }

  lemma ServeSlots(calls: map<Ticket, Call>, w: Ticket, c: Call)
    requires c.stage != Waiting && (w in calls ==> calls[w].stage == Waiting)
    ensures Served(calls[w := c]) == Served(calls) + {w} && |Served(calls[w := c])| == |Served(calls)| + 1
  {
    assert Served(calls[w := c]) == Served(calls) + {w};
  }

  /** A call that loses its slot takes its declared bytes with it. */
  lemma UnserveBytes(calls: map<Ticket, Call>, w: Ticket)
    requires w in calls && calls[w].stage != Waiting
    ensures Sum(Declared(calls)) == Sum(Declared(calls - {w})) + Weight(calls[w])
  {
    Takes(Declared(calls), w);
    assert Declared(calls - {w}) == Declared(calls) - {w};
  }

  lemma UnserveSlots(calls: map<Ticket, Call>, w: Ticket)
    requires w in calls && calls[w].stage != Waiting
    ensures Served(calls) == Served(calls - {w}) + {w} && |Served(calls)| == |Served(calls - {w})| + 1
  {
    assert Served(calls) == Served(calls - {w}) + {w};
  }

  lemma GrantHeadLine(g: Gate)
    requires LineFits(g) && g.line != []
    ensures LineFits(GrantHead(g)) && LineKnown(GrantHead(g))
  {
    var q, w := GrantHead(g), g.line[0];
    forall i | 0 <= i < |q.line| ensures q.line[i] == g.line[i + 1] && q.line[i] != w {}
    forall k | k in q.calls && q.calls[k].stage == Waiting ensures k in q.line {
      var i :| 0 <= i < |g.line| && g.line[i] == k;
      assert q.line[i - 1] == k;
    }
  }

  lemma GrantHeadOrder(g: Gate)
    requires LineFits(g) && InOrder(g) && g.line != []
    ensures InOrder(GrantHead(g))
  {
    var q, w := GrantHead(g), g.line[0];
    ServeSlots(g.calls, w, g.calls[w].(stage := Granted));
    forall k, i | k in Served(q.calls) && 0 <= i < |q.line| ensures k < q.line[i] {
      assert q.line[i] == g.line[i + 1];
      assert k == w || k in Served(g.calls);
    }
  }

  lemma GrantHeadKeeps(g: Gate)
    requires Loose(g) && LineKnown(g) && HeadFits(g)
    ensures Loose(GrantHead(g)) && LineKnown(GrantHead(g))
  {
    var w := g.line[0];
    GrantHeadLine(g);
    GrantHeadOrder(g);
    ServeBytes(g.calls, w, g.calls[w].(stage := Granted));
    ServeSlots(g.calls, w, g.calls[w].(stage := Granted));
  }

  lemma {:induction false} GrantLoopKeeps(g: Gate)
    requires Loose(g) && LineKnown(g)
    ensures Inv(GrantLoop(g))
    decreases |g.line|
  {
    if HeadFits(g) {
      GrantHeadKeeps(g);
      GrantLoopKeeps(GrantHead(g));
    }
  }

  lemma EnterNowSlots(g: Gate, len: int, known: bool)
    requires Inv(g) && Immediate(g, len, known)
    ensures SlotsFit(Enter(g, len, known))
  {
    ServeSlots(g.calls, g.next, Call(known, len, Running));
  }

  lemma EnterNowBytes(g: Gate, len: int, known: bool)
    requires Inv(g) && Immediate(g, len, known)
    ensures BytesFit(Enter(g, len, known))
  {
    ServeBytes(g.calls, g.next, Call(known, len, Running));
  }

  lemma EnterNowLengths(g: Gate, len: int, known: bool)
    requires Inv(g) && Immediate(g, len, known) && (known ==> len >= 0)
    ensures LengthsFit(Enter(g, len, known))
  {
  }

  lemma EnterNowKeeps(g: Gate, len: int, known: bool)
    requires Inv(g) && Immediate(g, len, known) && (known ==> len >= 0)
    ensures Inv(Enter(g, len, known))
  {
    EnterNowSlots(g, len, known);
    EnterNowBytes(g, len, known);
    EnterNowLengths(g, len, known);
  }

  predicate Queues(g: Gate, len: int, known: bool) {
    !Immediate(g, len, known) && !Overloaded(g, len, known)
  }

  lemma QueueArrivalLine(g: Gate, len: int, known: bool)
    requires LineFits(g) && InOrder(g) && Queues(g, len, known)
    ensures LineFits(Enter(g, len, known))
  {
    var q := Enter(g, len, known);
    assert q.line[|g.line|] == g.next;
    forall i | 0 <= i < |g.line| ensures q.line[i] == g.line[i] && g.line[i] < g.next {}
    forall k | k in q.calls && q.calls[k].stage == Waiting ensures k in q.line {
      if k in g.line {
        var i :| 0 <= i < |g.line| && g.line[i] == k;
        assert q.line[i] == k;
      }
    }
  }

  lemma QueueArrivalOrder(g: Gate, len: int, known: bool)
    requires LineFits(g) && InOrder(g) && Queues(g, len, known)
    ensures InOrder(Enter(g, len, known))
  {
    var q := Enter(g, len, known);
    assert Served(q.calls) == Served(g.calls);
    forall k, i | k in Served(q.calls) && 0 <= i < |q.line| ensures k < q.line[i] {
      if i < |g.line| { assert q.line[i] == g.line[i]; } else { assert q.line[i] == g.next; }
    }
  }

  lemma QueueArrivalBytes(g: Gate, len: int, known: bool)
    requires Inv(g) && Queues(g, len, known) && (known ==> len >= 0)
    ensures SlotsFit(Enter(g, len, known)) && BytesFit(Enter(g, len, known)) && LengthsFit(Enter(g, len, known))
  {
    var q := Enter(g, len, known);
    assert Served(q.calls) == Served(g.calls) && Declared(q.calls) == Declared(g.calls);
  }

  lemma EnterQueuedKeeps(g: Gate, len: int, known: bool)
    requires Inv(g) && Queues(g, len, known) && (known ==> len >= 0)
    ensures Inv(Enter(g, len, known))
  {
    QueueArrivalLine(g, len, known);
    QueueArrivalOrder(g, len, known);
    QueueArrivalBytes(g, len, known);
    var q := Enter(g, len, known);
    if g.line != [] { assert q.line[0] == g.line[0]; }
  }

  lemma EnterKeeps(g: Gate, len: int, known: bool)
    requires Inv(g) && (known ==> len >= 0)
    ensures Inv(Enter(g, len, known))
  {
    if Immediate(g, len, known) { EnterNowKeeps(g, len, known); }
    else if !Overloaded(g, len, known) { EnterQueuedKeeps(g, len, known); }
  }

  lemma CollectKeeps(g: Gate, w: Ticket)
    requires Inv(g) && Has(g, w, {Granted})
    ensures Inv(Collect(g, w))
  {
    var q := Collect(g, w);
    assert Served(q.calls) == Served(g.calls) && Declared(q.calls) == Declared(g.calls);
  }

  lemma GiveBackKeeps(g: Gate, w: Ticket)
    requires Inv(g) && Has(g, w, {Granted, Running})
    ensures Loose(GiveBack(g, w)) && LineKnown(GiveBack(g, w))
  {
    UnserveBytes(g.calls, w);
    UnserveSlots(g.calls, w);
  }

  lemma LeaveLineOrder(g: Gate, w: Ticket)
    requires Inv(g) && Has(g, w, {Waiting})
    ensures LineFits(LeaveLine(g, w)) && LineKnown(LeaveLine(g, w))
  {
    var q := LeaveLine(g, w);
    WithoutFits(g.line, w);
    forall i | 0 <= i < |q.line| ensures q.line[i] in g.line && q.line[i] != w {}
    forall k | k in q.calls && q.calls[k].stage == Waiting ensures k in q.line {}
  }

  lemma LeaveLineServed(g: Gate, w: Ticket)
    requires Has(g, w, {Waiting})
    ensures Served(LeaveLine(g, w).calls) == Served(g.calls) && Declared(LeaveLine(g, w).calls) == Declared(g.calls)
  {
  }

  lemma LeaveLineInOrder(g: Gate, w: Ticket)
    requires InOrder(g) && Has(g, w, {Waiting})
    ensures InOrder(LeaveLine(g, w))
  {
    var q := LeaveLine(g, w);
    LeaveLineServed(g, w);
    forall i | 0 <= i < |q.line| ensures q.line[i] in g.line {}
  }

  lemma LeaveLineKeeps(g: Gate, w: Ticket)
    requires Inv(g) && Has(g, w, {Waiting})
    ensures Loose(LeaveLine(g, w)) && LineKnown(LeaveLine(g, w))
  {
    LeaveLineOrder(g, w);
    LeaveLineInOrder(g, w);
    LeaveLineServed(g, w);
  }

  lemma LeaveKeeps(g: Gate, w: Ticket)
    requires Inv(g) && Has(g, w, {Waiting, Granted})
    ensures Loose(Leave(g, w)) && LineKnown(Leave(g, w))
  {
    if g.calls[w].stage == Granted { GiveBackKeeps(g, w); } else { LeaveLineKeeps(g, w); }
  }

  lemma OpenBodyKeeps(g: Gate, w: Ticket)
    requires Inv(g) && g.cfg.maxBody > 0 && w !in g.bodies
    ensures Inv(OpenBody(g, w))
  {
    Adds(g.bodies, w, 0);
  }

  lemma ChargeBytes(g: Gate, w: Ticket, n: nat)
    requires BytesFit(g) && w in g.bodies && Chargeable(g, n)
    ensures BytesFit(Charge(g, w, n))
  {
    Replaces(g.bodies, w, g.bodies[w] + n);
    var q := Charge(g, w, n);
    assert q.bodies == g.bodies[w := g.bodies[w] + n] && q.calls == g.calls && q.cfg == g.cfg;
    assert q.used == g.used + n;
  }

  lemma ChargeLengths(g: Gate, w: Ticket, n: nat)
    requires LengthsFit(g) && w in g.bodies
    ensures LengthsFit(Charge(g, w, n))
  {
  }

  lemma ChargeKeeps(g: Gate, w: Ticket, n: nat)
    requires Inv(g) && w in g.bodies && Chargeable(g, n)
    ensures Inv(Charge(g, w, n))
  {
    ChargeBytes(g, w, n);
    ChargeLengths(g, w, n);
    var q := Charge(g, w, n);
    assert q.line == g.line && q.calls == g.calls && q.used >= g.used;
  }

  lemma UnchargeKeeps(g: Gate, w: Ticket)
    requires Inv(g) && w in g.bodies
    ensures Loose(Uncharge(g, w)) && LineKnown(Uncharge(g, w))
  {
    Takes(g.bodies, w);
  }

  lemma StepKeepsInv(g: Gate, o: Op)
    requires Inv(g) && Enabled(g, o)
    ensures Inv(Next(g, o))
  {
    match o
    case DoEnter(len, known) => EnterKeeps(g, len, known);
    case DoCollect(w) => CollectKeeps(g, w);
    case DoCancel(w) => LeaveKeeps(g, w); GrantLoopKeeps(Leave(g, w));
    case DoRelease(w) => GiveBackKeeps(g, w); GrantLoopKeeps(GiveBack(g, w));
    case DoOpenBody(w) => OpenBodyKeeps(g, w);
    case DoCharge(w, n) => ChargeKeeps(g, w, n);
    case DoCloseBody(w) => UnchargeKeeps(g, w); GrantLoopKeeps(Uncharge(g, w));
  }

  lemma {:induction false} RunKeepsInv(g: Gate, os: seq<Op>)
    requires Inv(g) && Runs(g, os)
    ensures Inv(After(g, os))
    decreases |os|
  {
    if os != [] {
      StepKeepsInv(g, os[0]);
      RunKeepsInv(Next(g, os[0]), os[1..]);
    }
  }

  lemma EmptyFits(cfg: Config)
    ensures Inv(Empty(cfg))
  {
    assert Served(map[]) == {} && Declared(map[]) == map[];
  }

  // ---- Main results ----

  /** After every run the slots and bytes in use stay within their limits, the bytes in
    * use are exactly the declared lengths of the calls holding a slot plus the charges
    * of the bodies not closed, callers wait only behind a head that does not fit, and
    * nobody waiting arrived before anybody served. */
  lemma GateStaysWithinLimits(cfg: Config, os: seq<Op>)
    requires Runs(Empty(cfg), os)
    ensures var g := After(Empty(cfg), os);
            && g.inflight == |Served(g.calls)| <= g.cfg.maxInflight
            && g.used == Sum(Declared(g.calls)) + Sum(g.bodies)
            && (g.cfg.maxBody > 0 ==> g.used <= g.cfg.maxBody)
            && (g.line != [] ==> LineKnown(g) && !HeadFits(g))
            && (g.cfg.maxQueued > 0 ==> |g.line| <= g.cfg.maxQueued)
            && (forall k, i :: k in Served(g.calls) && 0 <= i < |g.line| ==> k < g.line[i])
            && Ascending(g.line)
  {
    EmptyFits(cfg);
    RunKeepsInv(Empty(cfg), os);
  }

  /** Nobody waits at a gate without a running call or an open body. */
  lemma IdleGateHasNoQueue(cfg: Config, os: seq<Op>)
    requires Runs(Empty(cfg), os)
    requires Served(After(Empty(cfg), os).calls) == {} && After(Empty(cfg), os).bodies == map[]
    ensures After(Empty(cfg), os).line == [] && After(Empty(cfg), os).used == 0
  {
    var g := After(Empty(cfg), os);
    EmptyFits(cfg);
    RunKeepsInv(Empty(cfg), os);
    RunKeepsConfig(Empty(cfg), os);
    assert Declared(g.calls) == map[] by {
      forall k | k in Declared(g.calls) ensures k in Served(g.calls) {}
    }
    if g.line != [] { assert Fits(g, g.calls[g.line[0]].len, g.calls[g.line[0]].known); }
  }

  lemma {:induction false} GrantLoopKeepsRest(g: Gate)
    requires LineKnown(g)
    ensures GrantLoop(g).bodies == g.bodies && GrantLoop(g).cfg == g.cfg
    ensures forall k :: k in g.calls ==> k in GrantLoop(g).calls && GrantLoop(g).calls[k].len == g.calls[k].len
                                         && GrantLoop(g).calls[k].known == g.calls[k].known
    decreases |g.line|
  {
    if HeadFits(g) { GrantLoopKeepsRest(GrantHead(g)); }
  }

  lemma StepKeepsBodies(g: Gate, o: Op, b: Ticket)
    requires Inv(g) && Enabled(g, o) && b in g.bodies && o != DoCloseBody(b)
    ensures b in Next(g, o).bodies && g.bodies[b] <= Next(g, o).bodies[b]
  {
    match o
    case DoCancel(w) => GrantLoopKeepsRest(Leave(g, w));
    case DoRelease(w) => GrantLoopKeepsRest(GiveBack(g, w));
    case DoCloseBody(w) => GrantLoopKeepsRest(Uncharge(g, w));
    case _ =>
  }

  lemma StepKeepsConfig(g: Gate, o: Op)
    requires Enabled(g, o)
    ensures Next(g, o).cfg == g.cfg
  {
    match o
    case DoCancel(w) => GrantLoopKeepsRest(Leave(g, w));
    case DoRelease(w) => GrantLoopKeepsRest(GiveBack(g, w));
    case DoCloseBody(w) => GrantLoopKeepsRest(Uncharge(g, w));
    case _ =>
  }

  lemma {:induction false} RunKeepsConfig(g: Gate, os: seq<Op>)
    requires Runs(g, os)
    ensures After(g, os).cfg == g.cfg
    decreases |os|
  {
    if os != [] {
      StepKeepsConfig(g, os[0]);
      RunKeepsConfig(Next(g, os[0]), os[1..]);
    }
  }

  /** Only closing a body returns its bytes: whatever else happens, the release of its
    * own call included, a body never closed goes on taking up what it was charged. */
  lemma {:induction false} UnclosedBodyKeepsItsBytes(g: Gate, os: seq<Op>, b: Ticket)
    requires Inv(g) && Runs(g, os) && b in g.bodies && DoCloseBody(b) !in os
    ensures b in After(g, os).bodies && g.bodies[b] <= After(g, os).bodies[b] <= After(g, os).used
    decreases |os|
  {
    if os == [] {
      Takes(g.bodies, b);
      NotNegative(g.bodies - {b});
      NotNegative(Declared(g.calls));
    } else {
      StepKeepsInv(g, os[0]);
      StepKeepsBodies(g, os[0], b);
      UnclosedBodyKeepsItsBytes(Next(g, os[0]), os[1..], b);
    }
  }

  /** So a request that needs more bytes than a body that is never closed leaves free is
    * not let in for as long as the gate runs. */
  lemma UnclosedBodyShutsOut(g: Gate, os: seq<Op>, b: Ticket, len: nat)
    requires Inv(g) && Runs(g, os) && b in g.bodies && DoCloseBody(b) !in os
    requires g.cfg.maxBody > 0 && len > g.cfg.maxBody - g.bodies[b]
    ensures !Fits(After(g, os), len, true) && !Immediate(After(g, os), len, true)
  {
    UnclosedBodyKeepsItsBytes(g, os, b);
    RunKeepsConfig(g, os);
  }
}
