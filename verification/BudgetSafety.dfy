/** No run of the ledger over-admits a budget, and money is accounted for once. */
module BudgetSafety {
  import opened MapSums
  import opened Calendar
  import opened Results
  import opened BudgetLedger

  /** What a settled and windowed budget may still hold at the ledger's own clock. */
  ghost function Covered(l: Ledger, b: Budget): int
    requires 0 <= l.clock
  {
    CoveredLiability(l, b, LiabilityFrom(b, l.clock))
  }

  // ---- How each step moves the sums of one budget ----

  lemma LiabilityFromAdvances(b: Budget, now: Time, later: Time)
    requires 0 <= now <= later
    ensures LiabilityFrom(b, now) <= LiabilityFrom(b, later)
  {
    WindowsAdvance(b.period, now, later);
  }

  /** A later window start drops charges and adds none. */
  lemma LaterWindowShrinks(l: Ledger, b: Budget, from: Time, later: Time)
    requires from <= later
    ensures Sum(CoveredCharges(l, b, later)) <= Sum(CoveredCharges(l, b, from))
  {
    Monotone(CoveredCharges(l, b, later), CoveredCharges(l, b, from));
  }

  lemma CoveredIsPart(l: Ledger, b: Budget, from: Time)
    ensures CoveredLiability(l, b, from) <= Liability(l, b, from)
  {
    Monotone(CoveredCharges(l, b, from), Charges(l, b, from));
    Monotone(AdmittedHolds(l, b), Holds(l, b));
  }

  predicate SameTerms(r: Reservation, q: Reservation) {
    r.subjects == q.subjects && r.charged == q.charged && r.bound == q.bound && r.begun == q.begun
  }

  function AdmittedBound(b: Budget, r: Reservation): nat {
    AdmittedPart(b, r.begun, Weight(b, r.bound))
  }

  predicate Leaves(l: Ledger, b: Budget, id: Id, r: Reservation) {
    id in l.reservations && Outstanding(l.reservations[id]) && !Outstanding(r) && Counts(b, r)
  }

  /** A reservation that stops being outstanding leaves the holds; its dispatch mark changes nothing. */
  lemma HoldsAfterState(l: Ledger, b: Budget, id: Id, r: Reservation)
    requires id in l.reservations && SameTerms(r, l.reservations[id])
    requires Outstanding(r) ==> Outstanding(l.reservations[id])
    ensures Sum(Holds(l.(reservations := l.reservations[id := r]), b)) ==
            Sum(Holds(l, b)) - (if Leaves(l, b, id, r) then Weight(b, r.bound) else 0)
  {
    var after := Holds(l.(reservations := l.reservations[id := r]), b);
    if Leaves(l, b, id, r) {
      Takes(Holds(l, b), id);
      assert after == Holds(l, b) - {id};
    } else {
      assert after == Holds(l, b);
    }
  }

  lemma AdmittedWithState(l: Ledger, b: Budget, id: Id, r: Reservation)
    requires id in l.reservations && SameTerms(r, l.reservations[id])
    requires Outstanding(r) ==> Outstanding(l.reservations[id])
    ensures AdmittedHolds(l.(reservations := l.reservations[id := r]), b) ==
            if Leaves(l, b, id, r) then AdmittedHolds(l, b) - {id} else AdmittedHolds(l, b)
  {
  }

  lemma AdmittedAfterState(l: Ledger, b: Budget, id: Id, r: Reservation)
    requires id in l.reservations && SameTerms(r, l.reservations[id])
    requires Outstanding(r) ==> Outstanding(l.reservations[id])
    ensures Sum(AdmittedHolds(l.(reservations := l.reservations[id := r]), b)) ==
            Sum(AdmittedHolds(l, b)) - (if Leaves(l, b, id, r) then AdmittedBound(b, r) else 0)
  {
    AdmittedWithState(l, b, id, r);
    if Leaves(l, b, id, r) { Takes(AdmittedHolds(l, b), id); }
  }

  lemma AdmittedAfterInsert(l: Ledger, b: Budget, id: Id, r: Reservation)
    requires id !in l.reservations && Outstanding(r)
    ensures var l' := l.(reservations := l.reservations[id := r]);
            Sum(AdmittedHolds(l', b)) == Sum(AdmittedHolds(l, b)) + (if Counts(b, r) then AdmittedBound(b, r) else 0)
  {
    var after := AdmittedHolds(l.(reservations := l.reservations[id := r]), b);
    if Counts(b, r) {
      Adds(AdmittedHolds(l, b), id, AdmittedBound(b, r));
      assert after == AdmittedHolds(l, b)[id := AdmittedBound(b, r) as int];
    } else {
      assert after == AdmittedHolds(l, b);
    }
  }

  lemma ChargesAfterInsert(l: Ledger, b: Budget, from: Time, id: Id, u: UsageRecord)
    requires id !in l.usage
    ensures Sum(Charges(l.(usage := l.usage[id := u]), b, from)) ==
            Sum(Charges(l, b, from)) + (if CountsUsage(b, u) && from <= u.createdAt then Weight(b, u.actual) else 0)
  {
    var after := Charges(l.(usage := l.usage[id := u]), b, from);
    if CountsUsage(b, u) && from <= u.createdAt {
      Adds(Charges(l, b, from), id, Weight(b, u.actual));
      assert after == Charges(l, b, from)[id := Weight(b, u.actual)];
    } else {
      assert after == Charges(l, b, from);
    }
  }

  function AdmittedCovered(b: Budget, u: UsageRecord): nat {
    AdmittedPart(b, u.begun, CoveredWeight(b, u))
  }

  lemma CoveredInserted(l: Ledger, b: Budget, from: Time, id: Id, u: UsageRecord)
    requires id !in l.usage
    ensures CoveredCharges(l.(usage := l.usage[id := u]), b, from) ==
            if CountsUsage(b, u) && from <= u.createdAt then CoveredCharges(l, b, from)[id := AdmittedCovered(b, u) as int]
            else CoveredCharges(l, b, from)
  {
  }

  lemma CoveredAfterInsert(l: Ledger, b: Budget, from: Time, id: Id, u: UsageRecord)
    requires id !in l.usage
    ensures Sum(CoveredCharges(l.(usage := l.usage[id := u]), b, from)) ==
            Sum(CoveredCharges(l, b, from)) + (if CountsUsage(b, u) && from <= u.createdAt then AdmittedCovered(b, u) else 0)
  {
    CoveredInserted(l, b, from, id, u);
    Adds(CoveredCharges(l, b, from), id, AdmittedCovered(b, u));
  }

  /** A settlement takes the hold out and puts the charge in, where the budget counts each. */
  lemma SettleMoves(l: Ledger, b: Budget, from: Time, s: Step)
    requires Enabled(l, s) && s.Settle?
    ensures var r := l.reservations[s.id];
            var l' := Next(l, s);
            var counted := (b.subject.kind == TENANT || r.charged == b.subject) && from <= s.at;
            && Sum(Holds(l', b)) == Sum(Holds(l, b)) - (if Counts(b, r) then Weight(b, r.bound) else 0)
            && Sum(Charges(l', b, from)) == Sum(Charges(l, b, from)) + (if counted then Weight(b, s.actual) else 0)
  {
    var r := l.reservations[s.id];
    var mid := WithState(l, s.id, Settled);
    HoldsAfterState(l, b, s.id, r.(state := Settled));
    ChargesAfterInsert(mid, b, from, s.id, UsageRecord(r.charged, s.actual, r.bound, r.begun, s.at));
    assert Charges(mid, b, from) == Charges(l, b, from);
    assert Holds(Next(l, s), b) == Holds(mid, b);
  }

  /** So it never adds more to what was admitted than it takes away. */
  lemma SettleKeepsCovered(l: Ledger, b: Budget, from: Time, s: Step)
    requires Enabled(l, s) && s.Settle?
    ensures CoveredLiability(Next(l, s), b, from) <= CoveredLiability(l, b, from)
  {
    var r := l.reservations[s.id];
    var mid := WithState(l, s.id, Settled);
    AdmittedAfterState(l, b, s.id, r.(state := Settled));
    CoveredAfterInsert(mid, b, from, s.id, UsageRecord(r.charged, s.actual, r.bound, r.begun, s.at));
    assert CoveredCharges(mid, b, from) == CoveredCharges(l, b, from);
    assert AdmittedHolds(Next(l, s), b) == AdmittedHolds(mid, b);
  }

  /** Steps that touch neither reservations nor usage leave every sum as it was. */
  lemma SumsUntouched(l: Ledger, l': Ledger, b: Budget, from: Time)
    requires l'.reservations == l.reservations && l'.usage == l.usage
    ensures Holds(l', b) == Holds(l, b) && Charges(l', b, from) == Charges(l, b, from)
    ensures AdmittedHolds(l', b) == AdmittedHolds(l, b) && CoveredCharges(l', b, from) == CoveredCharges(l, b, from)
  {
  }

  /** Only a committing Reserve can raise a budget's covered liability, and no step
    * lowers the settled usage that a transaction will still read. */
  lemma OthersOnlyLower(l: Ledger, s: Step, b: Budget, from: Time)
    requires Enabled(l, s) && !s.CommitReserve? && 0 <= l.clock
    ensures Covered(Next(l, s), b) <= Covered(l, b)
    ensures Sum(Charges(Next(l, s), b, from)) >= Sum(Charges(l, b, from))
  {
    var l' := Next(l, s);
    var now := LiabilityFrom(b, l.clock);
    match s
    case Tick(to) =>
      LiabilityFromAdvances(b, l.clock, to);
      SumsUntouched(l, l', b, LiabilityFrom(b, to));
      SumsUntouched(l, l', b, from);
      LaterWindowShrinks(l, b, now, LiabilityFrom(b, to));
    case Settle(id, actual, at) =>
      SettleKeepsCovered(l, b, now, s);
      SettleMoves(l, b, from, s);
    case MarkUnknown(id) => StateOnly(l, b, id, l.reservations[id].(state := Unknown), now, from);
    case MarkDispatched(id) => StateOnly(l, b, id, l.reservations[id].(dispatched := true), now, from);
    case Release(id) => StateOnly(l, b, id, l.reservations[id].(state := Released), now, from);
    case _ =>
      SumsUntouched(l, l', b, now);
      SumsUntouched(l, l', b, from);
  }

  lemma StateOnly(l: Ledger, b: Budget, id: Id, r: Reservation, now: Time, from: Time)
    requires id in l.reservations && SameTerms(r, l.reservations[id])
    requires Outstanding(r) ==> Outstanding(l.reservations[id])
    ensures var l' := l.(reservations := l.reservations[id := r]);
            && Sum(AdmittedHolds(l', b)) <= Sum(AdmittedHolds(l, b))
            && CoveredCharges(l', b, now) == CoveredCharges(l, b, now)
            && Charges(l', b, from) == Charges(l, b, from)
  {
    AdmittedAfterState(l, b, id, r);
  }

  // ---- The invariant of one budget ----

  /** What an unfinished Reserve has read of budget `k` is never less than what is covered now. */
  ghost predicate ReadingFits(l: Ledger, k: BudgetId, x: Txn)
    requires k in l.budgets && 0 <= l.clock
  {
    var b := l.budgets[k];
    && 0 <= x.now <= l.clock
    && Subject(TENANT, l.tenant) in x.subjects
    && x.readings.Keys == Locked(l, x.subjects, x.now)
    && (k in x.readings ==>
          match x.readings[k]
          case Unread => true
          case HeldRead(held) => Covered(l, b) <= held + Sum(Charges(l, b, LiabilityFrom(b, x.now)))
          case FullyRead(existing) => Covered(l, b) <= existing)
  }

  ghost predicate ReadingAt(l: Ledger, k: BudgetId, t: Id)
    requires k in l.budgets && 0 <= l.clock
  {
    t in l.txns ==> ReadingFits(l, k, l.txns[t])
  }

  ghost predicate LocksApart(l: Ledger, t: Id, u: Id) {
    t in l.txns && u in l.txns && t != u ==> l.txns[t].readings.Keys !! l.txns[u].readings.Keys
  }

  /** A tenant budget binds the tenant itself; reservations carry that name only. */
  predicate WellScoped(l: Ledger, b: Budget) {
    b.subject.kind == TENANT ==> b.subject.id == l.tenant
  }

  ghost predicate Inv(l: Ledger, k: BudgetId) {
    && k in l.budgets && 0 <= l.clock && WellScoped(l, l.budgets[k])
    && Covered(l, l.budgets[k]) <= l.budgets[k].limit
    && (forall t :: ReadingAt(l, k, t))
    && (forall t, u :: LocksApart(l, t, u))
  }

  lemma StepKeepsLocks(l: Ledger, s: Step, k: BudgetId, t: Id, u: Id)
    requires Inv(l, k) && Enabled(l, s)
    ensures LocksApart(Next(l, s), t, u)
  {
    assert LocksApart(l, t, u);
    if s.BeginReserve? && t in l.txns { assert l.txns[t].readings.Keys !! Locked(l, s.subjects, s.now); }
    if s.BeginReserve? && u in l.txns { assert l.txns[u].readings.Keys !! Locked(l, s.subjects, s.now); }
  }

  /** A step that is not a commit keeps what every transaction has read. */
  lemma StepKeepsReading(l: Ledger, s: Step, k: BudgetId, t: Id)
    requires Inv(l, k) && Enabled(l, s) && !s.CommitReserve?
    ensures ReadingAt(Next(l, s), k, t)
  {
    var b := l.budgets[k];
    var l' := Next(l, s);
    assert ReadingAt(l, k, t);
    if t !in l.txns { return; }
    var from := LiabilityFrom(b, l.txns[t].now);
    OthersOnlyLower(l, s, b, from);
    if s.ReadHeld? && s.t == t && s.b == k {
      LiabilityFromAdvances(b, l.txns[t].now, l.clock);
      LaterWindowShrinks(l, b, from, LiabilityFrom(b, l.clock));
      CoveredIsPart(l, b, from);
      SumsUntouched(l, l', b, from);
    }
    if s.ReadSettled? && s.t == t && s.b == k {
      SumsUntouched(l, l', b, from);
    }
  }

  /** A committing Reserve fits under the budget it was admitted to, and no other
    * transaction that will be checked against this budget can be under way. */
  lemma CommitKeepsInv(l: Ledger, s: Step, k: BudgetId)
    requires Inv(l, k) && Enabled(l, s) && s.CommitReserve?
    ensures Covered(Next(l, s), l.budgets[k]) <= l.budgets[k].limit
    ensures forall u :: ReadingAt(Next(l, s), k, u)
  {
    var b, x, l' := l.budgets[k], l.txns[s.t], Next(l, s);
    var now := LiabilityFrom(b, l.clock);
    var r := Reservation(x.subjects, x.charged, x.bound, x.now, Held, false);
    assert ReadingAt(l, k, s.t);
    AdmittedAfterInsert(l, b, s.id, r);
    assert AdmittedHolds(l', b) == AdmittedHolds(l.(reservations := l.reservations[s.id := r]), b);
    assert CoveredCharges(l', b, now) == CoveredCharges(l, b, now);
    if Counts(b, r) && Active(b, x.now) {
      assert b.subject in x.subjects && k in x.readings;
    }
    forall u ensures ReadingAt(l', k, u) {
      assert ReadingAt(l, k, u) && LocksApart(l, s.t, u);
      if u in l'.txns {
        var from := LiabilityFrom(b, l.txns[u].now);
        assert Charges(l', b, from) == Charges(l, b, from);
      }
    }
  }

  lemma StepKeepsInv(l: Ledger, s: Step, k: BudgetId)
    requires Inv(l, k) && Enabled(l, s)
    ensures Inv(Next(l, s), k)
  {
    forall t, u ensures LocksApart(Next(l, s), t, u) { StepKeepsLocks(l, s, k, t, u); }
    if s.CommitReserve? {
      CommitKeepsInv(l, s, k);
    } else {
      OthersOnlyLower(l, s, l.budgets[k], 0);
      forall t ensures ReadingAt(Next(l, s), k, t) { StepKeepsReading(l, s, k, t); }
    }
  }

  lemma {:induction false} RunKeepsInv(l: Ledger, ss: seq<Step>, k: BudgetId)
    requires Inv(l, k) && Runs(l, ss)
    ensures Inv(After(l, ss), k) && After(l, ss).budgets == l.budgets
    decreases |ss|
  {
    if ss != [] {
      StepKeepsInv(l, ss[0], k);
      RunKeepsInv(Next(l, ss[0]), ss[1..], k);
    }
  }

  // ---- Main results ----

  ghost predicate Fresh(l: Ledger) {
    0 <= l.clock && l.reservations == map[] && l.usage == map[] && l.txns == map[]
  }

  lemma FreshFits(l: Ledger, k: BudgetId)
    requires Fresh(l) && k in l.budgets && WellScoped(l, l.budgets[k])
    ensures Inv(l, k)
  {
    assert AdmittedHolds(l, l.budgets[k]) == map[];
    assert CoveredCharges(l, l.budgets[k], LiabilityFrom(l.budgets[k], l.clock)) == map[];
  }

  /** Over every run, with any number of Reserves, settlements, releases and unknown outcomes
    * interleaved, a budget never carries more in-window liability than its limit, plus the
    * total by which settled charges exceeded their own bounds, plus what reservations begun
    * while it was not active still hold or were charged within their bounds. */
  lemma LiabilityIsBounded(l: Ledger, ss: seq<Step>, k: BudgetId)
    requires Fresh(l) && k in l.budgets && WellScoped(l, l.budgets[k]) && Runs(l, ss)
    ensures var b, t := l.budgets[k], After(l, ss);
            0 <= t.clock &&
            var from := LiabilityFrom(b, t.clock);
            Liability(t, b, from) <= b.limit + Sum(Overruns(t, b, from)) + Sum(LateHolds(t, b)) + Sum(LateCharges(t, b, from))
  {
    FreshFits(l, k);
    RunKeepsInv(l, ss, k);
    var b, t := l.budgets[k], After(l, ss);
    var from := LiabilityFrom(b, t.clock);
    var covered := map i | i in Charges(t, b, from) :: CoveredWeight(b, t.usage[i]) as int;
    Splits(Charges(t, b, from), covered, Overruns(t, b, from));
    Splits(covered, CoveredCharges(t, b, from), LateCharges(t, b, from));
    Splits(Holds(t, b), AdmittedHolds(t, b), LateHolds(t, b));
  }

  /** Within the limit, up to what settled charges exceeded their own bounds by. */
  ghost predicate WithinLimit(l: Ledger, b: Budget) {
    0 <= l.clock &&
    var from := LiabilityFrom(b, l.clock);
    Liability(l, b, from) <= b.limit + Sum(Overruns(l, b, from))
  }

  /** Every Reserve so far began while the budget was active. */
  ghost predicate NoneLate(l: Ledger, b: Budget) {
    && (forall t :: t in l.txns ==> Active(b, l.txns[t].now))
    && (forall i :: i in l.reservations ==> Active(b, l.reservations[i].begun))
    && (forall i :: i in l.usage ==> Active(b, l.usage[i].begun))
  }

  lemma {:induction false} InForceMeansNoneLate(l: Ledger, ss: seq<Step>, b: Budget)
    requires NoneLate(l, b) && Runs(l, ss) && InForce(b, ss)
    ensures NoneLate(After(l, ss), b)
    decreases |ss|
  {
    if ss != [] {
      assert forall i :: 0 <= i < |ss[1..]| ==> ss[1..][i] == ss[i + 1];
      InForceMeansNoneLate(Next(l, ss[0]), ss[1..], b);
    }
  }

  /** So a budget in force throughout is never over-admitted. */
  lemma BudgetIsNeverOverAdmitted(l: Ledger, ss: seq<Step>, k: BudgetId)
    requires Fresh(l) && k in l.budgets && WellScoped(l, l.budgets[k])
    requires Runs(l, ss) && InForce(l.budgets[k], ss)
    ensures WithinLimit(After(l, ss), l.budgets[k])
  {
    LiabilityIsBounded(l, ss, k);
    var b, t := l.budgets[k], After(l, ss);
    InForceMeansNoneLate(l, ss, b);
    ZerosAddNothing(LateHolds(t, b), map[]);
    ZerosAddNothing(LateCharges(t, b, LiabilityFrom(b, t.clock)), map[]);
  }

  // ---- Budgets that come into force late ----

  /** In every run that ends while the budget is active, it stays within its limit. */
  ghost predicate AlwaysWithinLimit(l: Ledger, b: Budget) {
    forall ss :: Runs(l, ss) && Active(b, After(l, ss).clock) ==> WithinLimit(After(l, ss), b)
  }

  /** A budget that has not ended yet keeps every run within its limit exactly when no
    * Reserve can begin before it comes into force. */
  lemma AlwaysWithinLimitIff(l: Ledger, k: BudgetId)
    requires Fresh(l) && k in l.budgets && WellScoped(l, l.budgets[k])
    requires var b := l.budgets[k]; b.endsAt.Some? ==> b.startsAt < b.endsAt.value && l.clock < b.endsAt.value
    // No other budget that would refuse first.
    requires Locked(l, {Subject(TENANT, l.tenant), l.budgets[k].subject}, 0) <= {k}
    ensures AlwaysWithinLimit(l, l.budgets[k]) <==> l.budgets[k].startsAt <= 0
  {
    var b := l.budgets[k];
    if b.startsAt <= 0 {
      forall ss | Runs(l, ss) && Active(b, After(l, ss).clock) ensures WithinLimit(After(l, ss), b) {
        EndsInForce(l, ss, b);
        BudgetIsNeverOverAdmitted(l, ss, k);
      }
    } else {
      var ss := HoldBeforeTheStart(l, k);
    }
  }

  /** The clock only advances, so a budget that started at 0 and is active at the end was active all along. */
  lemma {:induction false} EndsInForce(l: Ledger, ss: seq<Step>, b: Budget)
    requires 0 <= l.clock && b.startsAt <= 0 && Runs(l, ss) && Active(b, After(l, ss).clock)
    ensures InForce(b, ss) && Active(b, l.clock)
    decreases |ss|
  {
    if ss != [] {
      EndsInForce(Next(l, ss[0]), ss[1..], b);
      forall i | 0 <= i < |ss| && ss[i].BeginReserve? ensures Active(b, ss[i].now) {
        if i > 0 { assert ss[i] == ss[1..][i - 1]; }
      }
    }
  }

  /** The budget is over its limit by a hold of its own alone. */
  lemma HeldOverLimit(t: Ledger, b: Budget, id: Id)
    requires 0 <= t.clock && t.usage == map[] && t.reservations.Keys == {id}
    requires var r := t.reservations[id]; Outstanding(r) && Counts(b, r) && Weight(b, r.bound) > b.limit
    ensures !WithinLimit(t, b)
  {
    var from, held := LiabilityFrom(b, t.clock), Weight(b, t.reservations[id].bound);
    assert Holds(t, b) == map[][id := held as int];
    Adds(map[], id, held);
    assert Charges(t, b, from) == map[] && Overruns(t, b, from) == map[];
  }

  /** Begin, commit and wait are a run if nothing is locked. */
  lemma BeginCommitTick(l: Ledger, begin: Step, end: Time) returns (ss: seq<Step>)
    requires Fresh(l) && begin.BeginReserve? && Enabled(l, begin) && Locked(l, begin.subjects, begin.now) == {} && l.clock <= end
    ensures Runs(l, ss)
    ensures After(l, ss) == l.(clock := end,
              reservations := map["res" := Reservation(begin.subjects, begin.charged, begin.bound, begin.now, Held, false)])
  {
    var commit, tick := CommitReserve(begin.t, "res"), Tick(end);
    var l1 := Next(l, begin);
    assert l1.txns == map[begin.t := Txn(begin.now, begin.subjects, begin.charged, begin.bound, map[])];
    var l2 := Next(l1, commit);
    assert l2.txns == map[];
    Prepend(l2, tick, []);
    Prepend(l1, commit, [tick] + []);
    Prepend(l, begin, [commit] + ([tick] + []));
    ss := [begin] + ([commit] + ([tick] + []));
  }

  /** One Reserve that begins before the start may hold more than the limit. */
  lemma HoldBeforeTheStart(l: Ledger, k: BudgetId) returns (ss: seq<Step>)
    requires Fresh(l) && k in l.budgets && WellScoped(l, l.budgets[k])
    requires var b := l.budgets[k]; b.endsAt.Some? ==> b.startsAt < b.endsAt.value && l.clock < b.endsAt.value
    requires l.budgets[k].startsAt > 0 && Locked(l, {Subject(TENANT, l.tenant), l.budgets[k].subject}, 0) <= {k}
    ensures Runs(l, ss) && Active(l.budgets[k], After(l, ss).clock) && !WithinLimit(After(l, ss), l.budgets[k])
  {
    var b, tenant := l.budgets[k], Subject(TENANT, l.tenant);
    var over := b.limit + 1;
    var bound := Cost(over, if b.kind.AmountBudget? then b.kind.currency else "", over);
    assert Locked(l, {tenant, b.subject}, 0) == {};
    ss := BeginCommitTick(l, BeginReserve("x", 0, {tenant, b.subject}, tenant, bound), if b.startsAt < l.clock then l.clock else b.startsAt);
    HeldOverLimit(After(l, ss), b, "res");
  }

  lemma Prepend(l: Ledger, s: Step, ss: seq<Step>)
    requires Enabled(l, s) && Runs(Next(l, s), ss)
    ensures Runs(l, [s] + ss) && After(l, [s] + ss) == After(Next(l, s), ss)
  {
    assert ([s] + ss)[1..] == ss;
  }

  // ---- Every reservation ends at most once ----

  /** Evidence exists for exactly the settled reservations. */
  ghost predicate EvidenceAt(l: Ledger, id: Id) {
    id in l.usage <==> id in l.reservations && l.reservations[id].state == Settled
  }

  lemma {:induction false} SettledExactlyWithEvidence(l: Ledger, ss: seq<Step>, id: Id)
    requires EvidenceAt(l, id) && Runs(l, ss)
    ensures EvidenceAt(After(l, ss), id)
    decreases |ss|
  {
    if ss != [] { SettledExactlyWithEvidence(Next(l, ss[0]), ss[1..], id); }
  }

  /** Once settled, released or unknown, a reservation never changes state again, its
    * evidence is never rewritten, and its bound and subjects never change at all; a
    * hold that was dispatched is never released. */
  lemma {:induction false} ReservationEndsOnce(l: Ledger, ss: seq<Step>, id: Id)
    requires Runs(l, ss) && id in l.reservations
    ensures var r, t := l.reservations[id], After(l, ss);
            && id in t.reservations
            && t.reservations[id].bound == r.bound && t.reservations[id].subjects == r.subjects
            && (r.state != Held ==> t.reservations[id].state == r.state)
            && (r.dispatched ==> t.reservations[id].dispatched)
            && (r.state == Held && r.dispatched ==> t.reservations[id].state != Released)
            && (id in l.usage ==> id in t.usage && t.usage[id] == l.usage[id])
    decreases |ss|
  {
    if ss != [] { ReservationEndsOnce(Next(l, ss[0]), ss[1..], id); }
  }

  /** Inside the window a settlement replaces the bound by the actual charge exactly for
    * the tenant and for the charged subject (or when there is nothing to charge); for any
    * other subject that held the reservation, the charge is not seen at all. */
  lemma SettlementIsSeenIff(l: Ledger, b: Budget, from: Time, s: Step)
    requires Enabled(l, s) && s.Settle? && from <= s.at
    requires Counts(b, l.reservations[s.id])
    ensures var r := l.reservations[s.id];
            Liability(Next(l, s), b, from) == Liability(l, b, from) - Weight(b, r.bound) + Weight(b, s.actual) <==>
            (b.subject.kind == TENANT || r.charged == b.subject || Weight(b, s.actual) == 0)
  {
    SettleMoves(l, b, from, s);
  }
}
