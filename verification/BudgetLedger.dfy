/** Reservations, settlement and budgets as a state machine over transactions.
  *
  * Many Reserve transactions run at the same time as settlements and releases.
  * A Reserve locks its budgets, reads outstanding holds and then settled usage
  * in two separate statements, and only then inserts and commits; other
  * transactions commit between any two of these steps.
  */
module BudgetLedger {
  import opened MapSums
  import opened Calendar
  import opened Results

  type Id = string
  type BudgetId = string

  datatype Subject = Subject(kind: string, id: string)

  const TENANT := "tenant"

  datatype BudgetKind = AmountBudget(currency: string) | TokenBudget

  datatype Budget = Budget(
    subject: Subject,
    kind: BudgetKind,
    period: Period,
    limit: nat,
    startsAt: Time,
    endsAt: Option<Time>)

  /** What a reservation holds, or what a settlement charged: an amount in one currency, and units. */
  datatype Cost = Cost(micros: nat, currency: string, units: nat)

  datatype ResState = Held | Settled | Unknown | Released

  /** A reservation with one row per subject; the row of the charged subject is the canonical
    * one. `begun` is the `now` of its Reserve, which every row stores as its creation time. */
  datatype Reservation = Reservation(
    subjects: set<Subject>,
    charged: Subject,
    bound: Cost,
    begun: Time,
    state: ResState,
    dispatched: bool)

  /** Settlement evidence; `bound` and `begun` repeat the reservation's own for the accounts below. */
  datatype UsageRecord = UsageRecord(subject: Subject, actual: Cost, bound: Cost, begun: Time, createdAt: Time)

  /** How far a Reserve transaction has come with one of the budgets it locked. */
  datatype Reading = Unread | HeldRead(held: int) | FullyRead(existing: int)

  /** A Reserve transaction: `now` was read from the clock before the transaction began. */
  datatype Txn = Txn(now: Time, subjects: set<Subject>, charged: Subject, bound: Cost, readings: map<BudgetId, Reading>)

  datatype Ledger = Ledger(
    clock: Time,
    tenant: string,
    budgets: map<BudgetId, Budget>,
    reservations: map<Id, Reservation>,
    usage: map<Id, UsageRecord>,
    txns: map<Id, Txn>)

  // ---- Attribution ----

  /** Whether the rows of a reservation count for a budget: tenant budgets count
    * canonical rows, any other budget the rows of exactly its own subject. */
  predicate Counts(b: Budget, r: Reservation) {
    if b.subject.kind == TENANT then r.charged in r.subjects else b.subject in r.subjects
  }

  predicate CountsUsage(b: Budget, u: UsageRecord) {
    b.subject.kind == TENANT || u.subject == b.subject
  }

  /** What a cost weighs under a budget; an amount budget skips other currencies. */
  function Weight(b: Budget, c: Cost): nat {
    match b.kind
    case AmountBudget(currency) => if c.currency == currency then c.micros else 0
    case TokenBudget => c.units
  }

  predicate Outstanding(r: Reservation) {
    r.state == Held || r.state == Unknown
  }

  /** The start of the budget's window, or the budget's own start if that is later. */
  function LiabilityFrom(b: Budget, now: Time): Time
    requires 0 <= now
  {
    var start := PeriodStart(b.period, now);
    if b.startsAt > start then b.startsAt else start
  }

  function Active(b: Budget, now: Time): bool {
    b.startsAt <= now && (b.endsAt.None? || now < b.endsAt.value)
  }

  ghost function Holds(l: Ledger, b: Budget): map<Id, int> {
    map i | i in l.reservations && Outstanding(l.reservations[i]) && Counts(b, l.reservations[i])
      :: Weight(b, l.reservations[i].bound)
  }

  ghost function Charges(l: Ledger, b: Budget, from: Time): map<Id, int> {
    map i | i in l.usage && CountsUsage(b, l.usage[i]) && from <= l.usage[i].createdAt :: Weight(b, l.usage[i].actual)
  }

  /** What a cost counts towards the limit: a Reserve was only checked against the budgets
    * that were active when it began. */
  function AdmittedPart(b: Budget, begun: Time, weight: nat): nat {
    if Active(b, begun) then weight else 0
  }

  ghost function AdmittedHolds(l: Ledger, b: Budget): map<Id, int> {
    map i | i in l.reservations && Outstanding(l.reservations[i]) && Counts(b, l.reservations[i])
      :: AdmittedPart(b, l.reservations[i].begun, Weight(b, l.reservations[i].bound))
  }

  function CoveredWeight(b: Budget, u: UsageRecord): nat {
    if Weight(b, u.actual) < Weight(b, u.bound) then Weight(b, u.actual) else Weight(b, u.bound)
  }

  /** The part of each admitted charge that its own bound had covered. */
  ghost function CoveredCharges(l: Ledger, b: Budget, from: Time): map<Id, int> {
    map i | i in l.usage && CountsUsage(b, l.usage[i]) && from <= l.usage[i].createdAt
      :: AdmittedPart(b, l.usage[i].begun, CoveredWeight(b, l.usage[i]))
  }

  /** By how much each charge exceeded its own bound. */
  ghost function Overruns(l: Ledger, b: Budget, from: Time): map<Id, int> {
    map i | i in l.usage && CountsUsage(b, l.usage[i]) && from <= l.usage[i].createdAt
      :: Weight(b, l.usage[i].actual) - CoveredWeight(b, l.usage[i])
  }

  /** What reservations begun while the budget was not active still hold. */
  ghost function LateHolds(l: Ledger, b: Budget): map<Id, int> {
    map i | i in l.reservations && Outstanding(l.reservations[i]) && Counts(b, l.reservations[i])
      :: Weight(b, l.reservations[i].bound) - AdmittedPart(b, l.reservations[i].begun, Weight(b, l.reservations[i].bound))
  }

  /** What settlements of such reservations charged within their bounds. */
  ghost function LateCharges(l: Ledger, b: Budget, from: Time): map<Id, int> {
    map i | i in l.usage && CountsUsage(b, l.usage[i]) && from <= l.usage[i].createdAt
      :: CoveredWeight(b, l.usage[i]) - AdmittedPart(b, l.usage[i].begun, CoveredWeight(b, l.usage[i]))
  }

  /** What `Liabilities` reports: outstanding holds whatever the window, and settled usage inside it. */
  ghost function Liability(l: Ledger, b: Budget, from: Time): int {
    Sum(Holds(l, b)) + Sum(Charges(l, b, from))
  }

  /** The part of the liability that was admitted to the budget and stayed within its own bounds. */
  ghost function CoveredLiability(l: Ledger, b: Budget, from: Time): int {
    Sum(AdmittedHolds(l, b)) + Sum(CoveredCharges(l, b, from))
  }

  // ---- Steps ----

  datatype Step =
    | Tick(to: Time)
    | BeginReserve(t: Id, now: Time, subjects: set<Subject>, charged: Subject, bound: Cost)
    | ReadHeld(t: Id, b: BudgetId)
    | ReadSettled(t: Id, b: BudgetId)
    | CommitReserve(t: Id, id: Id)
    | Rollback(t: Id)
    | Settle(id: Id, actual: Cost, at: Time)
    | MarkUnknown(id: Id)
    | MarkDispatched(id: Id)
    | Release(id: Id)

  /** The budgets a Reserve locks: active at its `now`, and bound to one of its subjects. */
  function Locked(l: Ledger, subjects: set<Subject>, now: Time): set<BudgetId> {
    set b | b in l.budgets && l.budgets[b].subject in subjects && Active(l.budgets[b], now)
  }

  /** admit: the currency must be the budget's, and the liability read plus the bound must fit. */
  predicate Admits(b: Budget, existing: int, bound: Cost) {
    (b.kind.AmountBudget? ==> bound.currency == b.kind.currency) && existing + Weight(b, bound) <= b.limit
  }

  predicate Admitted(l: Ledger, x: Txn) {
    forall b :: b in x.readings ==> b in l.budgets && x.readings[b].FullyRead? && Admits(l.budgets[b], x.readings[b].existing, x.bound)
  }

  predicate Enabled(l: Ledger, s: Step) {
    match s
    case Tick(to) => l.clock <= to
    case BeginReserve(t, now, subjects, charged, _) =>
      && t !in l.txns && 0 <= now <= l.clock
      && Subject(TENANT, l.tenant) in subjects
      // Row locks: no other transaction holds one of these budgets.
      && (forall u :: u in l.txns ==> l.txns[u].readings.Keys !! Locked(l, subjects, now))
    case ReadHeld(t, b) => t in l.txns && b in l.txns[t].readings && l.txns[t].readings[b] == Unread && b in l.budgets
    case ReadSettled(t, b) => t in l.txns && b in l.txns[t].readings && l.txns[t].readings[b].HeldRead? && b in l.budgets && 0 <= l.txns[t].now
    case CommitReserve(t, id) => t in l.txns && id !in l.reservations && id !in l.usage && Admitted(l, l.txns[t])
    case Rollback(t) => t in l.txns
    case Settle(id, actual, at) =>
      && id in l.reservations && l.reservations[id].state == Held && at <= l.clock
      // Settle works on the canonical row, and settles under the snapshot's own currency.
      && l.reservations[id].charged in l.reservations[id].subjects
      && actual.currency == l.reservations[id].bound.currency
      && id !in l.usage
    case MarkUnknown(id) => id in l.reservations && l.reservations[id].state == Held
    case MarkDispatched(id) => id in l.reservations && l.reservations[id].charged in l.reservations[id].subjects
    case Release(id) =>
      && id in l.reservations && l.reservations[id].state == Held && !l.reservations[id].dispatched
      && l.reservations[id].charged in l.reservations[id].subjects
  }

  function WithReading(l: Ledger, t: Id, b: BudgetId, r: Reading): Ledger
    requires t in l.txns
  {
    l.(txns := l.txns[t := l.txns[t].(readings := l.txns[t].readings[b := r])])
  }

  function WithState(l: Ledger, id: Id, state: ResState): Ledger
    requires id in l.reservations
  {
    l.(reservations := l.reservations[id := l.reservations[id].(state := state)])
  }

  ghost function Next(l: Ledger, s: Step): Ledger
    requires Enabled(l, s)
  {
    match s
    case Tick(to) => l.(clock := to)
    case BeginReserve(t, now, subjects, charged, bound) =>
      l.(txns := l.txns[t := Txn(now, subjects, charged, bound, map b | b in Locked(l, subjects, now) :: Unread)])
    case ReadHeld(t, b) => WithReading(l, t, b, HeldRead(Sum(Holds(l, l.budgets[b]))))
    case ReadSettled(t, b) =>
      var from := LiabilityFrom(l.budgets[b], l.txns[t].now);
      WithReading(l, t, b, FullyRead(l.txns[t].readings[b].held + Sum(Charges(l, l.budgets[b], from))))
    case CommitReserve(t, id) =>
      var x := l.txns[t];
      l.(reservations := l.reservations[id := Reservation(x.subjects, x.charged, x.bound, x.now, Held, false)], txns := l.txns - {t})
    case Rollback(t) => l.(txns := l.txns - {t})
    case Settle(id, actual, at) =>
      var r := l.reservations[id];
      WithState(l, id, Settled).(usage := l.usage[id := UsageRecord(r.charged, actual, r.bound, r.begun, at)])
    case MarkUnknown(id) => WithState(l, id, Unknown)
    case MarkDispatched(id) => l.(reservations := l.reservations[id := l.reservations[id].(dispatched := true)])
    case Release(id) => WithState(l, id, Released)
  }

  ghost predicate Runs(l: Ledger, ss: seq<Step>)
    decreases |ss|
  {
    ss == [] || (Enabled(l, ss[0]) && Runs(Next(l, ss[0]), ss[1..]))
  }

  ghost function After(l: Ledger, ss: seq<Step>): Ledger
    requires Runs(l, ss)
    decreases |ss|
  {
    if ss == [] then l else After(Next(l, ss[0]), ss[1..])
  }

  /** Budget `b` stays in force: it is active whenever a Reserve begins. */
  predicate InForce(b: Budget, ss: seq<Step>) {
    forall i :: 0 <= i < |ss| && ss[i].BeginReserve? ==> Active(b, ss[i].now)
  }
}
