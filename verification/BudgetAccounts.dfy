/** What each step of the ledger does to every budget's account and to every reservation. */
module BudgetAccounts {
  import opened Calendar
  import opened MapSums
  import opened Results
  import opened BudgetLedger
  import opened BudgetSafety
  import CivilDate

  // ---- Which charges count ----

  /** Settled usage counts exactly from the later of two instants on: where the period's
    * window began, and where the budget itself did. */
  lemma ChargeCountsIff(l: Ledger, b: Budget, now: Time, i: Id)
    requires 0 <= now && i in l.usage
    ensures i in Charges(l, b, LiabilityFrom(b, now)) <==>
              && (b.subject.kind == TENANT || l.usage[i].subject == b.subject)
              && PeriodStart(b.period, now) <= l.usage[i].createdAt && b.startsAt <= l.usage[i].createdAt
  {
  }

  /** Under a monthly budget in force, that is the usage of this year and month. */
  lemma MonthlyChargeCountsIff(l: Ledger, b: Budget, now: Time, i: Id)
    requires b.period == Monthly && i in l.usage && 0 <= l.usage[i].createdAt <= now && b.startsAt <= l.usage[i].createdAt
    ensures var today, spent := CivilDate.Today(now), CivilDate.Today(l.usage[i].createdAt);
            i in Charges(l, b, LiabilityFrom(b, now)) <==>
              (b.subject.kind == TENANT || l.usage[i].subject == b.subject) && spent.year == today.year && spent.month == today.month
  {
    CivilDate.InMonthIff(l.usage[i].createdAt, now);
    ChargeCountsIff(l, b, now, i);
  }

  // ---- What a step does to a budget's account ----

  /** What an insertion adds to the holds. */
  lemma HoldsAfterInsert(l: Ledger, b: Budget, id: Id, r: Reservation)
    requires id !in l.reservations && Outstanding(r)
    ensures Sum(Holds(l.(reservations := l.reservations[id := r]), b)) ==
            Sum(Holds(l, b)) + (if Counts(b, r) then Weight(b, r.bound) else 0)
  {
    var after := Holds(l.(reservations := l.reservations[id := r]), b);
    if Counts(b, r) {
      Adds(Holds(l, b), id, Weight(b, r.bound));
      assert after == Holds(l, b)[id := Weight(b, r.bound)];
    } else {
      assert after == Holds(l, b);
    }
  }

  /** What a budget is charged when a step is taken: a committed Reserve adds its bound, a
    * release takes the bound out, a settlement puts the charge in its place, and an unknown
    * outcome, a dispatch mark, a rollback and any reading leave the account as it is. */
  ghost function Movement(l: Ledger, b: Budget, from: Time, s: Step): int
    requires Enabled(l, s)
  {
    match s
    case CommitReserve(t, _) =>
      var x := l.txns[t];
      var counts := if b.subject.kind == TENANT then x.charged in x.subjects else b.subject in x.subjects;
      if counts then Weight(b, x.bound) else 0
    case Release(id) => if Counts(b, l.reservations[id]) then 0 - Weight(b, l.reservations[id].bound) else 0
    case Settle(id, actual, at) =>
      var r := l.reservations[id];
      (if (b.subject.kind == TENANT || r.charged == b.subject) && from <= at then Weight(b, actual) else 0)
      - (if Counts(b, r) then Weight(b, r.bound) else 0)
    case _ => 0
  }

  lemma AccountMoves(l: Ledger, b: Budget, from: Time, s: Step)
    requires Enabled(l, s)
    ensures Liability(Next(l, s), b, from) == Liability(l, b, from) + Movement(l, b, from, s)
  {
    var l' := Next(l, s);
    match s
    case CommitReserve(t, id) =>
      var x := l.txns[t];
      var r := Reservation(x.subjects, x.charged, x.bound, x.now, Held, false);
      HoldsAfterInsert(l, b, id, r);
      assert Holds(l', b) == Holds(l.(reservations := l.reservations[id := r]), b);
      assert Charges(l', b, from) == Charges(l, b, from);
    case Settle(id, actual, at) => SettleMoves(l, b, from, s);
    case MarkUnknown(id) => SameHolds(l, b, from, id, l.reservations[id].(state := Unknown));
    case MarkDispatched(id) => SameHolds(l, b, from, id, l.reservations[id].(dispatched := true));
    case Release(id) => SameHolds(l, b, from, id, l.reservations[id].(state := Released));
    case _ => SumsUntouched(l, l', b, from);
  }

  lemma SameHolds(l: Ledger, b: Budget, from: Time, id: Id, r: Reservation)
    requires id in l.reservations && SameTerms(r, l.reservations[id]) && (Outstanding(r) ==> Outstanding(l.reservations[id]))
    ensures var l' := l.(reservations := l.reservations[id := r]);
            && Charges(l', b, from) == Charges(l, b, from)
            && Sum(Holds(l', b)) == Sum(Holds(l, b)) - (if Leaves(l, b, id, r) then Weight(b, r.bound) else 0)
  {
    HoldsAfterState(l, b, id, r);
  }

  /** Over a whole run the account is the sum of its movements: nothing else is ever charged
    * or forgotten, for any budget and any window. */
  ghost function Movements(l: Ledger, b: Budget, from: Time, ss: seq<Step>): int
    requires Runs(l, ss)
    decreases |ss|
  {
    if ss == [] then 0 else Movement(l, b, from, ss[0]) + Movements(Next(l, ss[0]), b, from, ss[1..])
  }

  lemma {:induction false} AccountsBalance(l: Ledger, b: Budget, from: Time, ss: seq<Step>)
    requires Runs(l, ss)
    ensures Liability(After(l, ss), b, from) == Liability(l, b, from) + Movements(l, b, from, ss)
    decreases |ss|
  {
    if ss != [] {
      AccountMoves(l, b, from, ss[0]);
      AccountsBalance(Next(l, ss[0]), b, from, ss[1..]);
    }
  }

  // ---- What a step does to a reservation ----

  /** A Reserve locks exactly the budgets in force at its `now` whose subject it is for. */
  lemma BeginLocks(l: Ledger, s: Step, k: BudgetId)
    requires Enabled(l, s) && s.BeginReserve?
    ensures k in Next(l, s).txns[s.t].readings <==>
              && k in l.budgets && l.budgets[k].subject in s.subjects && l.budgets[k].startsAt <= s.now
              && (l.budgets[k].endsAt.Some? ==> s.now < l.budgets[k].endsAt.value)
    ensures k in Next(l, s).txns[s.t].readings ==> Next(l, s).txns[s.t].readings[k] == Unread
  {
  }

  /** How a reservation's state moves: new ones are held, and only a held one is settled,
    * left unknown, or released, the last only before its dispatch; each such step takes effect. */
  lemma ReservationMoves(l: Ledger, s: Step, i: Id)
    requires Enabled(l, s)
    ensures var l' := Next(l, s);
            && (i in l.reservations ==> i in l'.reservations && SameTerms(l'.reservations[i], l.reservations[i]))
            && (i in l'.reservations && i !in l.reservations ==>
                  s.CommitReserve? && s.id == i && l'.reservations[i].state == Held && !l'.reservations[i].dispatched)
            && (i in l.reservations ==>
                  var r, r' := l.reservations[i], l'.reservations[i];
                  && (r'.state == Settled <==> r.state == Settled || (s.Settle? && s.id == i))
                  && (r'.state == Unknown <==> r.state == Unknown || (s.MarkUnknown? && s.id == i))
                  && (r'.state == Released <==> r.state == Released || (s.Release? && s.id == i))
                  && (r'.dispatched <==> r.dispatched || (s.MarkDispatched? && s.id == i)))
  {
  }

  /** A committed Reserve stores what it was asked for, for exactly its subjects. */
  lemma CommitStores(l: Ledger, s: Step)
    requires Enabled(l, s) && s.CommitReserve?
    ensures var x, r := l.txns[s.t], Next(l, s).reservations[s.id];
            r.subjects == x.subjects && r.charged == x.charged && r.bound == x.bound && r.begun == x.now
    ensures forall i :: i in l.reservations ==> Next(l, s).reservations[i] == l.reservations[i]
  {
  }

  /** A Reserve that commits or rolls back gives up its locks and no other one's; a rollback leaves
    * nothing else behind. */
  lemma TransactionEnds(l: Ledger, s: Step, u: Id)
    requires Enabled(l, s) && (s.CommitReserve? || s.Rollback?)
    ensures u in Next(l, s).txns <==> u in l.txns && u != s.t
    ensures u in Next(l, s).txns ==> Next(l, s).txns[u] == l.txns[u]
    ensures s.Rollback? ==> Next(l, s).reservations == l.reservations && Next(l, s).usage == l.usage
  {
  }

  /** A settlement leaves evidence for the charged subject, at the time and cost given. */
  lemma SettleRecords(l: Ledger, s: Step)
    requires Enabled(l, s) && s.Settle?
    ensures s.id in Next(l, s).usage
    ensures var u := Next(l, s).usage;
            u[s.id].subject == l.reservations[s.id].charged && u[s.id].actual == s.actual && u[s.id].createdAt == s.at
    ensures forall i :: i in l.usage ==> i in Next(l, s).usage && Next(l, s).usage[i] == l.usage[i]
  {
  }

  /** What may be done to a reservation with a canonical row: while held, it can be settled once in
    * its own currency, left unknown, and released if it was not dispatched; nothing more after. */
  lemma OpenEndings(l: Ledger, ss: seq<Step>, i: Id, actual: Cost, at: Time)
    requires Fresh(l) && Runs(l, ss) && i in After(l, ss).reservations
    requires After(l, ss).reservations[i].charged in After(l, ss).reservations[i].subjects
    ensures var t := After(l, ss); var r := t.reservations[i];
            && (Enabled(t, Settle(i, actual, at)) <==> r.state == Held && actual.currency == r.bound.currency && at <= t.clock)
            && (Enabled(t, MarkUnknown(i)) <==> r.state == Held)
            && (Enabled(t, Release(i)) <==> r.state == Held && !r.dispatched)
            && Enabled(t, MarkDispatched(i))
  {
    SettledExactlyWithEvidence(l, ss, i);
  }

  /** A Reserve commits exactly when every budget it locked was read in full, is priced in the
    * reservation's currency if it is an amount budget, and has room for the bound on top of
    * what was read. */
  lemma CommitsIff(l: Ledger, t: Id, id: Id)
    requires t in l.txns && id !in l.reservations && id !in l.usage
    requires l.txns[t].readings.Keys <= l.budgets.Keys
    ensures var x := l.txns[t];
            Enabled(l, CommitReserve(t, id)) <==>
              forall k :: k in x.readings ==>
                && x.readings[k].FullyRead?
                && (l.budgets[k].kind.AmountBudget? ==> l.budgets[k].kind.currency == x.bound.currency)
                && x.readings[k].existing + Weight(l.budgets[k], x.bound) <= l.budgets[k].limit
  {
    var x := l.txns[t];
    assert forall k :: k in x.readings ==> k in x.readings.Keys;
    if forall k :: k in x.readings ==>
         && x.readings[k].FullyRead?
         && (l.budgets[k].kind.AmountBudget? ==> l.budgets[k].kind.currency == x.bound.currency)
         && x.readings[k].existing + Weight(l.budgets[k], x.bound) <= l.budgets[k].limit
    {
      forall k | k in x.readings ensures k in l.budgets && x.readings[k].FullyRead? && Admits(l.budgets[k], x.readings[k].existing, x.bound) {}
    }
  }

  /** What it reads of a budget: first everything held for it, then everything charged to it since
    * its window, at its own `now`, began. */
  lemma ReadingMeans(l: Ledger, s: Step)
    requires Enabled(l, s) && (s.ReadHeld? || s.ReadSettled?)
    ensures s.b in l.budgets && s.t in l.txns && s.b in l.txns[s.t].readings
    ensures s.ReadHeld? ==>
              Next(l, s).txns[s.t].readings == l.txns[s.t].readings[s.b := HeldRead(Sum(Holds(l, l.budgets[s.b])))]
    ensures s.ReadSettled? ==>
              var b, x := l.budgets[s.b], l.txns[s.t];
              && x.readings[s.b].HeldRead? && 0 <= x.now
              && Next(l, s).txns[s.t].readings ==
                 x.readings[s.b := FullyRead(x.readings[s.b].held + Sum(Charges(l, b, LiabilityFrom(b, x.now))))]
  {
  }
}
