/** The steps of Reserve that compute: the subjects it counts for, the rates it
  * snapshots, and the checked comparison with one budget. */
module BillingAdmission {
  import opened Calendar
  import opened FixedWidth
  import opened MapSums
  import opened Results
  import opened BudgetLedger
  import opened Charge

  // ---- Checked addition ----

  const MIN_INT64 := -0x8000_0000_0000_0000

  type int64 = x: int | -0x8000_0000_0000_0000 <= x <= 0x7FFF_FFFF_FFFF_FFFF

  /** The wrapped sum of two int64 and whether it wrapped, judged by the signs. */
  function CheckedAdd(a: int64, b: int64): (r: (int64, bool))
    ensures r.1 <==> !(MIN_INT64 <= a + b <= MAX_INT64)
    ensures !r.1 ==> r.0 == a + b
  {
    var sum := Signed(Add64(Unsigned(a), Unsigned(b), 0).0);
    (sum, (a >= 0 && b >= 0 && sum < 0) || (a < 0 && b < 0 && sum >= 0))
  }

  // ---- One budget ----

  /** One outstanding or settled charge as the liability query reports it. */
  datatype LiabilityRow = LiabilityRow(micros: Amount, currency: string, units: Units)

  datatype Refusal = BudgetExceeded | CurrencyMismatch | PriceMissing

  ghost function UnitSum(units: Units): int {
    Sum(map k | k in units :: units[k] as int)
  }

  /** What one row weighs under a budget of this kind. */
  ghost function RowWeight(kind: BudgetKind, row: LiabilityRow): int {
    match kind
    case AmountBudget(currency) => if row.currency == currency then row.micros else 0
    case TokenBudget => UnitSum(row.units)
  }

  ghost function RowsWeight(kind: BudgetKind, rows: seq<LiabilityRow>): int {
    if rows == [] then 0 else RowsWeight(kind, rows[..|rows| - 1]) + RowWeight(kind, rows[|rows| - 1])
  }

  lemma UnitSumNotNegative(units: Units)
    ensures 0 <= UnitSum(units)
  {
    NotNegative(map k | k in units :: units[k] as int);
  }

  lemma {:induction false} WeightsAreNotNegative(kind: BudgetKind, rows: seq<LiabilityRow>, n: nat)
    requires n <= |rows|
    ensures 0 <= RowsWeight(kind, rows[..n]) <= RowsWeight(kind, rows)
    decreases |rows| - n, n
  {
    if n < |rows| {
      WeightsAreNotNegative(kind, rows, n + 1);
      UnitSumNotNegative(rows[n].units);
      assert rows[..n + 1][..n] == rows[..n];
      WeightsBelow(kind, rows, n);
    } else {
      assert rows[..n] == rows;
      WeightsBelow(kind, rows, n);
    }
  }

  lemma {:induction false} WeightsBelow(kind: BudgetKind, rows: seq<LiabilityRow>, n: nat)
    requires n <= |rows|
    ensures 0 <= RowsWeight(kind, rows[..n])
  {
    if n > 0 {
      WeightsBelow(kind, rows, n - 1);
      UnitSumNotNegative(rows[n - 1].units);
      assert rows[..n][..n - 1] == rows[..n - 1];
    }
  }

  /** Adds the units of one map to `start`, or reports that the sum left int64. */
  method AddUnits(start: int64, units: Units) returns (total: int64, overflow: bool)
    requires start >= 0
    ensures overflow <==> start + UnitSum(units) > MAX_INT64
    ensures !overflow ==> total == start + UnitSum(units)
  {
    total, overflow := start, false;
    var todo := units.Keys;
    ghost var done: map<UnitKind, int> := map[];
    ghost var all := map k | k in units :: units[k] as int;
    while todo != {}
      invariant todo + done.Keys == units.Keys && todo !! done.Keys
      invariant forall k :: k in done ==> done[k] == units[k]
      invariant total == start + Sum(done) && total >= 0
    {
      var k :| k in todo;
      Adds(done, k, units[k]);
      Monotone(done[k := units[k] as int], all);
      var (sum, wrapped) := CheckedAdd(total, units[k]);
      if wrapped { return total, true; }
      total, todo, done := sum, todo - {k}, done[k := units[k] as int];
    }
    assert done == all;
  }

  /** Enforces one budget in checked int64 arithmetic: it admits exactly what exact arithmetic admits. */
  method Admit(b: Budget, rows: seq<LiabilityRow>, bound: Amount, units: Units, currency: string)
    returns (r: Result<(), Refusal>)
    requires b.limit <= MAX_INT64
    ensures b.kind.AmountBudget? && currency != b.kind.currency ==> r == Err(CurrencyMismatch)
    ensures b.kind.AmountBudget? && currency == b.kind.currency ==>
              (r == Ok(()) <==> RowsWeight(b.kind, rows) + bound <= b.limit) && (r.Err? ==> r.error == BudgetExceeded)
    ensures b.kind.TokenBudget? ==>
              (r == Ok(()) <==> RowsWeight(b.kind, rows) + UnitSum(units) <= b.limit) && (r.Err? ==> r.error == BudgetExceeded)
  {
    var proposed: int64 := bound;
    if b.kind.AmountBudget? {
      if currency != b.kind.currency { return Err(CurrencyMismatch); }
    }
    var existing, overflow := AddRows(b.kind, rows);
    if overflow { UnitSumNotNegative(units); return Err(BudgetExceeded); }
    if b.kind.TokenBudget? {
      proposed, overflow := AddUnits(0, units);
      WeightsBelow(b.kind, rows, |rows|);
      assert rows[..|rows|] == rows;
      if overflow { return Err(BudgetExceeded); }
      UnitSumNotNegative(units);
    }
    var (sum, wrapped) := CheckedAdd(existing, proposed);
    if wrapped || sum > b.limit { return Err(BudgetExceeded); }
    return Ok(());
  }

  /** The weight of all rows, or overflow if it leaves int64. */
  method AddRows(kind: BudgetKind, rows: seq<LiabilityRow>) returns (existing: int64, overflow: bool)
    ensures overflow <==> RowsWeight(kind, rows) > MAX_INT64
    ensures !overflow ==> existing == RowsWeight(kind, rows) && existing >= 0
  {
    existing := 0;
    for i := 0 to |rows|
      invariant existing == RowsWeight(kind, rows[..i]) && existing >= 0
    {
      assert rows[..i + 1][..i] == rows[..i];
      WeightsAreNotNegative(kind, rows, i + 1);
      if kind.AmountBudget? {
        if rows[i].currency == kind.currency {
          var (sum, wrapped) := CheckedAdd(existing, rows[i].micros);
          if wrapped { return existing, true; }
          existing := sum;
        }
      } else {
        UnitSumNotNegative(rows[i].units);
        var sum, wrapped := AddUnits(existing, rows[i].units);
        if wrapped { return existing, true; }
        existing := sum;
      }
    }
    assert rows[..|rows|] == rows;
    return existing, false;
  }

  // ---- What the ledger admits ----

  /** An amount budget weighs amounts in its own currency and nothing else, a token budget units only. */
  lemma WeighsItsOwnKind(b: Budget, micros: nat, currency: string, units: nat)
    ensures b.kind == AmountBudget(currency) ==> Weight(b, Cost(micros, currency, units)) == micros
    ensures b.kind.AmountBudget? && b.kind.currency != currency ==> Weight(b, Cost(micros, currency, units)) == 0
    ensures b.kind == TokenBudget ==> Weight(b, Cost(micros, currency, units)) == units
  {
  }

  /** One more row adds its amount, its units, or nothing. */
  lemma RowAdds(kind: BudgetKind, rows: seq<LiabilityRow>, row: LiabilityRow)
    ensures RowsWeight(kind, []) == 0
    ensures RowsWeight(kind, rows + [row]) - RowsWeight(kind, rows) ==
            match kind
            case AmountBudget(currency) => if row.currency == currency then row.micros else 0
            case TokenBudget => UnitSum(row.units)
  {
    assert (rows + [row])[..|rows|] == rows;
  }

  predicate NoDuplicates<T(==)>(s: seq<T>) {
    forall i, j :: 0 <= i < j < |s| ==> s[i] != s[j]
  }

  /** The rows a query returns for a set of costs: one each, in any order. */
  ghost predicate Lists(rows: seq<LiabilityRow>, ids: seq<Id>, costs: map<Id, Cost>) {
    && |rows| == |ids| && NoDuplicates(ids) && (set i | i in ids) == costs.Keys
    && forall i :: 0 <= i < |rows| ==> RowCost(rows[i]) == costs[ids[i]]
  }

  ghost function RowCost(row: LiabilityRow): Cost {
    UnitSumNotNegative(row.units);
    Cost(row.micros, row.currency, UnitSum(row.units))
  }

  ghost function HeldCosts(l: Ledger, b: Budget): map<Id, Cost> {
    map i | i in Holds(l, b) :: l.reservations[i].bound
  }

  ghost function SettledCosts(l: Ledger, b: Budget, from: Time): map<Id, Cost> {
    map i | i in Charges(l, b, from) :: l.usage[i].actual
  }

  ghost function Weights(b: Budget, costs: map<Id, Cost>): map<Id, int> {
    map i | i in costs :: Weight(b, costs[i])
  }

  lemma ListsFront(rows: seq<LiabilityRow>, ids: seq<Id>, costs: map<Id, Cost>, n: nat)
    requires Lists(rows, ids, costs) && |rows| == n + 1
    ensures ids[n] in costs && Lists(rows[..n], ids[..n], costs - {ids[n]})
  {
    assert ids[n] in ids;
    forall i | i in costs && i != ids[n] ensures i in ids[..n] {
      assert i in ids;
      var j :| 0 <= j < |ids| && ids[j] == i;
      assert ids[..n][j] == i;
    }
    assert (set i | i in ids[..n]) == (costs - {ids[n]}).Keys;
  }

  lemma RowWeighs(b: Budget, row: LiabilityRow)
    ensures RowWeight(b.kind, row) == Weight(b, RowCost(row))
  {
  }

  lemma WeightsTake(b: Budget, costs: map<Id, Cost>, id: Id)
    requires id in costs
    ensures Sum(Weights(b, costs)) == Weight(b, costs[id]) + Sum(Weights(b, costs - {id}))
  {
    Takes(Weights(b, costs), id);
    assert Weights(b, costs) - {id} == Weights(b, costs - {id});
  }

  lemma {:induction false} RowsAddUp(b: Budget, rows: seq<LiabilityRow>, ids: seq<Id>, costs: map<Id, Cost>)
    requires Lists(rows, ids, costs)
    ensures RowsWeight(b.kind, rows) == Sum(Weights(b, costs))
    decreases |rows|
  {
    if rows == [] {
      assert Weights(b, costs) == map[];
    } else {
      var n := |rows| - 1;
      ListsFront(rows, ids, costs, n);
      RowsAddUp(b, rows[..n], ids[..n], costs - {ids[n]});
      WeightsTake(b, costs, ids[n]);
      RowWeighs(b, rows[n]);
    }
  }

  lemma {:induction false} WeightsConcat(kind: BudgetKind, a: seq<LiabilityRow>, b: seq<LiabilityRow>)
    ensures RowsWeight(kind, a + b) == RowsWeight(kind, a) + RowsWeight(kind, b)
    decreases |b|
  {
    if b == [] {
      assert a + b == a;
    } else {
      assert (a + b)[..|a + b| - 1] == a + b[..|b| - 1];
      WeightsConcat(kind, a, b[..|b| - 1]);
    }
  }

  lemma ReadingsAddUp(b: Budget, l: Ledger, later: Ledger, from: Time,
                      held: seq<LiabilityRow>, heldIds: seq<Id>, settled: seq<LiabilityRow>, settledIds: seq<Id>)
    requires Lists(held, heldIds, HeldCosts(l, b)) && Lists(settled, settledIds, SettledCosts(later, b, from))
    ensures RowsWeight(b.kind, held + settled) == Sum(Holds(l, b)) + Sum(Charges(later, b, from))
  {
    HeldAddUp(b, l, held, heldIds);
    SettledAddUp(b, later, from, settled, settledIds);
    WeightsConcat(b.kind, held, settled);
  }

  lemma HeldAddUp(b: Budget, l: Ledger, held: seq<LiabilityRow>, heldIds: seq<Id>)
    requires Lists(held, heldIds, HeldCosts(l, b))
    ensures RowsWeight(b.kind, held) == Sum(Holds(l, b))
  {
    RowsAddUp(b, held, heldIds, HeldCosts(l, b));
    assert Weights(b, HeldCosts(l, b)) == Holds(l, b);
  }

  lemma SettledAddUp(b: Budget, l: Ledger, from: Time, settled: seq<LiabilityRow>, settledIds: seq<Id>)
    requires Lists(settled, settledIds, SettledCosts(l, b, from))
    ensures RowsWeight(b.kind, settled) == Sum(Charges(l, b, from))
  {
    RowsAddUp(b, settled, settledIds, SettledCosts(l, b, from));
    assert Weights(b, SettledCosts(l, b, from)) == Charges(l, b, from);
  }

  /** Given the holds of one moment and the charges of another, as the two queries of a
    * Reserve return them, the checked comparison admits exactly what the ledger's step admits. */
  method AdmitReading(b: Budget, held: seq<LiabilityRow>, settled: seq<LiabilityRow>, bound: Amount, units: Units, currency: string,
                      ghost l: Ledger, ghost later: Ledger, ghost from: Time, ghost heldIds: seq<Id>, ghost settledIds: seq<Id>)
    returns (r: Result<(), Refusal>)
    requires b.limit <= MAX_INT64
    requires Lists(held, heldIds, HeldCosts(l, b)) && Lists(settled, settledIds, SettledCosts(later, b, from))
    ensures UnitSum(units) >= 0
    ensures r == Ok(()) <==>
              BudgetLedger.Admits(b, Sum(Holds(l, b)) + Sum(Charges(later, b, from)), Cost(bound, currency, UnitSum(units)))
  {
    UnitSumNotNegative(units);
    ReadingsAddUp(b, l, later, from, held, heldIds, settled, settledIds);
    r := Admit(b, held + settled, bound, units, currency);
  }

  // ---- Subjects ----

  /** A tenant subject always names the tenant of the request. */
  function Normal(tenant: string, s: Subject): Subject {
    if s.kind == TENANT then Subject(TENANT, tenant) else s
  }

  predicate Usable(tenant: string, s: Subject) {
    s.kind != "" && Normal(tenant, s).id != ""
  }

  function Candidates(tenant: string, billing: Subject, keys: seq<Subject>): seq<Subject> {
    [billing, Subject(TENANT, tenant)] + keys
  }

  /** The subjects a reservation is attributed to, each once. */
  method SubjectsFor(tenant: string, billing: Subject, keys: seq<Subject>) returns (out: seq<Subject>)
    ensures NoDuplicates(out)
    ensures forall s :: s in out <==>
              exists i :: 0 <= i < |Candidates(tenant, billing, keys)|
                          && Usable(tenant, Candidates(tenant, billing, keys)[i])
                          && s == Normal(tenant, Candidates(tenant, billing, keys)[i])
  {
    var all := Candidates(tenant, billing, keys);
    var seen: set<Subject> := {};
    out := [];
    for n := 0 to |all|
      invariant seen == set s | s in out
      invariant NoDuplicates(out)
      invariant forall s :: s in out <==> exists i :: 0 <= i < n && Usable(tenant, all[i]) && s == Normal(tenant, all[i])
    {
      var s := all[n];
      if s.kind == "" { continue; }
      s := Normal(tenant, s);
      if s.id == "" { continue; }
      if s in seen { continue; }
      seen := seen + {s};
      out := out + [s];
    }
  }

  /** A reservation is attributed to its tenant, and to the billing subject and each further key that
    * names a kind and an id, where a tenant is always the request's own. */
  lemma SubjectIff(tenant: string, billing: Subject, keys: seq<Subject>, out: seq<Subject>, s: Subject)
    requires forall s :: s in out <==>
              exists i :: 0 <= i < |Candidates(tenant, billing, keys)|
                          && Usable(tenant, Candidates(tenant, billing, keys)[i])
                          && s == Normal(tenant, Candidates(tenant, billing, keys)[i])
    ensures s in out <==>
              || (s == Subject("tenant", tenant) && tenant != "")
              || ((s == billing || s in keys) && s.kind != "" && s.kind != "tenant" && s.id != "")
  {
    var all := Candidates(tenant, billing, keys);
    assert all[0] == billing && all[1] == Subject(TENANT, tenant);
    assert forall k :: 0 <= k < |keys| ==> all[k + 2] == keys[k];
    if s == Subject("tenant", tenant) && tenant != "" { assert Usable(tenant, all[1]) && s == Normal(tenant, all[1]); }
    if (s == billing || s in keys) && s.kind != "" && s.kind != "tenant" && s.id != "" {
      if s == billing {
        assert Usable(tenant, all[0]) && s == Normal(tenant, all[0]);
      } else {
        var k :| 0 <= k < |keys| && keys[k] == s;
        assert Usable(tenant, all[k + 2]) && s == Normal(tenant, all[k + 2]);
      }
    }
  }

  /** A reservation gets a canonical row, without which it can never be settled, dispatched or
    * released, exactly when its charged subject is usable and, if a tenant, is the request's own. */
  lemma CanonicalRowIff(tenant: string, billing: Subject, keys: seq<Subject>, out: seq<Subject>)
    requires forall s :: s in out <==>
              exists i :: 0 <= i < |Candidates(tenant, billing, keys)|
                          && Usable(tenant, Candidates(tenant, billing, keys)[i])
                          && s == Normal(tenant, Candidates(tenant, billing, keys)[i])
    ensures billing in out <==> billing.kind != "" && billing.id != "" && (billing.kind == TENANT ==> billing.id == tenant)
  {
    if billing.kind != "" && billing.id != "" && (billing.kind == TENANT ==> billing.id == tenant) {
      assert Candidates(tenant, billing, keys)[0] == billing;
    }
  }

  /** The rows one reservation writes that a budget's scope selects. */
  predicate Selects(b: Budget, charged: Subject, row: Subject) {
    if b.subject.kind == TENANT then row == charged else row == b.subject
  }

  /** Each reservation counts at most once under a budget, and it counts exactly when the ledger says so. */
  lemma EachReservationCountsOnce(b: Budget, charged: Subject, rows: seq<Subject>, r: Reservation)
    requires NoDuplicates(rows) && r.charged == charged && r.subjects == set s | s in rows
    ensures forall i, j :: 0 <= i < |rows| && 0 <= j < |rows| && Selects(b, charged, rows[i]) && Selects(b, charged, rows[j]) ==> i == j
    ensures BudgetLedger.Counts(b, r) <==> exists i :: 0 <= i < |rows| && Selects(b, charged, rows[i])
  {
    var chosen := if b.subject.kind == TENANT then charged else b.subject;
    if chosen in rows {
      var i :| 0 <= i < |rows| && rows[i] == chosen;
      assert Selects(b, charged, rows[i]);
    }
  }

  // ---- The price snapshot ----

  datatype Price = Price(unit: UnitKind, rateMicros: int, unitQuantity: int, currency: string)

  function RateOf(p: Price): Rate {
    Rate(p.unit, p.rateMicros, p.unitQuantity)
  }

  /** The first price listed for each kind. */
  function FirstPrices(prices: seq<Price>): map<UnitKind, Price> {
    if prices == [] then map[] else
    var m := FirstPrices(prices[..|prices| - 1]);
    var p := prices[|prices| - 1];
    if p.unit in m then m else m[p.unit := p]
  }

  lemma {:induction false} FirstPricesAreOwn(prices: seq<Price>, k: UnitKind)
    requires k in FirstPrices(prices)
    ensures FirstPrices(prices)[k].unit == k && FirstPrices(prices)[k] in prices
  {
    var m := FirstPrices(prices[..|prices| - 1]);
    if k in m { FirstPricesAreOwn(prices[..|prices| - 1], k); }
  }

  /** Entry `i` is the first one for its kind. */
  ghost predicate FirstFor(prices: seq<Price>, i: nat, k: UnitKind) {
    i < |prices| && prices[i].unit == k && forall j :: 0 <= j < i ==> prices[j].unit != k
  }

  /** The price that goes into the snapshot is the first one listed for its kind. */
  lemma {:induction false} FirstPriceCounts(prices: seq<Price>, i: nat, k: UnitKind)
    requires FirstFor(prices, i, k)
    ensures k in FirstPrices(prices) && FirstPrices(prices)[k] == prices[i]
  {
    if i < |prices| - 1 {
      FirstPriceCounts(prices[..|prices| - 1], i, k);
    } else if k in FirstPrices(prices[..i]) {
      FirstPricesAreOwn(prices[..i], k);
    }
  }

  ghost predicate OneCurrency(prices: map<UnitKind, Price>, kinds: set<UnitKind>) {
    forall k, l :: k in kinds && l in kinds && k in prices && l in prices ==> prices[k].currency == prices[l].currency
  }

  /** Takes the rate of every estimated kind, and refuses when one is missing or the
    * selected rates mix currencies; a rate of a kind that is not estimated plays no part. */
  method SnapshotFor(prices: seq<Price>, estimate: Units) returns (r: Result<Snapshot, Refusal>)
    requires forall p :: p in prices ==> p.currency != ""
    ensures r.Ok? <==> estimate != map[] && estimate.Keys <= FirstPrices(prices).Keys && OneCurrency(FirstPrices(prices), estimate.Keys)
    ensures r.Ok? ==>
              && r.value.rounding == Ceil
              && RateMap(r.value.rates).Keys == estimate.Keys
              && forall k :: k in estimate ==>
                   RateMap(r.value.rates)[k] == RateOf(FirstPrices(prices)[k]) && r.value.currency == FirstPrices(prices)[k].currency
  {
    var byKind := map[];
    for i := 0 to |prices|
      invariant byKind == FirstPrices(prices[..i])
    {
      assert prices[..i + 1][..i] == prices[..i];
      if prices[i].unit !in byKind { byKind := byKind[prices[i].unit := prices[i]]; }
    }
    assert prices[..|prices|] == prices;
    r := SelectRates(prices, byKind, estimate);
  }

  method SelectRates(prices: seq<Price>, byKind: map<UnitKind, Price>, estimate: Units) returns (r: Result<Snapshot, Refusal>)
    requires byKind == FirstPrices(prices) && forall p :: p in prices ==> p.currency != ""
    ensures r.Ok? <==> estimate != map[] && estimate.Keys <= byKind.Keys && OneCurrency(byKind, estimate.Keys)
    ensures r.Ok? ==>
              && r.value.rounding == Ceil
              && RateMap(r.value.rates).Keys == estimate.Keys
              && forall k :: k in estimate ==>
                   RateMap(r.value.rates)[k] == RateOf(byKind[k]) && r.value.currency == byKind[k].currency
  {
    var currency, rates := "", [];
    var todo := estimate.Keys;
    ghost var done: set<UnitKind> := {};
    while todo != {}
      invariant todo + done == estimate.Keys && todo !! done
      invariant done <= byKind.Keys && RateMap(rates).Keys == done
      invariant forall k :: k in done ==> RateMap(rates)[k] == RateOf(byKind[k]) && byKind[k].currency == currency
      invariant currency == "" <==> done == {}
    {
      var k :| k in todo;
      if k !in byKind { return Err(Refusal.PriceMissing); }
      FirstPricesAreOwn(prices, k);
      if currency == "" {
        currency := byKind[k].currency;
      } else if currency != byKind[k].currency {
        ghost var l :| l in done;
        assert byKind[l].currency != byKind[k].currency;
        return Err(CurrencyMismatch);
      }
      ghost var before := rates;
      rates := rates + [RateOf(byKind[k])];
      assert rates[..|rates| - 1] == before;
      todo, done := todo - {k}, done + {k};
    }
    if currency == "" { return Err(Refusal.PriceMissing); }
    return Ok(Snapshot(rates, currency, Ceil));
  }

  /** So an admitted estimate is always priced in full: no unit is silently free. */
  lemma SnapshotPricesEstimate(snap: Snapshot, prices: seq<Price>, estimate: Units)
    requires RateMap(snap.rates).Keys == estimate.Keys
    requires forall k :: k in estimate ==> k in FirstPrices(prices) && RateMap(snap.rates)[k] == RateOf(FirstPrices(prices)[k])
    requires forall p :: p in prices ==> RateOf(p).Valid()
    ensures AllPriced(snap, estimate)
  {
    forall k | k in estimate ensures Priced(snap, k) { FirstPricesAreOwn(prices, k); }
  }
}
