/** What usage costs: exact rational rates, rounded once per unit kind, summed in checked arithmetic. */
module Charge {
  import opened FixedWidth
  import opened ExactDivision
  import opened MapSums
  import opened Results

  type UnitKind = string

  datatype Rounding = Ceil | Floor

  /** `rateMicros` currency micros per `unitQuantity` units. */
  datatype Rate = Rate(unit: UnitKind, rateMicros: int, unitQuantity: int) {
    predicate Valid() { 0 < unitQuantity <= MAX_INT64 && 0 <= rateMicros <= MAX_INT64 }
  }

  datatype Snapshot = Snapshot(rates: seq<Rate>, currency: string, rounding: Rounding)

  type Units = map<UnitKind, Amount>

  datatype Error =
    | PriceMissing(kind: UnitKind)
    | InvalidRate(kind: UnitKind)
    | ArithmeticOverflow
    | NegativeUnits
    | EmptyUnitKind

  // ---- The exact charge ----

  function CeilDiv(n: nat, q: nat): (r: nat)
    requires q > 0
    ensures n <= r * q < n + q
  {
    if n % q == 0 then n / q else
    assert (n / q + 1) * q == (n / q) * q + q;
    n / q + 1
  }

  /** The cost of one kind in whole micros. */
  function Term(a: nat, b: nat, q: nat, rule: Rounding): nat
    requires q > 0
  {
    if rule == Ceil then CeilDiv(a * b, q) else (a * b) / q
  }

  /** The rate in force for each kind: a later entry for the same kind replaces an earlier one. */
  function RateMap(rates: seq<Rate>): map<UnitKind, Rate> {
    if rates == [] then map[] else RateMap(rates[..|rates| - 1])[rates[|rates| - 1].unit := rates[|rates| - 1]]
  }

  predicate Priced(snap: Snapshot, k: UnitKind) {
    var m := RateMap(snap.rates);
    k in m && m[k].Valid()
  }

  function KindCost(snap: Snapshot, k: UnitKind, n: Amount): nat
    requires Priced(snap, k)
  {
    var r := RateMap(snap.rates)[k];
    Term(r.rateMicros, n, r.unitQuantity, snap.rounding)
  }

  ghost predicate AllPriced(snap: Snapshot, units: Units) {
    forall k :: k in units ==> Priced(snap, k)
  }

  /** The cost of each kind. */
  ghost function Costs(snap: Snapshot, units: Units): map<UnitKind, int>
    requires AllPriced(snap, units)
  {
    map k | k in units :: KindCost(snap, k, units[k])
  }

  /** The sum over kinds, whatever the order. */
  ghost function Total(snap: Snapshot, units: Units): (t: nat)
    requires AllPriced(snap, units)
  {
    NotNegative(Costs(snap, units));
    Sum(Costs(snap, units))
  }

  // ---- What the charge is, entry by entry ----

  /** Entry `i` is the last one for its kind. */
  ghost predicate LastFor(rates: seq<Rate>, i: nat, k: UnitKind) {
    i < |rates| && rates[i].unit == k && forall j :: i < j < |rates| ==> rates[j].unit != k
  }

  lemma {:induction false} RateInForce(rates: seq<Rate>, i: nat, k: UnitKind)
    requires LastFor(rates, i, k)
    ensures k in RateMap(rates) && RateMap(rates)[k] == rates[i]
  {
    if i < |rates| - 1 { RateInForce(rates[..|rates| - 1], i, k); }
  }

  lemma {:induction false} NoRate(rates: seq<Rate>, k: UnitKind)
    requires forall i :: 0 <= i < |rates| ==> rates[i].unit != k
    ensures k !in RateMap(rates)
  {
    if rates != [] { NoRate(rates[..|rates| - 1], k); }
  }

  /** A kind costs its units times the rate over the rate's quantity, under the last rate listed for
    * it: rounded up to the next micro, or down under the other rule, and only once. */
  lemma KindCostsItsRate(snap: Snapshot, k: UnitKind, n: Amount, i: nat)
    requires LastFor(snap.rates, i, k)
    requires 0 <= snap.rates[i].rateMicros <= MAX_INT64 && 0 < snap.rates[i].unitQuantity <= MAX_INT64
    ensures Priced(snap, k)
    ensures var r, c := snap.rates[i], KindCost(snap, k, n);
            && (snap.rounding == Ceil ==> r.rateMicros * n <= c * r.unitQuantity < r.rateMicros * n + r.unitQuantity)
            && (snap.rounding == Floor ==> c * r.unitQuantity <= r.rateMicros * n < c * r.unitQuantity + r.unitQuantity)
  {
    RateInForce(snap.rates, i, k);
    var r := snap.rates[i];
    var a := r.rateMicros * n;
    assert a == (a / r.unitQuantity) * r.unitQuantity + a % r.unitQuantity;
  }

  /** And every kind is charged exactly once. */
  lemma KindsAdd(snap: Snapshot, units: Units, k: UnitKind, n: Amount)
    requires AllPriced(snap, units) && Priced(snap, k) && k !in units
    ensures AllPriced(snap, map[]) && Total(snap, map[]) == 0
    ensures AllPriced(snap, units[k := n]) && Total(snap, units[k := n]) == Total(snap, units) + KindCost(snap, k, n)
  {
    assert Costs(snap, map[]) == map[];
    Adds(Costs(snap, units), k, KindCost(snap, k, n));
    assert Costs(snap, units[k := n]) == Costs(snap, units)[k := KindCost(snap, k, n) as int];
  }

  lemma TermMonotone(a: nat, b: nat, b': nat, q: nat, rule: Rounding)
    requires q > 0 && b <= b'
    ensures Term(a, b, q, rule) <= Term(a, b', q, rule)
  {
    MulUpper(a, b, a, b');
    QuotientMonotone(a * b, a * b', q);
    CeilMonotone(a * b, a * b', q);
  }

  lemma CeilMonotone(n: nat, n': nat, q: nat)
    requires q > 0 && n <= n'
    ensures CeilDiv(n, q) <= CeilDiv(n', q)
  {
    LeastMultiple(n, n', q, CeilDiv(n, q), CeilDiv(n', q));
  }

  lemma LeastMultiple(n: nat, n': nat, q: nat, r: nat, r': nat)
    requires n <= n' && r * q < n + q && n' <= r' * q
    ensures r <= r'
  {
    if r' < r { MulUpper(r' + 1, q, r, q); }
  }

  lemma QuotientMonotone(n: nat, n': nat, q: nat)
    requires q > 0 && n <= n'
    ensures n / q <= n' / q
  {
    if n' / q < n / q { MulUpper(n' / q + 1, q, n / q, q); }
  }

  /** More units of no fewer kinds never cost less. */
  lemma TotalMonotone(snap: Snapshot, units: Units, more: Units)
    requires AllPriced(snap, more)
    requires forall k :: k in units ==> k in more && units[k] <= more[k]
    ensures AllPriced(snap, units) && Total(snap, units) <= Total(snap, more)
  {
    forall k | k in units ensures KindCost(snap, k, units[k]) <= KindCost(snap, k, more[k]) {
      var r := RateMap(snap.rates)[k];
      TermMonotone(r.rateMicros, units[k], more[k], r.unitQuantity, snap.rounding);
    }
    Monotone(Costs(snap, units), Costs(snap, more));
  }

  // ---- The fixed 128-bit accumulator ----

  class Big128 {
    var hi: nat
    var lo: nat
    var overflow: bool

    ghost function Value(): nat
      reads this
    {
      hi * TWO64 + lo
    }

    /** Until it overflows, the accumulator holds an int64. */
    ghost predicate Valid()
      reads this
    {
      hi < TWO64 && lo < TWO64 && (!overflow ==> hi == 0 && lo <= MAX_INT64)
    }

    constructor ()
      ensures Valid() && !overflow && Value() == 0
    {
      hi, lo, overflow := 0, 0, false;
    }

    /** Adds a * b / q, rounded; exact, or flagged as beyond int64. */
    method AddRatMul(a: nat, b: nat, q: nat, rule: Rounding)
      requires Valid() && !overflow
      requires a <= MAX_INT64 && b <= MAX_INT64 && 0 < q <= MAX_INT64
      modifies this
      ensures Valid()
      ensures overflow <==> old(Value()) + Term(a, b, q, rule) > MAX_INT64
      ensures Value() == old(Value()) + Term(a, b, q, rule)
    {
      if b == 0 || a == 0 {
        ZeroTerm(a, b, q, rule);
        return;
      }
      var (nhi, nlo) := Mul64(a, b);
      var quo, rem := Div128(nhi, nlo, q);
      QuotientIsTerm(a, b, q, quo, rem, rule);
      if rule == Ceil && rem > 0 {
        var (lo2, carry) := Add64(quo.lo, 1, 0);
        quo := U128(quo.hi + carry, lo2);
      }
      var (sumLo, carry) := Add64(lo, quo.lo, 0);
      lo := sumLo;
      var (sumHi, hiCarry) := Add64(hi, quo.hi, carry);
      if hiCarry != 0 { overflow := true; }
      hi := sumHi;
      if hi != 0 || lo > MAX_INT64 { overflow := true; }
    }

    /** The accumulated amount, clamped to int64. */
    method I64() returns (r: nat)
      requires Valid()
      ensures r == if Value() <= MAX_INT64 then Value() else MAX_INT64
    {
      if hi != 0 || lo > MAX_INT64 { return MAX_INT64; }
      return lo;
    }
  }

  lemma ZeroTerm(a: nat, b: nat, q: nat, rule: Rounding)
    requires q > 0 && (a == 0 || b == 0)
    ensures Term(a, b, q, rule) == 0
  {
  }

  /** The long division gives the term, and leaves room for the carry of rounding up. */
  lemma QuotientIsTerm(a: nat, b: nat, q: nat, quo: U128, rem: nat, rule: Rounding)
    requires a <= MAX_INT64 && b <= MAX_INT64 && 0 < q
    requires quo.Fits() && rem < q && a * b == quo.Value() * q + rem
    ensures Term(a, b, q, rule) == quo.Value() + (if rule == Ceil && rem > 0 then 1 else 0)
    ensures quo.hi < TWO63
  {
    MulUpper(a, b, MAX_INT64, MAX_INT64);
    MulUpper(quo.Value(), 1, quo.Value(), q);
    assert quo.Value() * q == q * quo.Value();
    DivUnique(a * b, q, quo.Value(), rem);
  }

  // ---- charge ----

  /** The rate lookup table; the last entry for a kind wins. */
  method BuildRates(rates: seq<Rate>) returns (rateOf: map<UnitKind, Rate>)
    ensures rateOf == RateMap(rates)
  {
    rateOf := map[];
    for i := 0 to |rates|
      invariant rateOf == RateMap(rates[..i])
    {
      rateOf := rateOf[rates[i].unit := rates[i]];
      assert rates[..i + 1][..i] == rates[..i];
    }
    assert rates[..|rates|] == rates;
  }

  /** The kinds charged so far and their exact total. */
  ghost predicate Charged(snap: Snapshot, units: Units, done: Units, value: nat) {
    && (forall k :: k in done ==> k in units && done[k] == units[k])
    && AllPriced(snap, done)
    && value == Total(snap, done)
  }

  lemma ChargeOne(snap: Snapshot, units: Units, done: Units, value: nat, k: UnitKind)
    requires Charged(snap, units, done, value) && k in units && k !in done && Priced(snap, k)
    ensures Charged(snap, units, done[k := units[k]], value + KindCost(snap, k, units[k]))
    ensures AllPriced(snap, units) ==> value + KindCost(snap, k, units[k]) <= Total(snap, units)
  {
    var done' := done[k := units[k]];
    Adds(Costs(snap, done), k, KindCost(snap, k, units[k]));
    assert Costs(snap, done') == Costs(snap, done)[k := KindCost(snap, k, units[k])];
    if AllPriced(snap, units) { TotalMonotone(snap, done', units); }
  }

  /** Charges `units` under a snapshot. The source visits the kinds in sorted order;
    * here they come in any order, and the amount does not depend on it. */
  method ChargeUnits(units: Units, snap: Snapshot) returns (r: Result<Amount, Error>)
    ensures r.Ok? <==> AllPriced(snap, units) && Total(snap, units) <= MAX_INT64
    ensures r.Ok? ==> r.value == Total(snap, units)
    ensures AllPriced(snap, units) && Total(snap, units) > MAX_INT64 ==> r == Err(ArithmeticOverflow)
    ensures r.Err? && r.error.PriceMissing? ==> r.error.kind in units && r.error.kind !in RateMap(snap.rates)
    ensures r.Err? && r.error.InvalidRate? ==>
              r.error.kind in units && r.error.kind in RateMap(snap.rates) && !Priced(snap, r.error.kind)
  {
    var rateOf := BuildRates(snap.rates);
    var total := new Big128();
    var todo := units.Keys;
    ghost var done: Units := map[];
    while todo != {}
      invariant fresh(total) && total.Valid() && !total.overflow
      invariant todo + done.Keys == units.Keys && todo !! done.Keys
      invariant Charged(snap, units, done, total.Value())
    {
      var k :| k in todo;
      if k !in rateOf { return Err(PriceMissing(k)); }
      var rate := rateOf[k];
      if !rate.Valid() { return Err(InvalidRate(k)); }
      ChargeOne(snap, units, done, total.Value(), k);
      total.AddRatMul(rate.rateMicros, units[k], rate.unitQuantity, snap.rounding);
      if total.overflow { return Err(ArithmeticOverflow); }
      done := done[k := units[k]];
      todo := todo - {k};
    }
    assert done == units;
    var amount := total.I64();
    return Ok(amount);
  }
}
