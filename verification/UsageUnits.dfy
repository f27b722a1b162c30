/** Usage reports and estimates as units per kind, and what an estimate bounds. */
module UsageUnits {
  import opened FixedWidth
  import opened MapSums
  import opened Results
  import opened Charge

  /** A usage report or estimate as callers state it; `other` is any further advertised kind. */
  datatype Usage = Usage(input: int, output: int, cached: int, other: map<UnitKind, int>)

  const INPUT: UnitKind := "input"
  const OUTPUT: UnitKind := "output"
  const CACHED_INPUT: UnitKind := "cached_input"

  predicate WellFormed(u: Usage) {
    && 0 <= u.input <= MAX_INT64 && 0 <= u.output <= MAX_INT64 && 0 <= u.cached <= MAX_INT64
    && (forall k :: k in u.other ==> k != "" && 0 <= u.other[k] <= MAX_INT64)
  }

  lemma KindsDiffer()
    ensures INPUT != OUTPUT && INPUT != CACHED_INPUT && OUTPUT != CACHED_INPUT
  {
    assert |INPUT| == 5 && |OUTPUT| == 6 && |CACHED_INPUT| == 12;
  }

  /** The three named fields by kind. */
  function Named(u: Usage): map<UnitKind, int> {
    map[INPUT := u.input, OUTPUT := u.output, CACHED_INPUT := u.cached]
  }

  // ---- Named fields and further kinds, whatever their names ----

  /** The units of one kind: a positive further entry takes the place of a named field. */
  function StatedIn(named: map<UnitKind, int>, other: map<UnitKind, int>, k: UnitKind): int {
    if k in other && other[k] > 0 then other[k] else if k in named then named[k] else 0
  }

  /** The units per kind, zeros dropped. */
  ghost function UnitsFrom(named: map<UnitKind, int>, other: map<UnitKind, int>): map<UnitKind, int> {
    map k | k in named.Keys + other.Keys && StatedIn(named, other, k) > 0 :: StatedIn(named, other, k)
  }

  function Put(m: map<UnitKind, int>, k: UnitKind, v: int): map<UnitKind, int> {
    if v > 0 then m[k := v] else m
  }

  lemma ReadOne(named: map<UnitKind, int>, read: map<UnitKind, int>, k: UnitKind, v: nat)
    requires k !in read
    ensures UnitsFrom(named, read[k := v]) == Put(UnitsFrom(named, read), k, v)
  {
  }

  lemma ThreeFields(a: UnitKind, b: UnitKind, c: UnitKind, x: nat, y: nat, z: nat)
    requires a != b && a != c && b != c
    ensures UnitsFrom(map[a := x, b := y, c := z], map[]) == Put(Put(Put(map[], a, x), b, y), c, z)
  {
    var named := map[a := x, b := y, c := z];
    assert named.Keys == {a, b, c};
  }

  /** The named fields that a further kind of the same name displaces. */
  ghost function Displaced(named: map<UnitKind, int>, other: map<UnitKind, int>): map<UnitKind, int> {
    map k | k in named && k in other && other[k] > 0 :: named[k]
  }

  ghost predicate NonNegative(m: map<UnitKind, int>) {
    forall k :: k in m ==> m[k] >= 0
  }

  lemma PositiveSum(m: map<UnitKind, int>)
    requires NonNegative(m)
    ensures Sum(UnitsFrom(m, map[])) == Sum(m)
  {
    ZerosAddNothing(m, UnitsFrom(m, map[]));
  }

  /** Every unit is counted once, but for the displaced fields. */
  ghost predicate CountedOnce(named: map<UnitKind, int>, other: map<UnitKind, int>) {
    Sum(UnitsFrom(named, other)) == Sum(named) + Sum(other) - Sum(Displaced(named, other))
  }

  lemma CountedOnceMore(named: map<UnitKind, int>, rest: map<UnitKind, int>, k: UnitKind, v: nat)
    requires NonNegative(named) && k !in rest && CountedOnce(named, rest)
    ensures CountedOnce(named, rest[k := v])
  {
    ReadOne(named, rest, k, v);
    OneKindMore(named, rest, k, v);
    Adds(rest, k, v);
  }

  lemma CountedOnceAtFirst(named: map<UnitKind, int>)
    requires NonNegative(named)
    ensures CountedOnce(named, map[])
  {
    PositiveSum(named);
    assert Displaced(named, map[]) == map[];
  }

  lemma FlattenedTotal(named: map<UnitKind, int>, other: map<UnitKind, int>)
    requires NonNegative(named) && NonNegative(other)
    ensures CountedOnce(named, other)
  {
    var read: map<UnitKind, int> := map[];
    var todo := other.Keys;
    CountedOnceAtFirst(named);
    while todo != {}
      invariant todo + read.Keys == other.Keys && todo !! read.Keys
      invariant forall k :: k in read ==> read[k] == other[k]
      invariant CountedOnce(named, read)
    {
      var k :| k in todo;
      CountedOnceMore(named, read, k, other[k]);
      read := read[k := other[k]];
      todo := todo - {k};
    }
    assert read == other;
  }

  /** What one further kind adds, and displaces. */
  lemma OneKindMore(named: map<UnitKind, int>, rest: map<UnitKind, int>, k: UnitKind, v: nat)
    requires NonNegative(named) && k !in rest
    ensures Sum(Put(UnitsFrom(named, rest), k, v)) - Sum(UnitsFrom(named, rest)) ==
            v - (Sum(Displaced(named, rest[k := v])) - Sum(Displaced(named, rest)))
  {
    var units, lost, lost' := UnitsFrom(named, rest), Displaced(named, rest), Displaced(named, rest[k := v]);
    if v == 0 {
      assert lost' == lost;
    } else {
      if k in named {
        Adds(lost, k, named[k]);
        assert lost' == lost[k := named[k]];
      } else {
        assert lost' == lost;
      }
      if k in units { Replaces(units, k, v); } else { Adds(units, k, v); }
    }
  }

  lemma {:induction false} ZeroSumIff(m: map<UnitKind, int>)
    requires NonNegative(m)
    ensures Sum(m) >= 0 && (Sum(m) == 0 <==> forall k :: k in m ==> m[k] == 0)
    decreases |m|
  {
    if m != map[] {
      var k :| k in m;
      Takes(m, k);
      ZeroSumIff(m - {k});
      assert forall l :: l in m && l != k ==> l in m - {k};
    }
  }

  // ---- Reports ----

  lemma NamedParts(u: Usage)
    ensures Named(u).Keys == {INPUT, OUTPUT, CACHED_INPUT}
    ensures Named(u)[INPUT] == u.input && Named(u)[OUTPUT] == u.output && Named(u)[CACHED_INPUT] == u.cached
    ensures Sum(Named(u)) == u.input + u.output + u.cached
  {
    KindsDiffer();
    var m: map<UnitKind, int> := map[];
    Adds(m, INPUT, u.input);
    Adds(m[INPUT := u.input], OUTPUT, u.output);
    Adds(m[INPUT := u.input][OUTPUT := u.output], CACHED_INPUT, u.cached);
    assert Named(u) == m[INPUT := u.input][OUTPUT := u.output][CACHED_INPUT := u.cached];
  }

  lemma UnitsInRange(u: Usage)
    requires WellFormed(u)
    ensures NonNegative(Named(u)) && NonNegative(u.other)
    ensures forall k :: k in UnitsFrom(Named(u), u.other) ==> 0 < UnitsFrom(Named(u), u.other)[k] <= MAX_INT64
  {
    NamedParts(u);
  }

  ghost function UnitsOf(u: Usage): Units
    requires WellFormed(u)
  {
    UnitsInRange(u);
    map k | k in UnitsFrom(Named(u), u.other) :: UnitsFrom(Named(u), u.other)[k] as Amount
  }

  method AddOthers(named: map<UnitKind, int>, other: map<UnitKind, int>, out0: Units) returns (r: Result<Units, Error>)
    requires out0 == UnitsFrom(named, map[]) && forall k :: k in other ==> other[k] <= MAX_INT64
    ensures r.Ok? <==> forall k :: k in other ==> k != "" && other[k] >= 0
    ensures r.Ok? ==> r.value == UnitsFrom(named, other)
  {
    var out: Units := out0;
    var todo := other.Keys;
    ghost var read: map<UnitKind, int> := map[];
    while todo != {}
      invariant todo + read.Keys == other.Keys && todo !! read.Keys
      invariant forall k :: k in read ==> k != "" && 0 <= read[k] == other[k]
      invariant out == UnitsFrom(named, read)
    {
      var k :| k in todo;
      if k == "" { return Err(EmptyUnitKind); }
      if other[k] < 0 { return Err(NegativeUnits); }
      ReadOne(named, read, k, other[k]);
      if other[k] > 0 { out := out[k := other[k]]; }
      read := read[k := other[k]];
      todo := todo - {k};
    }
    assert read == other;
    return Ok(out);
  }

  function NamedUnits(input: Amount, output: Amount, cached: Amount): (out: Units) {
    var out := if input > 0 then map[INPUT := input] else map[];
    var out := if output > 0 then out[OUTPUT := output] else out;
    if cached > 0 then out[CACHED_INPUT := cached] else out
  }

  lemma NamedUnitsAre(u: Usage)
    requires 0 <= u.input <= MAX_INT64 && 0 <= u.output <= MAX_INT64 && 0 <= u.cached <= MAX_INT64
    ensures NamedUnits(u.input, u.output, u.cached) == UnitsFrom(Named(u), map[])
  {
    KindsDiffer();
    ThreeFields(INPUT, OUTPUT, CACHED_INPUT, u.input, u.output, u.cached);
  }

  /** Flattens usage into per-kind units, dropping zeros and rejecting negative counts. */
  method UnitMap(u: Usage) returns (r: Result<Units, Error>)
    requires u.input <= MAX_INT64 && u.output <= MAX_INT64 && u.cached <= MAX_INT64
    requires forall k :: k in u.other ==> u.other[k] <= MAX_INT64
    ensures r.Ok? <==> WellFormed(u)
    ensures r.Ok? ==> r.value == UnitsOf(u)
  {
    if u.input < 0 || u.output < 0 || u.cached < 0 { return Err(NegativeUnits); }
    NamedUnitsAre(u);
    r := AddOthers(Named(u), u.other, NamedUnits(u.input, u.output, u.cached));
  }

  // ---- Main results ----

  /** What is billed under a name: a positive further count of that name, or else the field of that
    * name, or nothing. */
  ghost function BilledAs(u: Usage, name: string): int {
    if name in u.other && u.other[name] > 0 then u.other[name]
    else if name == "input" then u.input else if name == "output" then u.output
    else if name == "cached_input" then u.cached else 0
  }

  lemma UnitsByName(u: Usage, name: string)
    requires WellFormed(u)
    ensures name in UnitsOf(u) <==> BilledAs(u, name) > 0
    ensures name in UnitsOf(u) ==> UnitsOf(u)[name] == BilledAs(u, name)
  {
    NamedParts(u);
  }

  /** Every reported unit is billed exactly when no further kind with a positive count
    * bears the name of a named field that is itself positive. */
  lemma EveryUnitBilledIff(u: Usage)
    requires WellFormed(u)
    ensures Sum(UnitsFrom(Named(u), u.other)) == u.input + u.output + u.cached + Sum(u.other) <==>
            (&& (INPUT in u.other && u.other[INPUT] > 0 ==> u.input == 0)
             && (OUTPUT in u.other && u.other[OUTPUT] > 0 ==> u.output == 0)
             && (CACHED_INPUT in u.other && u.other[CACHED_INPUT] > 0 ==> u.cached == 0))
  {
    UnitsInRange(u);
    NamedParts(u);
    FlattenedTotal(Named(u), u.other);
    ZeroSumIff(Displaced(Named(u), u.other));
    NothingDisplacedIff(Named(u), u.other, INPUT, OUTPUT, CACHED_INPUT);
  }

  lemma NothingDisplacedIff(named: map<UnitKind, int>, other: map<UnitKind, int>, a: UnitKind, b: UnitKind, c: UnitKind)
    requires named.Keys == {a, b, c}
    ensures (forall k :: k in Displaced(named, other) ==> Displaced(named, other)[k] == 0) <==>
            (&& (a in other && other[a] > 0 ==> named[a] == 0)
             && (b in other && other[b] > 0 ==> named[b] == 0)
             && (c in other && other[c] > 0 ==> named[c] == 0))
  {
    var lost := Displaced(named, other);
    assert forall k :: k in lost ==> k in named;
    assert forall k :: k in {a, b, c} && k in other && other[k] > 0 ==> k in lost && lost[k] == named[k];
  }

  /** Any prompt token may come back as cached input, so Execute raises that part of the estimate. */
  function RaisedEstimate(e: Usage): (r: Usage)
    ensures r.input == e.input && r.output == e.output && r.other == e.other
    ensures r.cached >= e.cached && r.cached >= e.input && r.cached in {e.cached, e.input}
  {
    if e.cached < e.input then e.(cached := e.input) else e
  }

  /** A report within the estimate: its input total and its output, and every further kind. */
  ghost predicate WithinEstimate(u: Usage, e: Usage) {
    && u.input + u.cached <= e.input && u.output <= e.output
    && (forall k :: k in u.other && u.other[k] > 0 ==> k in e.other && u.other[k] <= e.other[k])
  }

  /** A further kind that takes the place of a named field states no less than a report may use. */
  predicate KeepsNamed(e: Usage) {
    && (INPUT in e.other && e.other[INPUT] > 0 ==> e.input <= e.other[INPUT])
    && (OUTPUT in e.other && e.other[OUTPUT] > 0 ==> e.output <= e.other[OUTPUT])
    && (CACHED_INPUT in e.other && e.other[CACHED_INPUT] > 0 ==> e.input <= e.other[CACHED_INPUT])
  }

  /** No kind of the report has more units than were reserved for it. */
  ghost predicate Covers(e: Usage, u: Usage)
    requires WellFormed(e) && WellFormed(u)
  {
    forall k :: k in UnitsOf(u) ==> k in UnitsOf(RaisedEstimate(e)) && UnitsOf(u)[k] <= UnitsOf(RaisedEstimate(e))[k]
  }

  /** Whether a usage report can be charged under a snapshot. */
  ghost predicate Chargeable(snap: Snapshot, u: Usage) {
    WellFormed(u) && AllPriced(snap, UnitsOf(u)) && Total(snap, UnitsOf(u)) <= MAX_INT64
  }

  /** An estimate covers every report within it exactly when no further kind understates a named field. */
  lemma EstimateCoversIff(e: Usage)
    requires WellFormed(e)
    ensures (forall u :: WellFormed(u) && WithinEstimate(u, e) ==> Covers(e, u)) <==> KeepsNamed(e)
  {
    if KeepsNamed(e) {
      forall u | WellFormed(u) && WithinEstimate(u, e) ensures Covers(e, u) { RaisedCovers(u, e); }
    } else {
      NamedParts(RaisedEstimate(e));
      if INPUT in e.other && 0 < e.other[INPUT] < e.input {
        NotCovered(Usage(e.input, 0, 0, map[]), e, INPUT);
      } else if OUTPUT in e.other && 0 < e.other[OUTPUT] < e.output {
        NotCovered(Usage(0, e.output, 0, map[]), e, OUTPUT);
      } else {
        NotCovered(Usage(0, 0, e.input, map[]), e, CACHED_INPUT);
      }
    }
  }

  lemma NotCovered(u: Usage, e: Usage, k: UnitKind)
    requires WellFormed(u) && WellFormed(e) && u.other == map[]
    requires k in Named(u) && k in e.other && 0 < e.other[k] < Named(u)[k]
    ensures !Covers(e, u)
  {
    assert UnitsOf(u)[k] == Named(u)[k];
    assert UnitsOf(RaisedEstimate(e))[k] == e.other[k];
  }

  /** A report within such an estimate settles at or below the reserved bound, and can
    * always be charged if the bound could. */
  lemma SettlesWithinBound(snap: Snapshot, u: Usage, e: Usage)
    requires WellFormed(u) && WellFormed(e) && WithinEstimate(u, e) && KeepsNamed(e)
    requires AllPriced(snap, UnitsOf(RaisedEstimate(e)))
    ensures AllPriced(snap, UnitsOf(u))
    ensures Total(snap, UnitsOf(u)) <= Total(snap, UnitsOf(RaisedEstimate(e)))
    ensures Chargeable(snap, RaisedEstimate(e)) ==> Chargeable(snap, u)
  {
    RaisedCovers(u, e);
    TotalMonotone(snap, UnitsOf(u), UnitsOf(RaisedEstimate(e)));
  }

  lemma RaisedCovers(u: Usage, e: Usage)
    requires WellFormed(u) && WellFormed(e) && WithinEstimate(u, e) && KeepsNamed(e)
    ensures WellFormed(RaisedEstimate(e)) && Covers(e, u)
  {
    var bound := RaisedEstimate(e);
    NamedParts(u);
    NamedParts(bound);
    MoreUnits(Named(u), u.other, Named(bound), bound.other);
  }

  lemma MoreUnits(named: map<UnitKind, int>, other: map<UnitKind, int>, named': map<UnitKind, int>, other': map<UnitKind, int>)
    requires named.Keys == named'.Keys && NonNegative(other')
    requires forall k :: k in named ==> named[k] <= StatedIn(named', other', k)
    requires forall k :: k in other && other[k] > 0 ==> k in other' && other[k] <= other'[k]
    ensures forall k :: k in UnitsFrom(named, other) ==>
              k in UnitsFrom(named', other') && UnitsFrom(named, other)[k] <= UnitsFrom(named', other')[k]
  {
  }
}
