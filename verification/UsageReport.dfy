/** What one provider usage report bills: disjoint input, output and cached units,
  * and every further advertised number. */
module UsageReport {
  import opened Results
  import opened JsonTree
  import opened Charge
  import opened UsageUnits

  /** The smallest integer not below `x`. */
  function Ceil(x: real): (n: int)
    ensures x <= n as real < x + 1.0
  {
    if x.Floor as real == x then x.Floor else x.Floor + 1
  }

  /** A numeric field as whole units, rounded up; anything else counts nothing. */
  function FieldUnits(v: Option<Json>): nat {
    if v.Some? && v.value.Number? && v.value.x > 0.0 then Ceil(v.value.x) else 0
  }

  function UsageObject(env: seq<Field>): Option<seq<Field>> {
    match Lookup(env, "usage")
    case Some(Object(u)) => Some(u)
    case _ => None
  }

  function ReportedInput(u: seq<Field>): nat {
    var n := FieldUnits(Lookup(u, "input_tokens"));
    if n == 0 then FieldUnits(Lookup(u, "prompt_tokens")) else n
  }

  function ReportedOutput(u: seq<Field>): nat {
    var n := FieldUnits(Lookup(u, "output_tokens"));
    if n == 0 then FieldUnits(Lookup(u, "completion_tokens")) else n
  }

  function CachedIn(u: seq<Field>, details: string): nat {
    match Lookup(u, details)
    case Some(Object(d)) => FieldUnits(Lookup(d, "cached_tokens"))
    case _ => 0
  }

  predicate Suffixed(k: string, suffix: string) {
    |k| >= |suffix| && k[|k| - |suffix|..] == suffix
  }

  const CONSUMED: set<string> := {"input_tokens", "prompt_tokens", "output_tokens", "completion_tokens", "total_tokens",
                                  "cached_tokens", "reasoning_tokens"}

  predicate Skipped(k: string) {
    k in CONSUMED || Suffixed(k, "_details")
  }

  ghost function Keys(fields: seq<Field>): set<string> {
    set i | 0 <= i < |fields| :: fields[i].key
  }

  /** The further kinds among `keys` that a report advertises, each with its units. */
  ghost function Advertised(u: seq<Field>, keys: set<string>): map<UnitKind, int> {
    map k | k in keys && !Skipped(k) && FieldUnits(Lookup(u, k)) > 0 :: FieldUnits(Lookup(u, k))
  }

  /** The report in billing's terms: cached input is taken out of the reported input. */
  ghost function Reported(u: seq<Field>): Usage {
    var input := ReportedInput(u);
    var cached := CachedIn(u, "prompt_tokens_details") + CachedIn(u, "input_tokens_details");
    var cached := if cached > input then input else cached;
    Usage(input - cached, ReportedOutput(u), cached, Advertised(u, Keys(u)))
  }

  lemma OneMoreKey(u: seq<Field>, n: nat)
    requires n < |u|
    ensures Keys(u[..n + 1]) == Keys(u[..n]) + {u[n].key}
  {
    assert u[..n + 1] == u[..n] + [u[n]];
    assert u[..n + 1][n] == u[n];
    forall k | k in Keys(u[..n]) ensures k in Keys(u[..n + 1]) {
      var i :| 0 <= i < n && u[..n][i].key == k;
      assert u[..n + 1][i].key == k;
    }
  }

  lemma AdvertisedMore(u: seq<Field>, keys: set<string>, k: string)
    ensures var n := FieldUnits(Lookup(u, k));
            Advertised(u, keys + {k}) == if !Skipped(k) && n > 0 then Advertised(u, keys)[k := n] else Advertised(u, keys)
  {
  }

  method Further(u: seq<Field>) returns (other: map<UnitKind, int>)
    ensures other == Advertised(u, Keys(u))
  {
    other := map[];
    for i := 0 to |u|
      invariant other == Advertised(u, Keys(u[..i]))
    {
      OneMoreKey(u, i);
      AdvertisedMore(u, Keys(u[..i]), u[i].key);
      if !Skipped(u[i].key) {
        var n := FieldUnits(Lookup(u, u[i].key));
        if n > 0 { other := other[u[i].key := n]; }
      }
    }
    assert u[..|u|] == u;
  }

  method FromMap(u: seq<Field>) returns (out: Usage)
    ensures out == Reported(u)
  {
    var input := FieldUnits(Lookup(u, "input_tokens"));
    if input == 0 { input := FieldUnits(Lookup(u, "prompt_tokens")); }
    var output := FieldUnits(Lookup(u, "output_tokens"));
    if output == 0 { output := FieldUnits(Lookup(u, "completion_tokens")); }
    var cached := CachedIn(u, "prompt_tokens_details") + CachedIn(u, "input_tokens_details");
    if cached > input { cached := input; }
    var other := Further(u);
    out := Usage(input - cached, output, cached, other);
  }

  /** Cached input is never billed twice, no advertised number is dropped outside the
    * token fields and their breakdowns, and a fraction of a unit is billed as a whole one. */
  lemma NothingTwiceNothingFree(u: seq<Field>, k: string, x: real)
    ensures Reported(u).input + Reported(u).cached == ReportedInput(u) && Reported(u).input >= 0
    ensures Lookup(u, k) == Some(Number(x)) && x > 0.0 && !Skipped(k) ==>
              k in Reported(u).other && x <= Reported(u).other[k] as real < x + 1.0
    ensures Lookup(u, "input_tokens") == Some(Number(x)) && x > 0.0 ==>
              x <= (Reported(u).input + Reported(u).cached) as real < x + 1.0
    ensures k in Reported(u).other ==> !Skipped(k) && Reported(u).other[k] > 0
  {
    LookupFinds(u, k);
    if Lookup(u, k).Some? {
      var i :| 0 <= i < |u| && u[i] == Field(k, Lookup(u, k).value);
      assert k in Keys(u);
    }
  }

  // ---- The report's own fields ----

  /** A positive number under `key`. */
  predicate Positive(fields: seq<Field>, key: string) {
    Lookup(fields, key).Some? && Lookup(fields, key).value.Number? && Lookup(fields, key).value.x > 0.0
  }

  /** `n` is the number under `key`, rounded up; nothing without a positive one. */
  predicate RoundsUp(n: int, fields: seq<Field>, key: string) {
    if Positive(fields, key) then Lookup(fields, key).value.x <= n as real < Lookup(fields, key).value.x + 1.0 else n == 0
  }

  /** The same for the cached tokens of a breakdown. */
  predicate DetailRoundsUp(n: int, u: seq<Field>, details: string) {
    match Lookup(u, details)
    case Some(Object(d)) => RoundsUp(n, d, "cached_tokens")
    case _ => n == 0
  }

  /** What each field of a report bills: output from output_tokens or else completion_tokens, input
    * from input_tokens or else prompt_tokens, of which as much is cached as both breakdowns say and
    * the input holds, and every other positive number outside the token fields as its own kind. */
  lemma FieldsAreBilled(u: seq<Field>, k: string) returns (fromPrompt: int, fromInput: int)
    ensures DetailRoundsUp(fromPrompt, u, "prompt_tokens_details") && DetailRoundsUp(fromInput, u, "input_tokens_details")
    ensures var r := Reported(u);
            && RoundsUp(r.output, u, if Positive(u, "output_tokens") then "output_tokens" else "completion_tokens")
            && RoundsUp(r.input + r.cached, u, if Positive(u, "input_tokens") then "input_tokens" else "prompt_tokens")
            && r.cached == (if fromPrompt + fromInput < r.input + r.cached then fromPrompt + fromInput else r.input + r.cached)
            && (k in r.other <==>
                  && Positive(u, k)
                  && k !in {"input_tokens", "prompt_tokens", "output_tokens", "completion_tokens", "total_tokens",
                            "cached_tokens", "reasoning_tokens"}
                  && !(|k| >= |"_details"| && k[|k| - |"_details"|..] == "_details"))
            && (k in r.other ==> RoundsUp(r.other[k], u, k))
  {
    fromPrompt, fromInput := CachedIn(u, "prompt_tokens_details"), CachedIn(u, "input_tokens_details");
    CeilPositive(u, "output_tokens");
    CeilPositive(u, "input_tokens");
    LookupFinds(u, k);
    if Lookup(u, k).Some? {
      var i :| 0 <= i < |u| && u[i] == Field(k, Lookup(u, k).value);
      assert k in Keys(u);
    }
  }

  lemma CeilPositive(u: seq<Field>, key: string)
    ensures FieldUnits(Lookup(u, key)) > 0 <==> Positive(u, key)
  {
  }

  /** A report whose input total, output and further numbers stay within the caller's
    * estimate settles at or below the bound reserved for it. */
  lemma ReportSettlesWithinBound(snap: Snapshot, u: seq<Field>, e: Usage)
    requires WellFormed(e) && AllPriced(snap, UnitsOf(RaisedEstimate(e)))
    requires ReportedInput(u) <= e.input && ReportedOutput(u) <= e.output
    requires forall k :: k in Reported(u).other ==> k in e.other && Reported(u).other[k] <= e.other[k]
    requires KeepsNamed(e)
    ensures WellFormed(Reported(u)) && AllPriced(snap, UnitsOf(Reported(u)))
    ensures Total(snap, UnitsOf(Reported(u))) <= Total(snap, UnitsOf(RaisedEstimate(e)))
    ensures Chargeable(snap, RaisedEstimate(e)) ==> Chargeable(snap, Reported(u))
  {
    SettlesWithinBound(snap, Reported(u), e);
  }

  /** usageFromJSON: the report at top level, under "response", or the lone count of an
    * input_tokens answer. Without one the outcome is unknown, never zero. */
  function FindReport(env: seq<Field>): Option<seq<Field>> {
    match UsageObject(env)
    case Some(u) => Some(u)
    case None =>
      var nested := match Lookup(env, "response")
                    case Some(Object(r)) => UsageObject(r)
                    case _ => None;
      if nested.Some? then nested
      else if Lookup(env, "object") == Some(Text("response.input_tokens")) then
        match Lookup(env, "input_tokens")
        case Some(v) => Some([Field("input_tokens", v)])
        case None => Some([Field("input_tokens", Null)])
      else None
  }

  /** json.Unmarshal, about which nothing is known but that it is a function. */
  type Decoder = string -> Option<Json>

  ghost function UsageOf(decode: Decoder, raw: string): Option<Usage> {
    match decode(raw)
    case Some(Object(env)) => (match FindReport(env) case Some(u) => Some(Reported(u)) case None => None)
    case _ => None
  }

  predicate HoldsObject(env: seq<Field>, key: string) {
    Lookup(env, key).Some? && Lookup(env, key).value.Object?
  }

  /** An outcome is known exactly when the answer holds a usage object, at top level or in its
    * response, or is the answer to a token count. The first of these that it has is billed; a
    * count bills its number as input and nothing besides. */
  lemma KnownIff(decode: Decoder, raw: string, env: seq<Field>)
    requires decode(raw) == Some(Object(env))
    ensures var nested := HoldsObject(env, "response") && HoldsObject(Lookup(env, "response").value.fields, "usage");
            var counted := Lookup(env, "object") == Some(Text("response.input_tokens"));
            && (UsageOf(decode, raw).Some? <==> HoldsObject(env, "usage") || nested || counted)
            && (HoldsObject(env, "usage") ==> UsageOf(decode, raw) == Some(Reported(Lookup(env, "usage").value.fields)))
            && (!HoldsObject(env, "usage") && nested ==>
                  UsageOf(decode, raw) == Some(Reported(Lookup(Lookup(env, "response").value.fields, "usage").value.fields)))
            && (!HoldsObject(env, "usage") && !nested && counted ==>
                  UsageOf(decode, raw) == Some(Usage(FieldUnits(Lookup(env, "input_tokens")), 0, 0, map[])))
  {
    LoneCount(if Lookup(env, "input_tokens").Some? then Lookup(env, "input_tokens").value else Null);
  }

  /** Anything but an object tells nothing. */
  lemma OnlyObjectsAreKnown(decode: Decoder, raw: string)
    requires !(decode(raw).Some? && decode(raw).value.Object?)
    ensures UsageOf(decode, raw) == None
  {
  }

  lemma LoneCount(v: Json)
    ensures Reported([Field("input_tokens", v)]) == Usage(FieldUnits(Some(v)), 0, 0, map[])
  {
    var u := [Field("input_tokens", v)];
    assert u[0].key == "input_tokens" && u[1..] == [];
    var others := ["prompt_tokens", "output_tokens", "completion_tokens", "prompt_tokens_details", "input_tokens_details"];
    assert |"input_tokens"| == 12 && |others[0]| == 13 && |others[1]| == 13 && |others[2]| == 17 && |others[3]| == 21 && |others[4]| == 20;
    assert Lookup(u, "input_tokens") == Some(v);
    forall i | 0 <= i < 5 ensures Lookup(u, others[i]) == None { assert others[i] != "input_tokens"; }
    assert Lookup(u, others[0]) == None && Lookup(u, others[1]) == None && Lookup(u, others[2]) == None;
    assert Lookup(u, others[3]) == None && Lookup(u, others[4]) == None;
    assert Advertised(u, Keys(u)) == map[];
  }

  method FromJson(decode: Decoder, raw: string) returns (usage: Option<Usage>)
    ensures usage == UsageOf(decode, raw)
  {
    match decode(raw) {
      case Some(Object(env)) =>
        match FindReport(env) {
          case Some(u) =>
            var out := FromMap(u);
            return Some(out);
          case None => return None;
        }
      case _ => return None;
    }
  }
}
