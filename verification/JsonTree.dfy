/** Decoded JSON as a tree. An object's fields are kept in the order a walk visits
  * them; a decoded object never has two fields with one key. */
module JsonTree {
  import opened Results

  datatype Json =
    | Null
    | Truth(b: bool)
    | Number(x: real)
    | Text(s: string)
    | List(items: seq<Json>)
    | Object(fields: seq<Field>)

  datatype Field = Field(key: string, value: Json)

  function Lookup(fields: seq<Field>, key: string): Option<Json> {
    if fields == [] then None
    else if fields[0].key == key then Some(fields[0].value)
    else Lookup(fields[1..], key)
  }

  predicate DistinctKeys(fields: seq<Field>) {
    forall i, j :: 0 <= i < j < |fields| ==> fields[i].key != fields[j].key
  }

  lemma {:induction false} LookupFinds(fields: seq<Field>, key: string)
    ensures Lookup(fields, key).None? <==> forall i :: 0 <= i < |fields| ==> fields[i].key != key
    ensures Lookup(fields, key).Some? ==> exists i :: 0 <= i < |fields| && fields[i] == Field(key, Lookup(fields, key).value)
  {
    if fields != [] && fields[0].key != key {
      LookupFinds(fields[1..], key);
      if Lookup(fields, key).Some? {
        var i :| 0 <= i < |fields[1..]| && fields[1..][i] == Field(key, Lookup(fields[1..], key).value);
        assert fields[i + 1] == Field(key, Lookup(fields, key).value);
      } else {
        forall i | 0 <= i < |fields| ensures fields[i].key != key {
          if i > 0 { assert fields[i] == fields[1..][i - 1]; }
        }
      }
    } else if fields != [] {
      assert fields[0] == Field(key, Lookup(fields, key).value);
    }
  }

  /** With distinct keys a field is what a lookup of its key finds. */
  lemma LookupIs(fields: seq<Field>, i: nat)
    requires DistinctKeys(fields) && i < |fields|
    ensures Lookup(fields, fields[i].key) == Some(fields[i].value)
  {
    LookupFinds(fields, fields[i].key);
    var j :| 0 <= j < |fields| && fields[j] == Field(fields[i].key, Lookup(fields, fields[i].key).value);
    assert j == i;
  }
}
