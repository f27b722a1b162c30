/** Public names for upstream references: the binding table, and the walks that put public
  * ids into answers and upstream ids back into requests. */
module ResponseBindings {
  import opened Results
  import opened JsonTree

  datatype Kind = ResponseKind | ItemKind

  /** One row of a tenant's table; a deleted row stays, inactive. */
  datatype Binding = Binding(kind: Kind, endpoint: string, owner: string, delegatedBy: string, upstream: string, parent: string,
                             active: bool)

  /** Rows by public id. */
  type Table = map<string, Binding>

  predicate Matches(b: Binding, endpoint: string, parent: string, upstream: string) {
    b.endpoint == endpoint && b.parent == parent && b.upstream == upstream
  }

  /** The table's constraints: one row per endpoint, parent and upstream id, and no blank columns. */
  ghost predicate TableOk(t: Table) {
    && (forall p, q :: p in t && q in t && Matches(t[p], t[q].endpoint, t[q].parent, t[q].upstream) ==> p == q)
    && (forall p :: p in t ==> p != "" && t[p].endpoint != "" && t[p].upstream != "")
  }

  /** Rows are never taken away or changed while answers are rewritten. */
  ghost predicate Grows(t: Table, u: Table) {
    forall p :: p in t ==> p in u && u[p] == t[p]
  }

  ghost predicate BoundUnder(t: Table, endpoint: string, parent: string, upstream: string) {
    exists p :: p in t && Matches(t[p], endpoint, parent, upstream)
  }

  /** `p` is a stored public id for `upstream` on the endpoint. */
  predicate Refers(t: Table, endpoint: string, p: string, upstream: string) {
    p in t && t[p].endpoint == endpoint && t[p].upstream == upstream
  }

  /** The row of an upstream reference; deleted rows are still found. */
  function GetByUpstream(t: Table, endpoint: string, parent: string, upstream: string): (r: Option<string>)
    requires TableOk(t)
    ensures r.Some? ==> r.value in t && Matches(t[r.value], endpoint, parent, upstream)
    ensures r.None? ==> !BoundUnder(t, endpoint, parent, upstream)
  {
    if exists p :: p in t && Matches(t[p], endpoint, parent, upstream) then
      var p :| p in t && Matches(t[p], endpoint, parent, upstream);
      Some(p)
    else None
  }

  datatype BindOutcome = Stored(p: string) | Taken | Refused

  /** Inserts a row unless its reference has one, which is then returned instead. */
  method Bind(t: Table, p: string, b: Binding) returns (u: Table, r: BindOutcome)
    requires TableOk(t)
    ensures TableOk(u) && Grows(t, u)
    ensures r.Stored? ==> r.p in u && Matches(u[r.p], b.endpoint, b.parent, b.upstream)
    ensures r.Stored? && !BoundUnder(t, b.endpoint, b.parent, b.upstream) ==> r.p == p && p !in t && u == t[p := b]
    ensures BoundUnder(t, b.endpoint, b.parent, b.upstream) || !r.Stored? ==> u == t
    ensures var blank := p == "" || b.endpoint == "" || b.owner == "" || b.upstream == "";
            && (r.Refused? <==> blank)
            && (r.Taken? <==> !blank && p in t && !BoundUnder(t, b.endpoint, b.parent, b.upstream))
  {
    if p == "" || b.endpoint == "" || b.owner == "" || b.upstream == "" { return t, Refused; }
    var existing := GetByUpstream(t, b.endpoint, b.parent, b.upstream);
    if existing.Some? { return t, Stored(existing.value); }
    if p in t { return t, Taken; }
    return t[p := b], Stored(p);
  }

  // ---- What the outbound walk promises ----

  predicate NonEmptyText(v: Json) {
    v.Text? && v.s != ""
  }

  predicate RefKey(k: string) {
    k == "first_id" || k == "last_id" || k == "item_id" || k == "response_id"
  }

  predicate ItemKey(k: string) {
    k == "first_id" || k == "last_id" || k == "item_id"
  }

  /** Which fields may be missing from the answer: a conversation, and a previous response
    * that is no text or was not bound before. */
  ghost predicate MayDrop(t0: Table, endpoint: string, f: Field) {
    || f.key == "conversation"
    || (f.key == "previous_response_id" && !(NonEmptyText(f.value) && BoundUnder(t0, endpoint, "", f.value.s)))
  }

  /** `v` is a stored public id for the text in the field, and has no parent if it names a response. */
  predicate Renamed(t: Table, endpoint: string, f: Field, response: bool, v: Json) {
    NonEmptyText(f.value) && v.Text? && Refers(t, endpoint, v.s, f.value.s) && (response ==> t[v.s].parent == "")
  }

  /** `out` is `node` with every reference renamed and upstream state dropped. `t0` is the
    * table before, `t` the table after. */
  ghost predicate Corresponds(t0: Table, t: Table, endpoint: string, node: Json, out: Json)
    decreases node, if node.Object? then |node.fields| + 1 else 0
  {
    match node
    case Object(fields) => out.Object? && FieldsCorrespond(t0, t, endpoint, node, |fields|, out.fields)
    case List(items) =>
      out.List? && |out.items| == |items|
      && forall i :: 0 <= i < |items| ==> Corresponds(t0, t, endpoint, items[i], out.items[i])
    case _ => out == node
  }

  ghost predicate FieldsCorrespond(t0: Table, t: Table, endpoint: string, node: Json, n: nat, out: seq<Field>)
    requires node.Object? && n <= |node.fields|
    decreases node, n
  {
    if n == 0 then out == []
    else
      var f := node.fields[n - 1];
      || (MayDrop(t0, endpoint, f) && FieldsCorrespond(t0, t, endpoint, node, n - 1, out))
      || (&& out != [] && out[|out| - 1].key == f.key && FieldCorresponds(t0, t, endpoint, node, n - 1, out[|out| - 1].value)
          && FieldsCorrespond(t0, t, endpoint, node, n - 1, out[..|out| - 1]))
  }

  /** What a field's value may become when the field stays. */
  ghost predicate FieldCorresponds(t0: Table, t: Table, endpoint: string, node: Json, i: nat, v: Json)
    requires node.Object? && i < |node.fields|
    decreases node, 0
  {
    var f := node.fields[i];
    && f.key != "conversation"
    && (if f.key == "previous_response_id" then Renamed(t, endpoint, f, true, v)
        else if f.key == "id" then Renamed(t, endpoint, f, IsResponse(node.fields), v) || (!NonEmptyText(f.value) && v == f.value)
        else if RefKey(f.key) && NonEmptyText(f.value) then Renamed(t, endpoint, f, f.key == "response_id", v)
        else Corresponds(t0, t, endpoint, f.value, v))
  }

  /** A walk that began later, or a table that has grown since, makes no difference. */
  lemma {:induction false} CorrespondsLater(s0: Table, s: Table, t0: Table, t: Table, endpoint: string, node: Json, out: Json)
    requires Grows(t0, s0) && Grows(s, t) && Corresponds(s0, s, endpoint, node, out)
    ensures Corresponds(t0, t, endpoint, node, out)
    decreases node, if node.Object? then |node.fields| + 1 else 0
  {
    match node
    case Object(fields) => FieldsCorrespondLater(s0, s, t0, t, endpoint, node, |fields|, out.fields);
    case List(items) =>
      forall i | 0 <= i < |items| ensures Corresponds(t0, t, endpoint, items[i], out.items[i]) {
        CorrespondsLater(s0, s, t0, t, endpoint, items[i], out.items[i]);
      }
    case _ =>
  }

  lemma {:induction false} FieldsCorrespondLater(s0: Table, s: Table, t0: Table, t: Table, endpoint: string, node: Json, n: nat,
                                                 out: seq<Field>)
    requires Grows(t0, s0) && Grows(s, t)
    requires node.Object? && n <= |node.fields| && FieldsCorrespond(s0, s, endpoint, node, n, out)
    ensures FieldsCorrespond(t0, t, endpoint, node, n, out)
    decreases node, n
  {
    if n > 0 {
      var f := node.fields[n - 1];
      if MayDrop(s0, endpoint, f) && FieldsCorrespond(s0, s, endpoint, node, n - 1, out) {
        DropsLater(s0, t0, endpoint, f);
        FieldsCorrespondLater(s0, s, t0, t, endpoint, node, n - 1, out);
      } else {
        FieldCorrespondsLater(s0, s, t0, t, endpoint, node, n - 1, out[|out| - 1].value);
        FieldsCorrespondLater(s0, s, t0, t, endpoint, node, n - 1, out[..|out| - 1]);
      }
    }
  }

  lemma {:induction false} FieldCorrespondsLater(s0: Table, s: Table, t0: Table, t: Table, endpoint: string, node: Json, i: nat, v: Json)
    requires Grows(t0, s0) && Grows(s, t)
    requires node.Object? && i < |node.fields| && FieldCorresponds(s0, s, endpoint, node, i, v)
    ensures FieldCorresponds(t0, t, endpoint, node, i, v)
    decreases node, 0
  {
    var f := node.fields[i];
    if !(f.key == "previous_response_id" || f.key == "id" || (RefKey(f.key) && NonEmptyText(f.value))) {
      CorrespondsLater(s0, s, t0, t, endpoint, f.value, v);
    }
  }

  lemma DropsLater(s0: Table, t0: Table, endpoint: string, f: Field)
    requires Grows(t0, s0) && MayDrop(s0, endpoint, f)
    ensures MayDrop(t0, endpoint, f)
  {
  }

  /** Decoded objects have no key twice. */
  ghost predicate Decoded(node: Json) {
    match node
    case Object(fields) => DistinctKeys(fields) && forall i :: 0 <= i < |fields| ==> Decoded(fields[i].value)
    case List(items) => forall i :: 0 <= i < |items| ==> Decoded(items[i])
    case _ => true
  }

  // ---- The outbound walk ----

  predicate Starts(s: string, prefix: string) {
    prefix <= s
  }

  predicate IsResponse(fields: seq<Field>) {
    || (match Lookup(fields, "object") case Some(Text(o)) => Starts(o, "response") case _ => false)
    || (match Lookup(fields, "type") case Some(Text(t)) => Starts(t, "response.") case _ => false)
  }

  // ---- Where an item is stored ----

  /** The public id under which the items of an object stand: its own if it is a response with an id. */
  ghost predicate InnerScope(t: Table, endpoint: string, fields: seq<Field>, scope: string, q: string) {
    match Lookup(fields, "id")
    case Some(v) =>
      if IsResponse(fields) && NonEmptyText(v) then q in t && Matches(t[q], endpoint, "", v.s) else q == scope
    case None => q == scope
  }

  /** Item `s` is named in the value where the nearest response around it is `parent`; outside any
    * response the walk takes the last one it saw, which is left open. */
  ghost predicate Occurs(t: Table, endpoint: string, node: Json, scope: string, s: string, parent: string)
    decreases node, if node.Object? then |node.fields| + 1 else 0
  {
    match node
    case Object(fields) =>
      || (!IsResponse(fields) && Lookup(fields, "id") == Some(Text(s)) && (scope == "" || parent == scope))
      || exists q, i :: InnerScope(t, endpoint, fields, scope, q) && 0 <= i < |fields| && FieldOccurs(t, endpoint, node, i, q, s, parent)
    case List(items) => exists i :: 0 <= i < |items| && Occurs(t, endpoint, items[i], scope, s, parent)
    case _ => false
  }

  ghost predicate FieldOccurs(t: Table, endpoint: string, node: Json, i: nat, q: string, s: string, parent: string)
    requires node.Object? && i < |node.fields|
    decreases node, 0
  {
    var f := node.fields[i];
    if f.key == "id" || f.key == "conversation" || f.key == "previous_response_id" then false
    else if RefKey(f.key) && NonEmptyText(f.value) then f.key != "response_id" && f.value.s == s && (q == "" || parent == q)
    else Occurs(t, endpoint, f.value, q, s, parent)
  }

  ghost predicate NewItem(t0: Table, t: Table, p: string) {
    p in t && p !in t0 && t[p].kind == ItemKind
  }

  /** Every item row that came in is for an item of the value, under the response around it. */
  ghost predicate Accounts(t0: Table, t: Table, endpoint: string, node: Json, scope: string) {
    forall p :: NewItem(t0, t, p) ==> Occurs(t, endpoint, node, scope, t[p].upstream, t[p].parent)
  }

  ghost predicate FieldAccounts(t0: Table, t: Table, endpoint: string, node: Json, i: nat, q: string)
    requires node.Object? && i < |node.fields|
  {
    forall p :: NewItem(t0, t, p) ==> FieldOccurs(t, endpoint, node, i, q, t[p].upstream, t[p].parent)
  }

  ghost predicate FieldsAccount(t0: Table, t: Table, endpoint: string, node: Json, n: nat, q: string)
    requires node.Object? && n <= |node.fields|
  {
    forall p :: NewItem(t0, t, p) ==> exists i :: 0 <= i < n && FieldOccurs(t, endpoint, node, i, q, t[p].upstream, t[p].parent)
  }

  ghost predicate ItemsAccount(t0: Table, t: Table, endpoint: string, node: Json, n: nat, scope: string)
    requires node.List? && n <= |node.items|
  {
    forall p :: NewItem(t0, t, p) ==> exists i :: 0 <= i < n && Occurs(t, endpoint, node.items[i], scope, t[p].upstream, t[p].parent)
  }

  ghost predicate OwnAccounts(t0: Table, t: Table, fields: seq<Field>, scope: string) {
    forall p :: NewItem(t0, t, p) ==>
      !IsResponse(fields) && Lookup(fields, "id") == Some(Text(t[p].upstream)) && (scope == "" || t[p].parent == scope)
  }

  /** A table that has grown since names the same responses. */
  lemma {:induction false} OccursLater(t: Table, u: Table, endpoint: string, node: Json, scope: string, s: string, parent: string)
    requires Grows(t, u) && Occurs(t, endpoint, node, scope, s, parent)
    ensures Occurs(u, endpoint, node, scope, s, parent)
    decreases node, if node.Object? then |node.fields| + 1 else 0
  {
    match node
    case Object(fields) =>
      if !(!IsResponse(fields) && Lookup(fields, "id") == Some(Text(s)) && (scope == "" || parent == scope)) {
        var q, i :| InnerScope(t, endpoint, fields, scope, q) && 0 <= i < |fields| && FieldOccurs(t, endpoint, node, i, q, s, parent);
        FieldOccursLater(t, u, endpoint, node, i, q, s, parent);
        assert InnerScope(u, endpoint, fields, scope, q);
      }
    case List(items) =>
      var i :| 0 <= i < |items| && Occurs(t, endpoint, items[i], scope, s, parent);
      OccursLater(t, u, endpoint, items[i], scope, s, parent);
    case _ =>
  }

  lemma {:induction false} FieldOccursLater(t: Table, u: Table, endpoint: string, node: Json, i: nat, q: string, s: string, parent: string)
    requires node.Object? && i < |node.fields| && Grows(t, u) && FieldOccurs(t, endpoint, node, i, q, s, parent)
    ensures FieldOccurs(u, endpoint, node, i, q, s, parent)
    decreases node, 0
  {
    var f := node.fields[i];
    if !(RefKey(f.key) && NonEmptyText(f.value)) { OccursLater(t, u, endpoint, f.value, q, s, parent); }
  }

  lemma ItemsAccountMore(t0: Table, t: Table, u: Table, endpoint: string, node: Json, n: nat, scope: string, m: nat)
    requires node.List? && n < m == n + 1 <= |node.items| && Grows(t0, t) && Grows(t, u)
    requires ItemsAccount(t0, t, endpoint, node, n, scope) && Accounts(t, u, endpoint, node.items[n], scope)
    ensures ItemsAccount(t0, u, endpoint, node, m, scope)
  {
    forall p | NewItem(t0, u, p)
      ensures exists i :: 0 <= i < m && Occurs(u, endpoint, node.items[i], scope, u[p].upstream, u[p].parent)
    {
      if p in t {
        assert NewItem(t0, t, p);
        var i :| 0 <= i < n && Occurs(t, endpoint, node.items[i], scope, t[p].upstream, t[p].parent);
        OccursLater(t, u, endpoint, node.items[i], scope, t[p].upstream, t[p].parent);
      } else {
        assert NewItem(t, u, p);
      }
    }
  }

  lemma FieldsAccountMore(t0: Table, t: Table, u: Table, endpoint: string, node: Json, n: nat, q: string, m: nat)
    requires node.Object? && n < m == n + 1 <= |node.fields| && Grows(t0, t) && Grows(t, u)
    requires FieldsAccount(t0, t, endpoint, node, n, q) && FieldAccounts(t, u, endpoint, node, n, q)
    ensures FieldsAccount(t0, u, endpoint, node, m, q)
  {
    forall p | NewItem(t0, u, p)
      ensures exists i :: 0 <= i < m && FieldOccurs(u, endpoint, node, i, q, u[p].upstream, u[p].parent)
    {
      if p in t {
        assert NewItem(t0, t, p);
        var i :| 0 <= i < n && FieldOccurs(t, endpoint, node, i, q, t[p].upstream, t[p].parent);
        FieldOccursLater(t, u, endpoint, node, i, q, t[p].upstream, t[p].parent);
      } else {
        assert NewItem(t, u, p);
      }
    }
  }

  /** An object's own id, and then its fields under the scope it makes. */
  lemma ObjectAccounts(t0: Table, t: Table, u: Table, endpoint: string, node: Json, scope: string, q: string)
    requires node.Object? && Grows(t0, t) && Grows(t, u) && InnerScope(t, endpoint, node.fields, scope, q)
    requires OwnAccounts(t0, t, node.fields, scope) && FieldsAccount(t, u, endpoint, node, |node.fields|, q)
    ensures Accounts(t0, u, endpoint, node, scope)
  {
    assert InnerScope(u, endpoint, node.fields, scope, q);
    forall p | NewItem(t0, u, p) ensures Occurs(u, endpoint, node, scope, u[p].upstream, u[p].parent) {
      if p in t {
        assert NewItem(t0, t, p);
      } else {
        assert NewItem(t, u, p);
        var i :| 0 <= i < |node.fields| && FieldOccurs(u, endpoint, node, i, q, u[p].upstream, u[p].parent);
      }
    }
  }

  datatype Fault = CouldNotBind

  /** Remembered public ids are stored ones, and those of responses have no parent. */
  ghost predicate CacheOk(t: Table, endpoint: string, cache: map<string, string>, responses: bool) {
    forall s :: s in cache ==> Refers(t, endpoint, cache[s], s) && (responses ==> t[cache[s]].parent == "")
  }

  lemma CacheLater(t: Table, u: Table, endpoint: string, cache: map<string, string>, responses: bool)
    requires Grows(t, u) && CacheOk(t, endpoint, cache, responses)
    ensures CacheOk(u, endpoint, cache, responses)
  {
  }

  class ResponseRewriter {
    const actor: string
    const delegatedBy: string
    const endpoint: string
    /** The ids the random source gives, in order. */
    const newId: (Kind, nat) -> string
    var drawn: nat
    var table: Table
    var item2pub: map<string, string>
    var resp2pub: map<string, string>
    var lastResp: string

    ghost predicate Valid()
      reads this
    {
      TableOk(table) && CacheOk(table, endpoint, item2pub, false) && CacheOk(table, endpoint, resp2pub, true) && Known(lastResp)
    }

    /** Nobody, or a public id that is stored. */
    predicate Known(p: string)
      reads this
    {
      p == "" || p in table
    }

    /** A row this walk stores: the caller's own, active, on this endpoint; a response without
      * a parent, an item under none or under a stored one. */
    predicate OwnRow(b: Binding)
      reads this
    {
      && b.owner == actor && b.delegatedBy == delegatedBy && b.endpoint == endpoint && b.active
      && Known(b.parent) && (b.kind == ResponseKind ==> b.parent == "")
    }

    /** Rows only came in, and those that did are this walk's own. */
    ghost predicate Extends(t0: Table)
      reads this
    {
      Grows(t0, table) && forall p :: p in table && p !in t0 ==> OwnRow(table[p])
    }

    constructor (actor: string, delegatedBy: string, endpoint: string, newId: (Kind, nat) -> string, table: Table)
      requires TableOk(table)
      ensures Valid() && this.table == table && this.endpoint == endpoint && this.actor == actor
      ensures this.delegatedBy == delegatedBy && this.newId == newId && drawn == 0 && lastResp == ""
    {
      this.actor, this.delegatedBy, this.endpoint, this.newId, this.table := actor, delegatedBy, endpoint, newId, table;
      drawn, item2pub, resp2pub, lastResp := 0, map[], map[], "";
    }

    method Remember(response: bool, upstream: string, p: string)
      requires Valid() && Refers(table, endpoint, p, upstream) && (response ==> table[p].parent == "")
      modifies `item2pub, `resp2pub
      ensures Valid() && Seen(response) == old(Seen(response))[upstream := p] && Seen(!response) == old(Seen(!response))
    {
      if response { resp2pub := resp2pub[upstream := p]; } else { item2pub := item2pub[upstream := p]; }
    }

    function NewRow(upstream: string, response: bool, parent: string): Binding {
      Binding(if response then ResponseKind else ItemKind, endpoint, actor, delegatedBy, upstream, parent, true)
    }

    /** No row can be stored: a column is blank, or one of four ids drawn in a row is, or all four are in use. */
    ghost predicate Unlucky(response: bool, n: nat)
      reads this
    {
      var kind := if response then ResponseKind else ItemKind;
      || actor == "" || endpoint == "" || newId(kind, n) == "" || newId(kind, n + 1) == "" || newId(kind, n + 2) == ""
      || newId(kind, n + 3) == ""
      || (newId(kind, n) in table && newId(kind, n + 1) in table && newId(kind, n + 2) in table && newId(kind, n + 3) in table)
    }

    /** The only reason for a walk to fail. */
    ghost predicate OutOfIds()
      reads this
    {
      exists response, n :: Unlucky(response, n)
    }

    /** Responses have no parent; an item stands under the response around it, or the last one seen. */
    function ParentOf(response: bool, respParent: string): string
      reads this
    {
      if response then "" else if respParent == "" then lastResp else respParent
    }

    function Seen(response: bool): map<string, string>
      reads this
    {
      if response then resp2pub else item2pub
    }

    /** Draws one id and tries to store it for the reference. */
    method MintOnce(upstream: string, response: bool, parent: string) returns (outcome: BindOutcome)
      requires Valid() && upstream != "" && Known(parent) && (response ==> parent == "")
      modifies `drawn, `table
      ensures Valid() && Extends(old(table)) && drawn == old(drawn) + 1
      ensures var p := newId(if response then ResponseKind else ItemKind, old(drawn));
              && (outcome.Refused? <==> p == "" || endpoint == "" || actor == "")
              && (outcome.Taken? ==> p in table)
              && (!outcome.Stored? || BoundUnder(old(table), endpoint, parent, upstream) ==> table == old(table))
              && (outcome.Stored? ==> outcome.p in table && Matches(table[outcome.p], endpoint, parent, upstream))
              && (outcome.Stored? && !BoundUnder(old(table), endpoint, parent, upstream) ==>
                    outcome.p == p && p !in old(table) && table == old(table)[p := NewRow(upstream, response, parent)])
    {
      var p := newId(if response then ResponseKind else ItemKind, drawn);
      drawn := drawn + 1;
      var t;
      t, outcome := Bind(table, p, NewRow(upstream, response, parent));
      CacheLater(table, t, endpoint, item2pub, false);
      CacheLater(table, t, endpoint, resp2pub, true);
      table := t;
    }

    /** Draws an id and stores it for the reference; an id in use is replaced, four times at most. */
    method Mint(upstream: string, response: bool, parent: string) returns (r: Result<string, Fault>)
      requires Valid() && upstream != "" && Known(parent) && (response ==> parent == "")
      modifies `drawn, `table
      ensures Valid() && Extends(old(table))
      ensures r.Ok? ==> r.value in table && Matches(table[r.value], endpoint, parent, upstream)
      ensures r.Ok? && !BoundUnder(old(table), endpoint, parent, upstream) ==>
                && r.value !in old(table)
                && table == old(table)[r.value := Binding(if response then ResponseKind else ItemKind, endpoint, actor, delegatedBy,
                                                          upstream, parent, true)]
      ensures r.Ok? && BoundUnder(old(table), endpoint, parent, upstream) ==> table == old(table)
      ensures r.Err? ==> table == old(table) && Unlucky(response, old(drawn))
    {
      ghost var kind := if response then ResponseKind else ItemKind;
      for tries := 0 to 4
        invariant Valid() && table == old(table) && drawn == old(drawn) + tries
        invariant tries > 0 ==> newId(kind, old(drawn)) in table
        invariant tries > 1 ==> newId(kind, old(drawn) + 1) in table
        invariant tries > 2 ==> newId(kind, old(drawn) + 2) in table
        invariant tries > 3 ==> newId(kind, old(drawn) + 3) in table
      {
        var outcome := MintOnce(upstream, response, parent);
        if outcome.Stored? { return Ok(outcome.p); }
        if outcome.Refused? { return Err(CouldNotBind); }
      }
      return Err(CouldNotBind);
    }

    /** The public id of an upstream id: remembered, stored, or minted and stored now. */
    method PublicFor(upstream: string, response: bool, respParent: string) returns (r: Result<string, Fault>)
      requires Valid() && upstream != "" && Known(respParent)
      modifies `drawn, `table, `item2pub, `resp2pub
      ensures Valid() && Extends(old(table))
      ensures r.Ok? ==> Refers(table, endpoint, r.value, upstream) && (response ==> table[r.value].parent == "")
      ensures r.Err? ==> OutOfIds()
      ensures upstream in old(Seen(response)) ==> r == Ok(old(Seen(response))[upstream]) && table == old(table)
      ensures r.Ok? && upstream !in old(Seen(response)) ==>
                var parent := old(ParentOf(response, respParent));
                && Seen(response) == old(Seen(response))[upstream := r.value]
                && (if BoundUnder(old(table), endpoint, parent, upstream)
                    then table == old(table) && Matches(table[r.value], endpoint, parent, upstream)
                    else r.value !in old(table) && table == old(table)[r.value := NewRow(upstream, response, parent)])
    {
      var parent := ParentOf(response, respParent);
      var known := Seen(response);
      if upstream in known { return Ok(known[upstream]); }
      var stored := GetByUpstream(table, endpoint, parent, upstream);
      if stored.Some? {
        Remember(response, upstream, stored.value);
        return Ok(stored.value);
      }
      ghost var n := drawn;
      r := Mint(upstream, response, parent);
      if r.Err? { assert Unlucky(response, n); }
      if r.Ok? { Remember(response, upstream, r.value); }
    }

    /** The remembered or stored public id of a previous response. */
    method KnownResponse(upstream: string) returns (r: Option<string>)
      requires Valid()
      ensures r.Some? ==> r.value in table && Matches(table[r.value], endpoint, "", upstream)
      ensures r.None? ==> !BoundUnder(table, endpoint, "", upstream)
    {
      if upstream in resp2pub { return Some(resp2pub[upstream]); }
      r := GetByUpstream(table, endpoint, "", upstream);
    }

    /** A whole decoded value, with the references in it renamed. */
    method RewriteNode(node: Json, respParent: string) returns (r: Result<Json, Fault>)
      requires Valid() && Known(respParent) && Decoded(node)
      modifies this
      ensures Valid() && Extends(old(table))
      ensures r.Ok? ==> Corresponds(old(table), table, endpoint, node, r.value)
      ensures r.Ok? ==> Accounts(old(table), table, endpoint, node, respParent)
      ensures r.Err? ==> OutOfIds()
      decreases node, 4
    {
      match node {
        case Object(fields) => r := RewriteObject(node, respParent);
        case List(items) => r := RewriteItems(node, respParent);
        case _ => return Ok(node);
      }
    }

    method RewriteItems(node: Json, respParent: string) returns (r: Result<Json, Fault>)
      requires Valid() && Known(respParent) && Decoded(node) && node.List?
      modifies this
      ensures Valid() && Extends(old(table))
      ensures r.Ok? ==> Corresponds(old(table), table, endpoint, node, r.value)
      ensures r.Ok? ==> Accounts(old(table), table, endpoint, node, respParent)
      ensures r.Err? ==> OutOfIds()
      decreases node, 1
    {
      var out: seq<Json> := [];
      ghost var t0 := table;
      for i := 0 to |node.items|
        invariant Valid() && Extends(t0) && |out| == i
        invariant ItemsAccount(t0, table, endpoint, node, i, respParent)
        invariant forall k :: 0 <= k < i ==> Corresponds(t0, table, endpoint, node.items[k], out[k])
      {
        ghost var t := table;
        var item := RewriteNode(node.items[i], respParent);
        if item.Err? { return item; }
        forall k | 0 <= k < i ensures Corresponds(t0, table, endpoint, node.items[k], out[k]) {
          CorrespondsLater(t0, t, t0, table, endpoint, node.items[k], out[k]);
        }
        CorrespondsLater(t, table, t0, table, endpoint, node.items[i], item.value);
        ItemsAccountMore(t0, t, table, endpoint, node, i, respParent, i + 1);
        out := out + [item.value];
      }
      return Ok(List(out));
    }

    /** The item `upstream` keeps the public id it was remembered by, or has one under this parent. */
    predicate StandsUnder(remembered: map<string, string>, upstream: string, parent: string, p: string)
      reads this
    {
      if upstream in remembered then p == remembered[upstream] else p in table && table[p].parent == parent
    }

    /** One field; `own` is the public id of the object's own id. Nothing means the field is dropped. */
    method RewriteField(node: Json, i: nat, own: Option<string>, respParent: string) returns (r: Result<Option<Json>, Fault>)
      requires Valid() && Known(respParent) && Decoded(node) && node.Object? && i < |node.fields|
      requires node.fields[i].key == "id" ==>
                 match own
                 case Some(p) => Renamed(table, endpoint, node.fields[i], IsResponse(node.fields), Text(p))
                 case None => !NonEmptyText(node.fields[i].value)
      modifies this
      ensures Valid() && Extends(old(table))
      ensures r.Ok? && r.value.None? ==> MayDrop(old(table), endpoint, node.fields[i])
      ensures r.Ok? && r.value.Some? ==> FieldCorresponds(old(table), table, endpoint, node, i, r.value.value)
      ensures r.Ok? && ItemKey(node.fields[i].key) && NonEmptyText(node.fields[i].value) ==>
                r.value.Some? && r.value.value.Text?
                && StandsUnder(old(item2pub), node.fields[i].value.s, if respParent == "" then old(lastResp) else respParent, r.value.value.s)
      ensures r.Ok? ==> FieldAccounts(old(table), table, endpoint, node, i, respParent)
      ensures r.Err? ==> OutOfIds()
      decreases node, 0
    {
      var f := node.fields[i];
      if f.key == "id" { return Ok(Some(if own.Some? then Text(own.value) else f.value)); }
      if f.key == "conversation" { return Ok(None); }
      if f.key == "previous_response_id" {
        if !NonEmptyText(f.value) { return Ok(None); }
        var p := KnownResponse(f.value.s);
        return Ok(if p.Some? then Some(Text(p.value)) else None);
      }
      if RefKey(f.key) && NonEmptyText(f.value) {
        var p := PublicFor(f.value.s, f.key == "response_id", respParent);
        if p.Err? { return Err(p.error); }
        return Ok(Some(Text(p.value)));
      }
      var v := RewriteNode(f.value, respParent);
      if v.Err? { return Err(v.error); }
      return Ok(Some(v.value));
    }

    /** The object's own id first: a response becomes the parent of everything inside it. */
    method OwnId(fields: seq<Field>, respParent: string) returns (r: Result<Option<string>, Fault>, parent: string)
      requires Valid() && Known(respParent)
      modifies this
      ensures Valid() && Extends(old(table)) && Known(parent)
      ensures r.Ok? ==> OwnIdIs(table, endpoint, fields, r.value)
      ensures r.Err? ==> OutOfIds()
      ensures r.Ok? ==> parent == if IsResponse(fields) && r.value.Some? then r.value.value else respParent
      ensures r.Ok? ==> lastResp == if IsResponse(fields) && r.value.Some? then r.value.value else old(lastResp)
      ensures r.Ok? && r.value.Some? && !IsResponse(fields) ==>
                StandsUnder(old(item2pub), Lookup(fields, "id").value.s, if respParent == "" then old(lastResp) else respParent, r.value.value)
      ensures r.Ok? ==> OwnAccounts(old(table), table, fields, respParent) && InnerScope(table, endpoint, fields, respParent, parent)
    {
      parent := respParent;
      var v := Lookup(fields, "id");
      if v.None? || !NonEmptyText(v.value) { return Ok(None), parent; }
      var isResp := IsResponse(fields);
      var p := PublicFor(v.value.s, isResp, respParent);
      if p.Err? { return Err(p.error), parent; }
      if isResp {
        parent := p.value;
        lastResp := p.value;
      }
      return Ok(Some(p.value)), parent;
    }

    /** The next field of an object, added to what was rewritten of it since the table was `t0`. */
    method RewriteNext(node: Json, i: nat, own: Option<string>, parent: string, before: seq<Field>, ghost t0: Table)
      returns (r: Result<seq<Field>, Fault>)
      requires Valid() && Known(parent) && Decoded(node) && node.Object? && i < |node.fields|
      requires OwnIdIs(table, endpoint, node.fields, own) && Extends(t0)
      requires FieldsCorrespond(t0, table, endpoint, node, i, before)
      modifies this
      ensures Valid() && Known(parent) && Extends(t0) && OwnIdIs(table, endpoint, node.fields, own)
      ensures r.Ok? ==> FieldsCorrespond(t0, table, endpoint, node, i + 1, r.value)
      ensures r.Ok? ==> FieldAccounts(old(table), table, endpoint, node, i, parent) && Grows(old(table), table)
      ensures r.Err? ==> OutOfIds()
      decreases node, 1
    {
      ghost var t := table;
      LookupIs(node.fields, i);
      var v := RewriteField(node, i, own, parent);
      if v.Err? { return Err(v.error); }
      FieldAdded(t0, t, table, endpoint, node, i, before, v.value);
      return Ok(if v.value.Some? then before + [Field(node.fields[i].key, v.value.value)] else before);
    }

    method RewriteFields(node: Json, own: Option<string>, parent: string) returns (r: Result<Json, Fault>)
      requires Valid() && Known(parent) && Decoded(node) && node.Object? && OwnIdIs(table, endpoint, node.fields, own)
      modifies this
      ensures Valid() && Extends(old(table))
      ensures r.Ok? ==> Corresponds(old(table), table, endpoint, node, r.value)
      ensures r.Ok? ==> FieldsAccount(old(table), table, endpoint, node, |node.fields|, parent)
      ensures r.Err? ==> OutOfIds()
      decreases node, 2
    {
      var out: seq<Field> := [];
      for i := 0 to |node.fields|
        invariant Valid() && Known(parent) && Extends(old(table)) && OwnIdIs(table, endpoint, node.fields, own)
        invariant FieldsCorrespond(old(table), table, endpoint, node, i, out)
        invariant FieldsAccount(old(table), table, endpoint, node, i, parent)
      {
        ghost var t := table;
        var next := RewriteNext(node, i, own, parent, out, old(table));
        if next.Err? { return Err(next.error); }
        FieldsAccountMore(old(table), t, table, endpoint, node, i, parent, i + 1);
        out := next.value;
      }
      return Ok(Object(out));
    }

    method RewriteObject(node: Json, respParent: string) returns (r: Result<Json, Fault>)
      requires Valid() && Known(respParent) && Decoded(node) && node.Object?
      modifies this
      ensures Valid() && Extends(old(table))
      ensures r.Ok? ==> Corresponds(old(table), table, endpoint, node, r.value)
      ensures r.Ok? ==> Accounts(old(table), table, endpoint, node, respParent)
      ensures r.Err? ==> OutOfIds()
      decreases node, 3
    {
      ghost var t0 := table;
      var own, parent := OwnId(node.fields, respParent);
      if own.Err? { return Err(own.error); }
      ghost var t := table;
      r := RewriteFields(node, own.value, parent);
      if r.Ok? {
        CorrespondsLater(t, table, t0, table, endpoint, node, r.value);
        ObjectAccounts(t0, t, table, endpoint, node, respParent, parent);
      }
    }
  }

  ghost predicate OwnIdIs(t: Table, endpoint: string, fields: seq<Field>, own: Option<string>) {
    match Lookup(fields, "id")
    case Some(v) =>
      if NonEmptyText(v) then own.Some? && Renamed(t, endpoint, Field("id", v), IsResponse(fields), Text(own.value)) else own.None?
    case None => own.None?
  }

  /** One more field, dropped or kept, after a step that took the table from `t` to `u`. */
  lemma FieldAdded(t0: Table, t: Table, u: Table, endpoint: string, node: Json, i: nat, before: seq<Field>, v: Option<Json>)
    requires node.Object? && i < |node.fields| && Grows(t0, t) && Grows(t, u)
    requires FieldsCorrespond(t0, t, endpoint, node, i, before)
    requires v.None? ==> MayDrop(t, endpoint, node.fields[i])
    requires v.Some? ==> FieldCorresponds(t, u, endpoint, node, i, v.value)
    ensures FieldsCorrespond(t0, u, endpoint, node, i + 1,
                             if v.Some? then before + [Field(node.fields[i].key, v.value)] else before)
  {
    FieldsCorrespondLater(t0, t, t0, u, endpoint, node, i, before);
    match v
    case None => DropsLater(t, t0, endpoint, node.fields[i]);
    case Some(x) =>
      FieldCorrespondsLater(t, u, t0, u, endpoint, node, i, x);
      assert (before + [Field(node.fields[i].key, x)])[..|before|] == before;
  }

  /** What makes an object a response: its object or its event type says so. */
  lemma ResponseIff(fields: seq<Field>)
    ensures IsResponse(fields) <==>
              || (exists o :: Lookup(fields, "object") == Some(Text(o)) && |o| >= 8 && o[..8] == "response")
              || (exists o :: Lookup(fields, "type") == Some(Text(o)) && |o| >= 9 && o[..9] == "response.")
  {
    forall o: string ensures Starts(o, "response") <==> |o| >= 8 && o[..8] == "response" {}
    forall o: string ensures Starts(o, "response.") <==> |o| >= 9 && o[..9] == "response." {}
  }

  /** The fields whose texts each walk renames. */
  lemma KeysThatName(k: string)
    ensures RefKey(k) || k == "id" || k == "previous_response_id" <==> NamesResource(k)
    ensures InKey(k) <==> k in {"id", "item_id"}
    ensures ItemKey(k) <==> k in {"first_id", "last_id", "item_id"}
  {
  }

  /** Every field of an answer keeps its place, but for conversations and previous responses: without
    * those an object comes out with exactly its own keys. */
  lemma {:induction false} FieldsStay(t0: Table, t: Table, endpoint: string, node: Json, n: nat, out: seq<Field>)
    requires node.Object? && n <= |node.fields| && FieldsCorrespond(t0, t, endpoint, node, n, out)
    requires forall i :: 0 <= i < n ==> node.fields[i].key != "conversation" && node.fields[i].key != "previous_response_id"
    ensures |out| == n && forall i :: 0 <= i < n ==> out[i].key == node.fields[i].key
  {
    if n > 0 { FieldsStay(t0, t, endpoint, node, n - 1, out[..|out| - 1]); }
  }

  /** A previous response that was bound before stays, under the public id it was bound to. */
  lemma {:induction false} PreviousStays(t0: Table, t: Table, endpoint: string, node: Json, n: nat, out: seq<Field>, k: nat)
    requires node.Object? && k < n <= |node.fields| && FieldsCorrespond(t0, t, endpoint, node, n, out)
    requires node.fields[k].key == "previous_response_id" && NonEmptyText(node.fields[k].value)
    requires BoundUnder(t0, endpoint, "", node.fields[k].value.s)
    ensures exists j :: 0 <= j < |out| && out[j].key == "previous_response_id"
                        && out[j].value.Text? && out[j].value.s in t && Matches(t[out[j].value.s], endpoint, "", node.fields[k].value.s)
  {
    if k < n - 1 {
      if MayDrop(t0, endpoint, node.fields[n - 1]) && FieldsCorrespond(t0, t, endpoint, node, n - 1, out) {
        PreviousStays(t0, t, endpoint, node, n - 1, out, k);
      } else {
        PreviousStays(t0, t, endpoint, node, n - 1, out[..|out| - 1], k);
      }
    } else {
      assert FieldCorresponds(t0, t, endpoint, node, k, out[|out| - 1].value);
    }
  }

  // ---- What an answer exposes ----

  /** The fields that name a response or an item. */
  predicate NamesResource(k: string) {
    || k == "id" || k == "previous_response_id" || k == "first_id" || k == "last_id" || k == "item_id" || k == "response_id"
  }

  /** Every name in the value is a stored public id, and no conversation is left. */
  ghost predicate OnlyStored(t: Table, v: Json) {
    match v
    case Object(fields) =>
      forall i :: 0 <= i < |fields| ==>
        && fields[i].key != "conversation"
        && (NamesResource(fields[i].key) && NonEmptyText(fields[i].value) ==> fields[i].value.s in t)
        && OnlyStored(t, fields[i].value)
    case List(items) => forall i :: 0 <= i < |items| ==> OnlyStored(t, items[i])
    case _ => true
  }

  /** What the walk passes over, the values of "id" fields that are no text, exposes nothing itself. */
  ghost predicate PassedOverIsClean(t: Table, node: Json)
    decreases node, if node.Object? then |node.fields| + 1 else 0
  {
    match node
    case Object(fields) => FieldsAreClean(t, node, |fields|)
    case List(items) => forall i :: 0 <= i < |items| ==> PassedOverIsClean(t, items[i])
    case _ => true
  }

  ghost predicate FieldsAreClean(t: Table, node: Json, n: nat)
    requires node.Object? && n <= |node.fields|
    decreases node, n
  {
    n == 0 || (FieldIsClean(t, node, n - 1) && FieldsAreClean(t, node, n - 1))
  }

  ghost predicate FieldIsClean(t: Table, node: Json, i: nat)
    requires node.Object? && i < |node.fields|
    decreases node, 0
  {
    var f := node.fields[i];
    if f.key == "conversation" || f.key == "previous_response_id" then true
    else if f.key == "id" then OnlyStored(t, f.value)
    else if RefKey(f.key) && NonEmptyText(f.value) then true
    else PassedOverIsClean(t, f.value)
  }

  /** An answer exposes only stored public ids exactly when what the walk passed over does. */
  lemma {:induction false} ExposesOnlyStoredIff(t0: Table, t: Table, endpoint: string, node: Json, out: Json)
    requires Corresponds(t0, t, endpoint, node, out)
    ensures OnlyStored(t, out) <==> PassedOverIsClean(t, node)
    decreases node, if node.Object? then |node.fields| + 1 else 0
  {
    match node
    case Object(fields) => FieldsExposeIff(t0, t, endpoint, node, |fields|, out.fields);
    case List(items) =>
      forall i | 0 <= i < |items| ensures OnlyStored(t, out.items[i]) <==> PassedOverIsClean(t, items[i]) {
        ExposesOnlyStoredIff(t0, t, endpoint, items[i], out.items[i]);
      }
    case _ =>
  }

  lemma {:induction false} FieldsExposeIff(t0: Table, t: Table, endpoint: string, node: Json, n: nat, out: seq<Field>)
    requires node.Object? && n <= |node.fields| && FieldsCorrespond(t0, t, endpoint, node, n, out)
    ensures OnlyStored(t, Object(out)) <==> FieldsAreClean(t, node, n)
    decreases node, n
  {
    if n > 0 {
      var f := node.fields[n - 1];
      if MayDrop(t0, endpoint, f) && FieldsCorrespond(t0, t, endpoint, node, n - 1, out) {
        FieldsExposeIff(t0, t, endpoint, node, n - 1, out);
      } else {
        FieldExposesIff(t0, t, endpoint, node, n - 1, out[|out| - 1].value);
        FieldsExposeIff(t0, t, endpoint, node, n - 1, out[..|out| - 1]);
        LastField(t, out);
      }
    }
  }

  ghost predicate FieldOnlyStored(t: Table, f: Field) {
    && f.key != "conversation"
    && (NamesResource(f.key) && NonEmptyText(f.value) ==> f.value.s in t)
    && OnlyStored(t, f.value)
  }

  lemma LastField(t: Table, out: seq<Field>)
    requires out != []
    ensures OnlyStored(t, Object(out)) <==> OnlyStored(t, Object(out[..|out| - 1])) && FieldOnlyStored(t, out[|out| - 1])
  {
    var front := out[..|out| - 1];
    assert forall i :: 0 <= i < |front| ==> front[i] == out[i];
  }

  lemma {:induction false} FieldExposesIff(t0: Table, t: Table, endpoint: string, node: Json, i: nat, v: Json)
    requires node.Object? && i < |node.fields| && FieldCorresponds(t0, t, endpoint, node, i, v)
    ensures FieldOnlyStored(t, Field(node.fields[i].key, v)) <==> FieldIsClean(t, node, i)
    decreases node, 0
  {
    var f := node.fields[i];
    if !(f.key == "previous_response_id" || f.key == "id" || (RefKey(f.key) && NonEmptyText(f.value))) {
      ExposesOnlyStoredIff(t0, t, endpoint, f.value, v);
      assert NonEmptyText(v) ==> v == f.value;
    }
  }

  /** A value under "id" that is no text passes unread: the upstream id inside it comes out as it went in. */
  lemma CompositeIdLeaks(t0: Table, t: Table, endpoint: string, upstream: string, out: Json)
    requires upstream != "" && upstream !in t
    requires Corresponds(t0, t, endpoint, Object([Field("id", Object([Field("item_id", Text(upstream))]))]), out)
    ensures !OnlyStored(t, out)
  {
    var inner := Object([Field("item_id", Text(upstream))]);
    var node := Object([Field("id", inner)]);
    ExposesOnlyStoredIff(t0, t, endpoint, node, out);
    assert FieldsAreClean(t, node, 1) <==> FieldIsClean(t, node, 0) && FieldsAreClean(t, node, 0);
    assert inner.fields[0].key == "item_id";
  }

  // ---- The inbound walk ----

  datatype Principal = Principal(actor: string, delegatedBy: string)

  predicate Usable(b: Binding, who: Principal) {
    b.active && (b.owner == who.actor || (who.delegatedBy != "" && b.owner == who.delegatedBy))
  }

  predicate InKey(k: string) {
    k == "id" || k == "item_id"
  }

  /** A reference the caller may use, on the endpoint. */
  predicate Resolves(t: Table, who: Principal, endpoint: string, v: Json) {
    NonEmptyText(v) && v.s in t && Usable(t[v.s], who) && t[v.s].endpoint == endpoint
  }

  /** Every reference in the value resolves on the endpoint. */
  ghost predicate Resolvable(t: Table, who: Principal, endpoint: string, node: Json)
    decreases node, if node.Object? then |node.fields| + 1 else 0
  {
    match node
    case Object(fields) => FieldsResolvable(t, who, endpoint, node, |fields|)
    case List(items) => forall i :: 0 <= i < |items| ==> Resolvable(t, who, endpoint, items[i])
    case _ => true
  }

  ghost predicate FieldsResolvable(t: Table, who: Principal, endpoint: string, node: Json, n: nat)
    requires node.Object? && n <= |node.fields|
    decreases node, n
  {
    n == 0 || (FieldResolvable(t, who, endpoint, node, n - 1) && FieldsResolvable(t, who, endpoint, node, n - 1))
  }

  ghost predicate FieldResolvable(t: Table, who: Principal, endpoint: string, node: Json, i: nat)
    requires node.Object? && i < |node.fields|
    decreases node, 0
  {
    var f := node.fields[i];
    if InKey(f.key) && f.value != Null then Resolves(t, who, endpoint, f.value) else Resolvable(t, who, endpoint, f.value)
  }

  /** The value with upstream ids in place of public ones. */
  ghost function Restore(t: Table, node: Json): Json
    decreases node, if node.Object? then |node.fields| + 1 else 0
  {
    match node
    case Object(fields) => Object(RestoreFields(t, node, |fields|))
    case List(items) => List(seq(|items|, i requires 0 <= i < |items| => Restore(t, items[i])))
    case _ => node
  }

  ghost function RestoreFields(t: Table, node: Json, n: nat): seq<Field>
    requires node.Object? && n <= |node.fields|
    decreases node, n
  {
    if n == 0 then [] else RestoreFields(t, node, n - 1) + [Field(node.fields[n - 1].key, RestoreField(t, node, n - 1))]
  }

  ghost function RestoreField(t: Table, node: Json, i: nat): Json
    requires node.Object? && i < |node.fields|
    decreases node, 0
  {
    var f := node.fields[i];
    if InKey(f.key) && f.value != Null then
      (if f.value.Text? && f.value.s in t then Text(t[f.value.s].upstream) else f.value)
    else Restore(t, f.value)
  }

  datatype Denial = NotFound

  /** One request: the first reference in it pins the endpoint for all the others. */
  class RequestRewriter {
    const who: Principal
    const table: Table
    var pinned: string

    constructor (who: Principal, table: Table)
      ensures this.who == who && this.table == table && pinned == ""
    {
      this.who, this.table, this.pinned := who, table, "";
    }

    method Resolve(v: Json) returns (r: Result<string, Denial>)
      requires TableOk(table)
      modifies this
      ensures old(pinned) != "" ==> pinned == old(pinned)
      ensures r.Ok? <==>
                && v.Text? && v.s != "" && v.s in table && table[v.s].active
                && (table[v.s].owner == who.actor || (who.delegatedBy != "" && table[v.s].owner == who.delegatedBy))
                && (old(pinned) == "" || table[v.s].endpoint == old(pinned))
      ensures r.Ok? ==> Resolves(table, who, pinned, v) && r.value == table[v.s].upstream && pinned == table[v.s].endpoint
      ensures r.Err? ==> pinned == old(pinned) && forall e :: old(pinned) == "" || e == old(pinned) ==> !Resolves(table, who, e, v)
    {
      if !NonEmptyText(v) || v.s !in table || !Usable(table[v.s], who) { return Err(NotFound); }
      var b := table[v.s];
      if pinned != "" && pinned != b.endpoint { return Err(NotFound); }
      pinned := b.endpoint;
      return Ok(b.upstream);
    }

    method RewriteInputRefs(node: Json) returns (r: Result<Json, Denial>)
      requires TableOk(table)
      modifies this
      ensures old(pinned) != "" ==> pinned == old(pinned)
      ensures r.Ok? ==> Resolvable(table, who, pinned, node) && r.value == Restore(table, node)
      ensures r.Ok? && pinned != old(pinned) ==> forall e :: e != pinned ==> !Resolvable(table, who, e, node)
      ensures r.Err? ==> forall e :: old(pinned) == "" || e == old(pinned) ==> !Resolvable(table, who, e, node)
      decreases node, 2
    {
      match node {
        case Object(_) => r := RewriteFields(node);
        case List(_) => r := RewriteItems(node);
        case _ => return Ok(node);
      }
    }

    method RewriteField(node: Json, i: nat) returns (r: Result<Json, Denial>)
      requires TableOk(table) && node.Object? && i < |node.fields|
      modifies this
      ensures old(pinned) != "" ==> pinned == old(pinned)
      ensures r.Ok? ==> FieldResolvable(table, who, pinned, node, i) && r.value == RestoreField(table, node, i)
      ensures r.Ok? && pinned != old(pinned) ==> forall e :: e != pinned ==> !FieldResolvable(table, who, e, node, i)
      ensures r.Err? ==> forall e :: old(pinned) == "" || e == old(pinned) ==> !FieldResolvable(table, who, e, node, i)
      decreases node, 0
    {
      var f := node.fields[i];
      if InKey(f.key) && f.value != Null {
        var up := Resolve(f.value);
        return if up.Ok? then Ok(Text(up.value)) else Err(up.error);
      }
      r := RewriteInputRefs(f.value);
    }

    method RewriteFields(node: Json) returns (r: Result<Json, Denial>)
      requires TableOk(table) && node.Object?
      modifies this
      ensures old(pinned) != "" ==> pinned == old(pinned)
      ensures r.Ok? ==> Resolvable(table, who, pinned, node) && r.value == Restore(table, node)
      ensures r.Ok? && pinned != old(pinned) ==> forall e :: e != pinned ==> !Resolvable(table, who, e, node)
      ensures r.Err? ==> forall e :: old(pinned) == "" || e == old(pinned) ==> !Resolvable(table, who, e, node)
      decreases node, 1
    {
      ghost var p0 := pinned;
      var out: seq<Field> := [];
      for i := 0 to |node.fields|
        invariant FieldsResolvable(table, who, pinned, node, i) && out == RestoreFields(table, node, i)
        invariant p0 != "" ==> pinned == p0
        invariant pinned != p0 ==> forall e :: e != pinned ==> !FieldsResolvable(table, who, e, node, i)
      {
        ghost var p := pinned;
        var v := RewriteField(node, i);
        if v.Err? {
          FieldsRefuse(table, who, node, i, p0, p);
          return v;
        }
        if p == "" { FieldsAnywhere(table, who, node, i, pinned); }
        out := out + [Field(node.fields[i].key, v.value)];
      }
      return Ok(Object(out));
    }

    method RewriteItems(node: Json) returns (r: Result<Json, Denial>)
      requires TableOk(table) && node.List?
      modifies this
      ensures old(pinned) != "" ==> pinned == old(pinned)
      ensures r.Ok? ==> Resolvable(table, who, pinned, node) && r.value == Restore(table, node)
      ensures r.Ok? && pinned != old(pinned) ==> forall e :: e != pinned ==> !Resolvable(table, who, e, node)
      ensures r.Err? ==> forall e :: old(pinned) == "" || e == old(pinned) ==> !Resolvable(table, who, e, node)
      decreases node, 1
    {
      ghost var p0 := pinned;
      var out: seq<Json> := [];
      for i := 0 to |node.items|
        invariant ItemsResolvable(table, who, pinned, node, i)
        invariant |out| == i && forall k :: 0 <= k < i ==> out[k] == Restore(table, node.items[k])
        invariant p0 != "" ==> pinned == p0
        invariant pinned != p0 ==> forall e :: e != pinned ==> !ItemsResolvable(table, who, e, node, i)
      {
        ghost var p := pinned;
        var v := RewriteInputRefs(node.items[i]);
        if v.Err? {
          ItemsRefuse(table, who, node, i, p0, p);
          return v;
        }
        ItemsElsewhere(table, who, node, i, p0, p, pinned, i + 1);
        if p == "" {
          forall k | 0 <= k < i ensures Resolvable(table, who, pinned, node.items[k]) { Anywhere(table, who, node.items[k], pinned); }
        }
        out := out + [v.value];
      }
      WholeList(table, who, node);
      return Ok(List(out));
    }

    /** A request: the previous response it names, and every reference in its input. */
    method RewriteRequest(fields: seq<Field>) returns (r: Result<seq<Field>, Denial>)
      requires TableOk(table) && DistinctKeys(fields) && pinned == ""
      modifies this
      ensures r.Ok? ==> RequestResolves(table, who, pinned, fields) && r.value == RestoredRequest(table, fields)
      ensures r.Err? ==> forall e :: !RequestResolves(table, who, e, fields)
    {
      var out := fields;
      var previous := Lookup(fields, "previous_response_id");
      if previous.Some? {
        var up := Resolve(previous.value);
        if up.Err? { return Err(up.error); }
        out := Replaced(out, "previous_response_id", Text(up.value));
      }
      var input := Lookup(fields, "input");
      if input.Some? {
        var v := RewriteInputRefs(input.value);
        if v.Err? { return Err(v.error); }
        out := Replaced(out, "input", v.value);
      }
      return Ok(out);
    }
  }

  function Replaced(fields: seq<Field>, key: string, v: Json): (r: seq<Field>)
    ensures |r| == |fields|
    ensures forall i :: 0 <= i < |r| ==> r[i] == if fields[i].key == key then Field(key, v) else fields[i]
  {
    if fields == [] then [] else [if fields[0].key == key then Field(key, v) else fields[0]] + Replaced(fields[1..], key, v)
  }

  ghost predicate RequestResolves(t: Table, who: Principal, endpoint: string, fields: seq<Field>) {
    && (match Lookup(fields, "previous_response_id") case Some(v) => Resolves(t, who, endpoint, v) case None => true)
    && (match Lookup(fields, "input") case Some(v) => Resolvable(t, who, endpoint, v) case None => true)
  }

  ghost function RestoredRequest(t: Table, fields: seq<Field>): seq<Field> {
    var out := match Lookup(fields, "previous_response_id")
               case Some(Text(p)) => if p in t then Replaced(fields, "previous_response_id", Text(t[p].upstream)) else fields
               case _ => fields;
    match Lookup(fields, "input")
    case Some(v) => Replaced(out, "input", Restore(t, v))
    case None => out
  }

  lemma WholeList(t: Table, who: Principal, node: Json)
    requires node.List?
    ensures forall e :: Resolvable(t, who, e, node) <==> ItemsResolvable(t, who, e, node, |node.items|)
  {
  }

  lemma ItemsRefuse(t: Table, who: Principal, node: Json, i: nat, p0: string, p: string)
    requires node.List? && i < |node.items| && (p0 != "" ==> p == p0)
    requires p != p0 ==> forall e :: e != p ==> !ItemsResolvable(t, who, e, node, i)
    requires forall e :: p == "" || e == p ==> !Resolvable(t, who, e, node.items[i])
    ensures forall e :: p0 == "" || e == p0 ==> !Resolvable(t, who, e, node)
  {
    forall e | p0 == "" || e == p0 ensures !Resolvable(t, who, e, node) {
      assert !Resolvable(t, who, e, node.items[i]) || !ItemsResolvable(t, who, e, node, i);
    }
  }

  /** Once an endpoint is pinned, the items up to the one that pinned it resolve nowhere else. */
  lemma ItemsElsewhere(t: Table, who: Principal, node: Json, i: nat, p0: string, p: string, q: string, m: nat)
    requires node.List? && i < m == i + 1 <= |node.items| && (p != "" ==> q == p)
    requires p != p0 ==> forall e :: e != p ==> !ItemsResolvable(t, who, e, node, i)
    requires q != p ==> forall e :: e != q ==> !Resolvable(t, who, e, node.items[i])
    ensures q != p0 ==> forall e :: e != q ==> !ItemsResolvable(t, who, e, node, m)
  {
    if q != p0 {
      forall e | e != q ensures !ItemsResolvable(t, who, e, node, m) {
        assert !Resolvable(t, who, e, node.items[i]) || !ItemsResolvable(t, who, e, node, i);
      }
    }
  }

  ghost predicate ItemsResolvable(t: Table, who: Principal, endpoint: string, node: Json, n: nat)
    requires node.List? && n <= |node.items|
  {
    forall i :: 0 <= i < n ==> Resolvable(t, who, endpoint, node.items[i])
  }

  /** What resolves on no endpoint at all has no references, and resolves on any. */
  lemma {:induction false} Anywhere(t: Table, who: Principal, node: Json, endpoint: string)
    requires TableOk(t) && Resolvable(t, who, "", node)
    ensures Resolvable(t, who, endpoint, node)
    decreases node, if node.Object? then |node.fields| + 1 else 0
  {
    match node
    case Object(fields) => FieldsAnywhere(t, who, node, |fields|, endpoint);
    case List(items) => forall i | 0 <= i < |items| ensures Resolvable(t, who, endpoint, items[i]) { Anywhere(t, who, items[i], endpoint); }
    case _ =>
  }

  lemma {:induction false} FieldsAnywhere(t: Table, who: Principal, node: Json, n: nat, endpoint: string)
    requires TableOk(t) && node.Object? && n <= |node.fields| && FieldsResolvable(t, who, "", node, n)
    ensures FieldsResolvable(t, who, endpoint, node, n)
    decreases node, n
  {
    if n > 0 {
      var f := node.fields[n - 1];
      if !(InKey(f.key) && f.value != Null) { Anywhere(t, who, f.value, endpoint); }
      FieldsAnywhere(t, who, node, n - 1, endpoint);
    }
  }

  /** A refused field refuses the whole object on every endpoint still open. */
  lemma {:induction false} FieldsRefuse(t: Table, who: Principal, node: Json, i: nat, p0: string, p: string)
    requires node.Object? && i < |node.fields| && (p0 != "" ==> p == p0)
    requires p != p0 ==> forall e :: e != p ==> !FieldsResolvable(t, who, e, node, i)
    requires forall e :: p == "" || e == p ==> !FieldResolvable(t, who, e, node, i)
    ensures forall e :: p0 == "" || e == p0 ==> !Resolvable(t, who, e, node)
  {
    forall e | p0 == "" || e == p0 ensures !FieldsResolvable(t, who, e, node, |node.fields|) {
      assert !FieldsResolvable(t, who, e, node, i + 1);
      Shorter(t, who, e, node, i + 1, |node.fields|);
    }
  }

  lemma {:induction false} Shorter(t: Table, who: Principal, e: string, node: Json, m: nat, n: nat)
    requires node.Object? && m <= n <= |node.fields| && !FieldsResolvable(t, who, e, node, m)
    ensures !FieldsResolvable(t, who, e, node, n)
  {
    if m < n { Shorter(t, who, e, node, m, n - 1); }
  }

  // ---- There and back ----

  /** The only references in a value are "id" and "item_id" fields; nothing in it is dropped. */
  ghost predicate ItemRefsOnly(node: Json)
    decreases node, if node.Object? then |node.fields| + 1 else 0
  {
    match node
    case Object(fields) => forall i :: 0 <= i < |fields| ==>
        (InKey(fields[i].key) || !NamesResource(fields[i].key)) && fields[i].key != "conversation" && ItemRefsOnly(fields[i].value)
    case List(items) => forall i :: 0 <= i < |items| ==> ItemRefsOnly(items[i])
    case _ => true
  }

  /** Every "id" and "item_id" is a text that is not empty, or null. */
  ghost predicate NamesAreTexts(node: Json)
    decreases node, if node.Object? then |node.fields| + 1 else 0
  {
    match node
    case Object(fields) => FieldNamesAreTexts(node, |fields|)
    case List(items) => forall i :: 0 <= i < |items| ==> NamesAreTexts(items[i])
    case _ => true
  }

  ghost predicate FieldNamesAreTexts(node: Json, n: nat)
    requires node.Object? && n <= |node.fields|
    decreases node, n
  {
    n == 0 || (FieldNameIsText(node, n - 1) && FieldNamesAreTexts(node, n - 1))
  }

  ghost predicate FieldNameIsText(node: Json, i: nat)
    requires node.Object? && i < |node.fields|
    decreases node, 0
  {
    var f := node.fields[i];
    if InKey(f.key) then NonEmptyText(f.value) || f.value == Null else NamesAreTexts(f.value)
  }

  /** Every row on the endpoint is the caller's to use. */
  ghost predicate CallerOwns(t: Table, endpoint: string, who: Principal) {
    forall p :: p in t && t[p].endpoint == endpoint ==> Usable(t[p], who)
  }

  /** A client that sends an answer back is understood: the request resolves on the same
    * endpoint and restores the original value, exactly when every name was a text or null;
    * otherwise it resolves on no endpoint `e` at all. */
  lemma {:induction false} RoundTripIff(t0: Table, t: Table, endpoint: string, who: Principal, node: Json, out: Json, e: string)
    requires TableOk(t) && CallerOwns(t, endpoint, who) && Corresponds(t0, t, endpoint, node, out) && ItemRefsOnly(node)
    ensures Resolvable(t, who, endpoint, out) <==> NamesAreTexts(node)
    ensures Resolvable(t, who, e, out) ==> NamesAreTexts(node)
    ensures NamesAreTexts(node) ==> Restore(t, out) == node
    decreases node, if node.Object? then |node.fields| + 1 else 0
  {
    match node
    case Object(fields) =>
      FieldsRoundTrip(t0, t, endpoint, who, node, |fields|, out.fields, e);
      FieldsOf(t, who, endpoint, out, out.fields);
      FieldsOf(t, who, e, out, out.fields);
      assert fields == fields[..|fields|];
    case List(items) =>
      forall i | 0 <= i < |items|
        ensures Resolvable(t, who, endpoint, out.items[i]) <==> NamesAreTexts(items[i])
        ensures Resolvable(t, who, e, out.items[i]) ==> NamesAreTexts(items[i])
        ensures NamesAreTexts(items[i]) ==> Restore(t, out.items[i]) == items[i]
      {
        RoundTripIff(t0, t, endpoint, who, items[i], out.items[i], e);
      }
    case _ =>
  }

  lemma FieldsOf(t: Table, who: Principal, endpoint: string, out: Json, fields: seq<Field>)
    requires out == Object(fields)
    ensures Resolvable(t, who, endpoint, out) <==> FieldsResolvable(t, who, endpoint, Object(fields), |fields|)
    ensures Restore(t, out) == Object(RestoreFields(t, Object(fields), |fields|))
  {
  }

  lemma {:induction false} FieldsRoundTrip(t0: Table, t: Table, endpoint: string, who: Principal, node: Json, n: nat, out: seq<Field>,
                                           e: string)
    requires TableOk(t) && CallerOwns(t, endpoint, who) && ItemRefsOnly(node)
    requires node.Object? && n <= |node.fields| && FieldsCorrespond(t0, t, endpoint, node, n, out)
    ensures FieldsResolvable(t, who, endpoint, Object(out), |out|) <==> FieldNamesAreTexts(node, n)
    ensures FieldsResolvable(t, who, e, Object(out), |out|) ==> FieldNamesAreTexts(node, n)
    ensures FieldNamesAreTexts(node, n) ==> RestoreFields(t, Object(out), |out|) == node.fields[..n]
    decreases node, n
  {
    if n > 0 {
      var f, last := node.fields[n - 1], |out| - 1;
      assert !MayDrop(t0, endpoint, f);
      var front := out[..last];
      FieldsRoundTrip(t0, t, endpoint, who, node, n - 1, front, e);
      FieldRoundTrip(t0, t, endpoint, who, node, n - 1, out, last, e);
      PrefixSame(t, who, endpoint, front, out, last);
      PrefixSame(t, who, e, front, out, last);
      assert node.fields[..n] == node.fields[..n - 1] + [f];
    }
  }

  lemma {:induction false} FieldRoundTrip(t0: Table, t: Table, endpoint: string, who: Principal, node: Json, i: nat, out: seq<Field>, j: nat,
                                          e: string)
    requires TableOk(t) && CallerOwns(t, endpoint, who) && ItemRefsOnly(node)
    requires node.Object? && i < |node.fields| && j < |out| && out[j].key == node.fields[i].key
    requires FieldCorresponds(t0, t, endpoint, node, i, out[j].value)
    ensures FieldResolvable(t, who, endpoint, Object(out), j) <==> FieldNameIsText(node, i)
    ensures FieldResolvable(t, who, e, Object(out), j) ==> FieldNameIsText(node, i)
    ensures FieldNameIsText(node, i) ==> RestoreField(t, Object(out), j) == node.fields[i].value
    decreases node, 0
  {
    var f, v := node.fields[i], out[j].value;
    assert Object(out).fields[j] == out[j];
    if !(f.key == "id" || (RefKey(f.key) && NonEmptyText(f.value))) {
      RoundTripIff(t0, t, endpoint, who, f.value, v, e);
      if InKey(f.key) { SameKind(t0, t, endpoint, f.value, v); }
    }
  }

  /** Only a composite value may come out changed. */
  lemma SameKind(t0: Table, t: Table, endpoint: string, node: Json, out: Json)
    requires Corresponds(t0, t, endpoint, node, out)
    ensures out == node || (node.Object? && out.Object?) || (node.List? && out.List?)
  {
  }

  /** A longer object agrees with a shorter one on the fields they share. */
  lemma {:induction false} PrefixSame(t: Table, who: Principal, endpoint: string, a: seq<Field>, b: seq<Field>, n: nat)
    requires n <= |a| && n <= |b| && a[..n] == b[..n]
    ensures FieldsResolvable(t, who, endpoint, Object(a), n) <==> FieldsResolvable(t, who, endpoint, Object(b), n)
    ensures RestoreFields(t, Object(a), n) == RestoreFields(t, Object(b), n)
  {
    if n > 0 {
      assert a[n - 1] == a[..n][n - 1] == b[..n][n - 1] == b[n - 1];
      assert a[..n - 1] == a[..n][..n - 1] == b[..n - 1];
      PrefixSame(t, who, endpoint, a, b, n - 1);
    }
  }

  /** A whole answer out and back, by a caller who owns what was bound on the endpoint
    * before: what the client sends back is accepted exactly when every name was a text or
    * null, and then the upstream is sent its own value again. */
  method SendBack(rw: ResponseRewriter, node: Json, respParent: string, who: Principal)
    returns (out: Result<Json, Fault>, back: Result<Json, Denial>)
    requires rw.Valid() && rw.Known(respParent) && Decoded(node) && who.actor == rw.actor && CallerOwns(rw.table, rw.endpoint, who)
    modifies rw
    ensures rw.Valid() && CallerOwns(rw.table, rw.endpoint, who)
    ensures out.Ok? && ItemRefsOnly(node) ==>
              && (back.Ok? <==> NamesAreTexts(node))
              && (back.Ok? ==> back.value == node)
    ensures out.Err? ==> rw.OutOfIds()
  {
    ghost var t0 := rw.table;
    out := rw.RewriteNode(node, respParent);
    if out.Err? { return out, Err(NotFound); }
    var request := new RequestRewriter(who, rw.table);
    back := request.RewriteInputRefs(out.value);
    if ItemRefsOnly(node) { RoundTripIff(t0, rw.table, rw.endpoint, who, node, out.value, request.pinned); }
  }
}
