/** A pass of the machine that nobody disturbs is the sequential pass of ReconcilePass:
  * fencing, traversal and repair, with the same files and updates failing. */
module ArtifactPasses {
  import opened ArtifactRows
  import opened ArtifactMachine
  import opened ReconcilePass
  import opened Results

  /** `b` with rows, files and pass `n` as given. */
  function At(b: State, n: nat, rows: Rows, disk: Disk, p: Pass): State {
    b.(rows := rows, disk := disk, passes := b.passes[n := p])
  }

  predicate OnlyPass(es: seq<Event>, n: nat) {
    forall e :: e in es ==> (e.PassStart? || e.PassDoes?) && e.n == n
  }

  ghost predicate Leads(s: State, es: seq<Event>, n: nat, t: State) {
    Runs(s, es) && After(s, es) == t && OnlyPass(es, n)
  }

  lemma {:induction false} RunsOn(s: State, es: seq<Event>, t: State, e: Event)
    requires Runs(s, es) && After(s, es) == t && Enabled(t, e)
    ensures Runs(s, es + [e]) && After(s, es + [e]) == Next(t, e)
    decreases |es|
  {
    if es == [] {
      assert es + [e] == [e] && [e][1..] == [];
    } else {
      assert (es + [e])[0] == es[0] && (es + [e])[1..] == es[1..] + [e];
      RunsOn(Next(s, es[0]), es[1..], t, e);
    }
  }

  lemma MovesOn(s: State, es: seq<Event>, b: State, n: nat, rows: Rows, disk: Disk, p: Pass, op: PassOp, rows': Rows, disk': Disk, p': Pass)
    returns (es': seq<Event>)
    requires Leads(s, es, n, At(b, n, rows, disk, p)) && PassEnabled(b.used, p, op)
    requires PassStep(rows, disk, b.used, p, op) == PassResult(rows', disk', Some(p'))
    ensures Leads(s, es', n, At(b, n, rows', disk', p'))
  {
    var t, e := At(b, n, rows, disk, p), PassDoes(n, op);
    RunsOn(s, es, t, e);
    es' := es + [e];
    assert Next(t, e) == At(b, n, rows', disk', p');
  }

  // ---- Phase (a) ----

  /** Fences one listed row and reaps its files, or fails to. */
  lemma FencesOne(s: State, es: seq<Event>, b: State, n: nat, rows: Rows, d: Disk, now: int, todo: map<Key, Lease>, k: Key, f: Faults)
    returns (es': seq<Event>, d': Disk)
    requires k in todo && OwnedWriting(rows, k, todo[k])
    requires Leads(s, es, n, At(b, n, rows, d, Pass(now, Fencing(todo))))
    ensures var rows' := if k in f.unfenceable then rows else rows[k := rows[k].(state := Tombstoned, reason := ExpiredWriteLease)];
            Leads(s, es', n, At(b, n, rows', d', Pass(now, Fencing(todo - {k}))))
    ensures d'.durable == d.durable - (if k in f.unfenceable || k in f.stuck then {} else {k})
    ensures d'.temp == d.temp - (if k in f.unfenceable || k.id in f.stuckParts then {} else {k.id})
  {
    var rest := todo - {k};
    if k in f.unfenceable {
      d' := d;
      es' := MovesOn(s, es, b, n, rows, d, Pass(now, Fencing(todo)), FenceFails(k), rows, d, Pass(now, Fencing(rest)));
    } else {
      var rows' := InvalidateWriting(rows, k, todo[k], ExpiredWriteLease);
      var d1 := TryUnlink(d, k, k !in f.stuck);
      d' := TryUnlinkTemp(d1, k, k.id !in f.stuckParts);
      es' := MovesOn(s, es, b, n, rows, d, Pass(now, Fencing(todo)), Fence(k), rows', d, Pass(now, ReapDurable(k, rest)));
      es' := MovesOn(s, es', b, n, rows', d, Pass(now, ReapDurable(k, rest)), Act(k !in f.stuck), rows', d1, Pass(now, ReapTemp(k, rest)));
      es' := MovesOn(s, es', b, n, rows', d1, Pass(now, ReapTemp(k, rest)), Act(k.id !in f.stuckParts), rows', d', Pass(now, Fencing(rest)));
    }
  }

  /** Phase (a) as far as the keys in `done`. */
  ghost predicate FencedSoFar(s: State, es: seq<Event>, b: State, n: nat, rows: Rows, d0: Disk, d: Disk, now: int, f: Faults, done: set<Key>) {
    && Leads(s, es, n, At(b, n, FenceAll(rows, done - f.unfenceable), d, Pass(now, Fencing(ExpiredWriting(rows, now) - done))))
    && d.durable == d0.durable - (done - f.unfenceable - f.stuck)
    && d.temp == d0.temp - (PartFiles(done - f.unfenceable) - f.stuckParts)
  }

  lemma FencesNext(s: State, es: seq<Event>, b: State, n: nat, rows: Rows, d0: Disk, d: Disk, now: int, f: Faults, done: set<Key>, k: Key)
    returns (es': seq<Event>, d': Disk)
    requires FencedSoFar(s, es, b, n, rows, d0, d, now, f, done) && k in ExpiredWriting(rows, now) - done
    ensures FencedSoFar(s, es', b, n, rows, d0, d', now, f, done + {k})
  {
    var todo := ExpiredWriting(rows, now) - done;
    FenceMore(rows, d0.durable, done, k, f);
    FenceMoreParts(d0.temp, done, k, f);
    es', d' := FencesOne(s, es, b, n, FenceAll(rows, done - f.unfenceable), d, now, todo, k, f);
    assert todo - {k} == ExpiredWriting(rows, now) - (done + {k});
  }

  lemma Fences(s: State, es0: seq<Event>, b: State, n: nat, rows: Rows, d0: Disk, now: int, f: Faults)
    returns (es: seq<Event>, d: Disk)
    requires Leads(s, es0, n, At(b, n, rows, d0, Pass(now, Fencing(ExpiredWriting(rows, now)))))
    ensures Leads(s, es, n, At(b, n, FenceAll(rows, FencedKeys(rows, now, f)), d, Pass(now, Fencing(map[]))))
    ensures d.durable == d0.durable - (FencedKeys(rows, now, f) - f.stuck)
    ensures d.temp == d0.temp - (PartFiles(FencedKeys(rows, now, f)) - f.stuckParts)
  {
    es, d := es0, d0;
    var all := ExpiredWriting(rows, now);
    var done: set<Key> := {};
    FencesNone(s, es, b, n, rows, d, now, f);
    while done != all.Keys
      invariant done <= all.Keys && FencedSoFar(s, es, b, n, rows, d0, d, now, f, done)
      decreases all.Keys - done
    {
      assert done + (all.Keys - done) == all.Keys;
      var k :| k in all.Keys - done;
      es, d := FencesNext(s, es, b, n, rows, d0, d, now, f, done, k);
      done := done + {k};
    }
    assert all - all.Keys == map[];
  }

  lemma FencesNone(s: State, es: seq<Event>, b: State, n: nat, rows: Rows, d: Disk, now: int, f: Faults)
    requires Leads(s, es, n, At(b, n, rows, d, Pass(now, Fencing(ExpiredWriting(rows, now)))))
    ensures FencedSoFar(s, es, b, n, rows, d, d, now, f, {})
  {
    FenceNone(rows);
    assert ExpiredWriting(rows, now) - {} == ExpiredWriting(rows, now) && {} - f.unfenceable == {};
  }

  // ---- Phase (b) ----

  lemma VisitsOne(s: State, es: seq<Event>, b: State, n: nat, rows: Rows, d: Disk, now: int, k: Key, f: Faults)
    returns (es': seq<Event>, d': Disk)
    requires k.id in b.used && Leads(s, es, n, At(b, n, rows, d, Pass(now, Walking)))
    ensures Leads(s, es', n, At(b, n, rows, d', Pass(now, Walking)))
    ensures d'.durable == (if Passed(rows, now, f, k) then d.durable else d.durable - {k}) && d'.temp == d.temp
  {
    es', d' := es, d;
    if k !in f.unvisited {
      if Kept(rows, now, k) {
        es' := MovesOn(s, es, b, n, rows, d, Pass(now, Walking), Visit(k), rows, d, Pass(now, Walking));
      } else {
        d' := TryUnlink(d, k, k !in f.stuck);
        es' := MovesOn(s, es, b, n, rows, d, Pass(now, Walking), Visit(k), rows, d, Pass(now, WalkRemove(k)));
        es' := MovesOn(s, es', b, n, rows, d, Pass(now, WalkRemove(k)), Act(k !in f.stuck), rows, d', Pass(now, Walking));
      }
    }
  }

  lemma Visits(s: State, es0: seq<Event>, b: State, n: nat, rows: Rows, d0: Disk, now: int, f: Faults)
    returns (es: seq<Event>, d: Disk)
    requires forall k :: k in d0.durable ==> k.id in b.used
    requires Leads(s, es0, n, At(b, n, rows, d0, Pass(now, Walking)))
    ensures Leads(s, es, n, At(b, n, rows, d, Pass(now, Walking)))
    ensures d.durable == Traversed(rows, d0.durable, now, f) && d.temp == d0.temp
  {
    es, d := es0, d0;
    var todo := d0.durable.Keys;
    while todo != {}
      invariant todo <= d0.durable.Keys && d.temp == d0.temp
      invariant Leads(s, es, n, At(b, n, rows, d, Pass(now, Walking)))
      invariant forall k :: k in d.durable <==> k in d0.durable && (k in todo || Passed(rows, now, f, k))
      invariant forall k :: k in d.durable ==> d.durable[k] == d0.durable[k]
    {
      var k :| k in todo;
      es, d := VisitsOne(s, es, b, n, rows, d, now, k, f);
      todo := todo - {k};
    }
  }

  // ---- Phase (c) ----

  function RepairedRow(rows: Rows, durable: map<Key, Bytes>, k: Key, f: Faults): Row
    requires k in rows
  {
    if Missing(rows, durable, f, k) && k !in f.unrepairable then rows[k].(state := Tombstoned, reason := MissingFinalBytes) else rows[k]
  }

  lemma Tombstones(s: State, es: seq<Event>, b: State, n: nat, rows: Rows, d: Disk, now: int, list: map<Key, RowState>, k: Key, f: Faults)
    returns (es': seq<Event>)
    requires k in list && k in rows && list[k] == Final && Missing(rows, d.durable, f, k)
    requires Leads(s, es, n, At(b, n, rows, d, Pass(now, Repairing(list))))
    ensures Leads(s, es', n, At(b, n, rows[k := RepairedRow(rows, d.durable, k, f)], d, Pass(now, Repairing(list - {k}))))
  {
    var done, p := k !in f.unrepairable, Pass(now, RepairTombstone(k, list - {k}));
    assert rows[k := rows[k]] == rows;
    es' := MovesOn(s, es, b, n, rows, d, Pass(now, Repairing(list)), Stat(k, true), rows, d, p);
    es' := MovesOn(s, es', b, n, rows, d, p, Act(done), rows[k := RepairedRow(rows, d.durable, k, f)], d, Pass(now, Repairing(list - {k})));
  }

  lemma Removes(s: State, es: seq<Event>, b: State, n: nat, rows: Rows, d: Disk, now: int, list: map<Key, RowState>, k: Key, f: Faults)
    returns (es': seq<Event>, d': Disk)
    requires k in list && list[k] != Final && (k in f.unreadable || k in d.durable)
    requires Leads(s, es, n, At(b, n, rows, d, Pass(now, Repairing(list))))
    ensures Leads(s, es', n, At(b, n, rows, d', Pass(now, Repairing(list - {k}))))
    ensures d'.durable == (if k in f.stuck then d.durable else d.durable - {k}) && d'.temp == d.temp
  {
    var p := Pass(now, RepairRemove(k, list - {k}));
    d' := TryUnlink(d, k, k !in f.stuck);
    es' := MovesOn(s, es, b, n, rows, d, Pass(now, Repairing(list)), Stat(k, k !in f.unreadable), rows, d, p);
    es' := MovesOn(s, es', b, n, rows, d, p, Act(k !in f.stuck), rows, d', Pass(now, Repairing(list - {k})));
  }

  lemma RepairsOne(s: State, es: seq<Event>, b: State, n: nat, rows: Rows, d: Disk, now: int, list: map<Key, RowState>, k: Key, f: Faults)
    returns (es': seq<Event>, d': Disk)
    requires k in list && k in rows && list[k] == rows[k].state && rows[k].state != Writing
    requires Leads(s, es, n, At(b, n, rows, d, Pass(now, Repairing(list))))
    ensures Leads(s, es', n, At(b, n, rows[k := RepairedRow(rows, d.durable, k, f)], d', Pass(now, Repairing(list - {k}))))
    ensures d'.durable == (if Finished(rows, k) && k !in f.stuck then d.durable - {k} else d.durable) && d'.temp == d.temp
  {
    d' := d;
    assert rows[k := rows[k]] == rows;
    if Missing(rows, d.durable, f, k) {
      es' := Tombstones(s, es, b, n, rows, d, now, list, k, f);
    } else if list[k] != Final && (k in f.unreadable || k in d.durable) {
      es', d' := Removes(s, es, b, n, rows, d, now, list, k, f);
    } else {
      es' := MovesOn(s, es, b, n, rows, d, Pass(now, Repairing(list)), Stat(k, k !in f.unreadable), rows, d, Pass(now, Repairing(list - {k})));
    }
  }

  function RepairedBut(rows: Rows, durable: map<Key, Bytes>, todo: set<Key>, f: Faults): Rows {
    map k | k in rows :: if k in todo then rows[k] else RepairedRow(rows, durable, k, f)
  }

  lemma RepairMore(rows: Rows, durable: map<Key, Bytes>, todo: set<Key>, k: Key, f: Faults)
    requires k in todo && k in rows
    ensures RepairedBut(rows, durable, todo, f)[k] == rows[k]
    ensures RepairedBut(rows, durable, todo - {k}, f) == RepairedBut(rows, durable, todo, f)[k := RepairedRow(rows, durable, k, f)]
  {
  }

  /** Phase (c) with the keys in `todo` still to come. */
  ghost predicate RepairedSoFar(s: State, es: seq<Event>, b: State, n: nat, rows: Rows, d0: Disk, d: Disk, now: int, f: Faults,
                                todo: map<Key, RowState>) {
    && todo.Keys <= FinalPaths(rows).Keys && (forall k :: k in todo ==> todo[k] == rows[k].state)
    && Leads(s, es, n, At(b, n, RepairedBut(rows, d0.durable, todo.Keys, f), d, Pass(now, Repairing(todo))))
    && (forall k :: k in d.durable <==> k in d0.durable && (k in f.stuck || k in todo || !Finished(rows, k)))
    && (forall k :: k in d.durable ==> d.durable[k] == d0.durable[k])
    && d.temp == d0.temp
  }

  lemma RepairsNext(s: State, es: seq<Event>, b: State, n: nat, rows: Rows, d0: Disk, d: Disk, now: int, f: Faults,
                    todo: map<Key, RowState>, k: Key)
    returns (es': seq<Event>, d': Disk)
    requires RepairedSoFar(s, es, b, n, rows, d0, d, now, f, todo) && k in todo
    ensures RepairedSoFar(s, es', b, n, rows, d0, d', now, f, todo - {k})
  {
    var before := RepairedBut(rows, d0.durable, todo.Keys, f);
    RepairMore(rows, d0.durable, todo.Keys, k, f);
    es', d' := RepairsOne(s, es, b, n, before, d, now, todo, k, f);
    assert (todo - {k}).Keys == todo.Keys - {k};
    assert RepairedRow(before, d.durable, k, f) == RepairedRow(rows, d0.durable, k, f);
  }

  lemma {:induction false} RepairsFrom(s: State, es: seq<Event>, b: State, n: nat, rows: Rows, d0: Disk, d: Disk, now: int, f: Faults,
                                       todo: map<Key, RowState>)
    returns (es': seq<Event>, d': Disk)
    requires RepairedSoFar(s, es, b, n, rows, d0, d, now, f, todo)
    ensures RepairedSoFar(s, es', b, n, rows, d0, d', now, f, map[])
    decreases |todo|
  {
    es', d' := es, d;
    if todo != map[] {
      var k :| k in todo;
      es', d' := RepairsNext(s, es, b, n, rows, d0, d, now, f, todo, k);
      es', d' := RepairsFrom(s, es', b, n, rows, d0, d', now, f, todo - {k});
    }
  }

  lemma RepairsNone(s: State, es: seq<Event>, b: State, n: nat, rows: Rows, d: Disk, now: int, f: Faults)
    requires Leads(s, es, n, At(b, n, rows, d, Pass(now, Repairing(FinalPaths(rows)))))
    ensures RepairedSoFar(s, es, b, n, rows, d, d, now, f, FinalPaths(rows))
  {
    assert RepairedBut(rows, d.durable, FinalPaths(rows).Keys, f) == rows;
  }

  lemma RepairsAll(s: State, es: seq<Event>, b: State, n: nat, rows: Rows, d0: Disk, d: Disk, now: int, f: Faults)
    requires RepairedSoFar(s, es, b, n, rows, d0, d, now, f, map[])
    ensures d.durable == (map k | k in d0.durable && (k in f.stuck || !Finished(rows, k)) :: d0.durable[k])
    ensures Leads(s, es, n, At(b, n, RepairedBut(rows, d0.durable, {}, f), d, Pass(now, Repairing(map[]))))
  {
    var none: map<Key, RowState> := map[];
    assert none.Keys == {};
  }

  // ---- Main result ----

  /** From any store, a pass of the machine with these faults and no interference leaves the
    * rows, the durable tree and the part files that the sequential pass leaves. */
  lemma PassIsSequential(s: State, n: nat, f: Faults) returns (es: seq<Event>)
    requires n !in s.passes && forall k :: k in s.disk.durable ==> k.id in s.used
    ensures Runs(s, es) && OnlyPass(es, n)
    ensures var t := After(s, es);
            && t.rows == RepairedRows(s.rows, s.disk.durable, s.clock, f)
            && t.disk.durable == SweptTree(s.rows, s.disk.durable, s.clock, f)
            && t.disk.temp == s.disk.temp - (PartFiles(FencedKeys(s.rows, s.clock, f)) - f.stuckParts)
            && t.passes == s.passes && t.writers == s.writers
  {
    var now, rows1 := s.clock, FenceAll(s.rows, FencedKeys(s.rows, s.clock, f));
    var d;
    es := Starts(s, n);
    es, d := Fences(s, es, s, n, s.rows, s.disk, now, f);
    var durable1 := d.durable;
    PhasesMakeTree(rows1, durable1, s.rows, s.disk.durable, now, f);
    PhasesMakeRows(rows1, durable1, s.rows, s.disk.durable, now, f);
    es := MovesOn(s, es, s, n, rows1, d, Pass(now, Fencing(map[])), Walk, rows1, d, Pass(now, Walking));
    es, d := Visits(s, es, s, n, rows1, d, now, f);
    es := MovesOn(s, es, s, n, rows1, d, Pass(now, Walking), List, rows1, d, Pass(now, Repairing(FinalPaths(rows1))));
    RepairedAll(rows1, d.durable, f);
    var d2 := d;
    RepairsNone(s, es, s, n, rows1, d2, now, f);
    es, d := RepairsFrom(s, es, s, n, rows1, d2, d2, now, f, FinalPaths(rows1));
    RepairsAll(s, es, s, n, rows1, d2, d, now, f);
    es := Finishes(s, es, n, RepairedRows(s.rows, s.disk.durable, now, f), d, Pass(now, Repairing(map[])));
  }

  lemma RepairedAll(rows: Rows, durable: map<Key, Bytes>, f: Faults)
    ensures RepairedBut(rows, durable, {}, f) == map k | k in rows ::
              if Missing(rows, durable, f, k) && k !in f.unrepairable
              then rows[k].(state := Tombstoned, reason := MissingFinalBytes) else rows[k]
  {
  }

  lemma Starts(s: State, n: nat) returns (es: seq<Event>)
    requires n !in s.passes
    ensures Leads(s, es, n, At(s, n, s.rows, s.disk, Pass(s.clock, Fencing(ExpiredWriting(s.rows, s.clock)))))
  {
    RunsOn(s, [], s, PassStart(n));
    es := [] + [PassStart(n)];
  }

  lemma Finishes(s: State, es: seq<Event>, n: nat, rows: Rows, d: Disk, p: Pass) returns (es': seq<Event>)
    requires n !in s.passes && Leads(s, es, n, At(s, n, rows, d, p))
    ensures Leads(s, es', n, s.(rows := rows, disk := d))
  {
    RunsOn(s, es, At(s, n, rows, d, p), PassDoes(n, Ends));
    es' := es + [PassDoes(n, Ends)];
    assert s.passes[n := p] - {n} == s.passes;
  }
}
