/** One reconciliation pass run on its own, and what it leaves behind.
  *
  * ArtifactSafety shows that passes are harmless next to running writers. Here
  * the pass runs by itself after a crash, as the three loops of Reconcile, over
  * a store in any state whatsoever, with any set of files that cannot be
  * visited, removed or examined and any set of rows whose updates fail.
  */
module ReconcilePass {
  import opened ArtifactRows

  /** What fails in one pass. */
  datatype Faults = Faults(
    unfenceable: set<Key>,
    stuck: set<Key>,
    stuckParts: set<string>,
    // The traversal does not reach the file, or the lookup of its row fails.
    unvisited: set<Key>,
    unreadable: set<Key>,
    // The update of the row's state fails.
    unrepairable: set<Key>)

  datatype Failure =
    | FenceFailed(k: Key)
    | RemoveFailed(k: Key)
    | PartFailed(id: string)
    | VisitFailed(k: Key)
    | StatFailed(k: Key)
    | UpdateFailed(k: Key)

  /** A file the traversal leaves alone. */
  predicate Kept(rows: Rows, now: int, k: Key) {
    k in rows && (rows[k].state == Final || LiveWriter(rows[k], now))
  }

  /** The rows phase (a) tombstones. */
  function FencedKeys(rows: Rows, now: int, f: Faults): set<Key> {
    ExpiredWriting(rows, now).Keys - f.unfenceable
  }

  function PartFiles(ks: set<Key>): set<string> {
    set k | k in ks :: k.id
  }

  function FenceAll(rows: Rows, ks: set<Key>): Rows {
    map k | k in rows :: if k in ks then rows[k].(state := Tombstoned, reason := ExpiredWriteLease) else rows[k]
  }

  predicate Finished(rows: Rows, k: Key) {
    k in rows && rows[k].state in {Deleting, Tombstoned}
  }

  /** The files left by the traversal. */
  predicate Passed(rows: Rows, now: int, f: Faults, k: Key) {
    Kept(rows, now, k) || k in f.stuck || k in f.unvisited
  }

  /** The files left by a pass: those kept, those that cannot be removed, and those the
    * traversal could not visit unless their row's own repair removes them. */
  predicate Stays(rows: Rows, now: int, f: Faults, k: Key) {
    || Kept(rows, now, k) || k in f.stuck
    || (k in f.unvisited && !Finished(rows, k) && k !in FencedKeys(rows, now, f))
  }

  /** The durable tree after a pass. */
  function SweptTree(rows: Rows, durable: map<Key, Bytes>, now: int, f: Faults): map<Key, Bytes> {
    map k | k in durable && Stays(rows, now, f, k) :: durable[k]
  }

  predicate Missing(rows: Rows, durable: map<Key, Bytes>, f: Faults, k: Key)
    requires k in rows
  {
    rows[k].state == Final && k !in durable && k !in f.unreadable
  }

  /** The rows after a pass. */
  function RepairedRows(rows: Rows, durable: map<Key, Bytes>, now: int, f: Faults): Rows {
    var fenced := FencedKeys(rows, now, f);
    map k | k in rows ::
      if k in fenced then rows[k].(state := Tombstoned, reason := ExpiredWriteLease)
      else if Missing(rows, durable, f, k) && k !in f.unrepairable then rows[k].(state := Tombstoned, reason := MissingFinalBytes)
      else rows[k]
  }

  ghost predicate PartsRemovable(temp: map<string, Bytes>, ks: set<Key>, f: Faults) {
    forall k :: k in ks && k.id in temp ==> k.id !in f.stuckParts
  }

  /** No fault comes in the way of phase (c) for this row. */
  predicate RepairsCleanly(rows: Rows, durable: map<Key, Bytes>, f: Faults, k: Key)
    requires k in rows
  {
    && (k in f.unreadable ==> rows[k].state != Final)
    && (k in durable && k in f.stuck ==> !Finished(rows, k))
    && (Missing(rows, durable, f, k) ==> k !in f.unrepairable)
  }

  /** No fault comes in the way of this pass. */
  ghost predicate Clear(rows: Rows, durable: map<Key, Bytes>, temp: map<string, Bytes>, now: int, f: Faults) {
    var expired := ExpiredWriting(rows, now).Keys;
    && expired !! f.unfenceable
    && PartsRemovable(temp, expired, f)
    && (forall k :: k in durable && k in f.stuck ==> Kept(rows, now, k))
    && (forall k :: k in durable && k in f.unvisited ==> k in expired)
    && (forall k :: k in rows ==> RepairsCleanly(rows, durable, f, k))
  }

  /** Fencing and reaping these keys fails nowhere. */
  ghost predicate FencesCleanly(durable: map<Key, Bytes>, temp: map<string, Bytes>, done: set<Key>, f: Faults) {
    && done !! f.unfenceable
    && (forall k :: k in done && k in durable ==> k !in f.stuck)
    && PartsRemovable(temp, done, f)
  }

  lemma FenceNone(rows: Rows)
    ensures FenceAll(rows, {}) == rows
  {
  }

  /** What one more key adds to the rows and files of phase (a). */
  lemma FenceMore(rows: Rows, durable: map<Key, Bytes>, done: set<Key>, k: Key, f: Faults)
    requires k in rows && k !in done
    ensures FenceAll(rows, done - f.unfenceable)[k] == rows[k]
    ensures FenceAll(rows, done + {k} - f.unfenceable) ==
            if k in f.unfenceable then FenceAll(rows, done - f.unfenceable)
            else FenceAll(rows, done - f.unfenceable)[k := rows[k].(state := Tombstoned, reason := ExpiredWriteLease)]
    ensures durable - (done + {k} - f.unfenceable - f.stuck) ==
            durable - (done - f.unfenceable - f.stuck) - (if k in f.unfenceable || k in f.stuck then {} else {k})
  {
  }

  lemma FenceMoreParts(temp: map<string, Bytes>, done: set<Key>, k: Key, f: Faults)
    ensures temp - (PartFiles(done + {k} - f.unfenceable) - f.stuckParts) ==
            temp - (PartFiles(done - f.unfenceable) - f.stuckParts)
            - (if k in f.unfenceable || k.id in f.stuckParts then {} else {k.id})
  {
    if k in f.unfenceable {
      assert done + {k} - f.unfenceable == done - f.unfenceable;
    } else {
      assert done + {k} - f.unfenceable == (done - f.unfenceable) + {k};
      assert PartFiles((done - f.unfenceable) + {k}) == PartFiles(done - f.unfenceable) + {k.id};
    }
  }

  /** A part file still there when its turn comes cannot be removed exactly when it could not be at first. */
  lemma FenceMoreFailures(durable: map<Key, Bytes>, temp: map<string, Bytes>, done: set<Key>, k: Key, f: Faults)
    requires k !in done
    ensures FencesCleanly(durable, temp, done + {k}, f) <==>
            && FencesCleanly(durable, temp, done, f) && k !in f.unfenceable
            && (k in durable - (done - f.unfenceable - f.stuck) ==> k !in f.stuck)
            && (k.id in temp - (PartFiles(done - f.unfenceable) - f.stuckParts) ==> k.id !in f.stuckParts)
  {
  }

  class Store {
    var rows: Rows
    var durable: map<Key, Bytes>
    var temp: map<string, Bytes>

    constructor (rows: Rows, durable: map<Key, Bytes>, temp: map<string, Bytes>)
      ensures this.rows == rows && this.durable == durable && this.temp == temp
    {
      this.rows, this.durable, this.temp := rows, durable, temp;
    }

    /** os.Remove: a file that is not there is no failure. */
    method RemoveFile(k: Key, f: Faults, errs: seq<Failure>) returns (errs': seq<Failure>)
      modifies this`durable
      ensures durable == if k in f.stuck then old(durable) else old(durable) - {k}
      ensures errs' == if k in old(durable) && k in f.stuck then errs + [RemoveFailed(k)] else errs
    {
      errs' := errs;
      if k in f.stuck {
        if k in durable { errs' := errs + [RemoveFailed(k)]; }
      } else {
        durable := durable - {k};
      }
    }

    method RemovePart(id: string, f: Faults, errs: seq<Failure>) returns (errs': seq<Failure>)
      modifies this`temp
      ensures temp == if id in f.stuckParts then old(temp) else old(temp) - {id}
      ensures errs' == if id in old(temp) && id in f.stuckParts then errs + [PartFailed(id)] else errs
    {
      errs' := errs;
      if id in f.stuckParts {
        if id in temp { errs' := errs + [PartFailed(id)]; }
      } else {
        temp := temp - {id};
      }
    }

    /** Fences one expired row, and only then reaps its files. */
    method FenceOne(k: Key, lease: Lease, f: Faults, errs0: seq<Failure>) returns (errs: seq<Failure>)
      requires OwnedWriting(rows, k, lease)
      modifies this
      ensures k in f.unfenceable ==> rows == old(rows) && durable == old(durable) && temp == old(temp) && errs != []
      ensures k !in f.unfenceable ==>
                && rows == old(rows)[k := old(rows)[k].(state := Tombstoned, reason := ExpiredWriteLease)]
                && durable == (if k in f.stuck then old(durable) else old(durable) - {k})
                && temp == (if k.id in f.stuckParts then old(temp) else old(temp) - {k.id})
                && (errs == [] <==> errs0 == [] && (k in old(durable) ==> k !in f.stuck) && (k.id in old(temp) ==> k.id !in f.stuckParts))
    {
      if k in f.unfenceable { return errs0 + [FenceFailed(k)]; }
      errs := errs0;
      if OwnedWriting(rows, k, lease) {
        rows := InvalidateWriting(rows, k, lease, ExpiredWriteLease);
        errs := RemoveFile(k, f, errs);
        errs := RemovePart(k.id, f, errs);
      }
    }

    /** Phase (a). */
    method FenceExpired(now: int, f: Faults) returns (errs: seq<Failure>)
      modifies this
      ensures rows == FenceAll(old(rows), FencedKeys(old(rows), now, f))
      ensures durable == old(durable) - (FencedKeys(old(rows), now, f) - f.stuck)
      ensures temp == old(temp) - (PartFiles(FencedKeys(old(rows), now, f)) - f.stuckParts)
      ensures errs == [] <==> FencesCleanly(old(durable), old(temp), ExpiredWriting(old(rows), now).Keys, f)
    {
      errs := [];
      var expired := ExpiredWriting(rows, now);
      var todo := expired.Keys;
      ghost var done := {};
      FenceNone(rows);
      while todo != {}
        invariant todo + done == expired.Keys && todo !! done
        invariant rows == FenceAll(old(rows), done - f.unfenceable)
        invariant durable == old(durable) - (done - f.unfenceable - f.stuck)
        invariant temp == old(temp) - (PartFiles(done - f.unfenceable) - f.stuckParts)
        invariant errs == [] <==> FencesCleanly(old(durable), old(temp), done, f)
      {
        var k :| k in todo;
        FenceMore(old(rows), old(durable), done, k, f);
        FenceMoreParts(old(temp), done, k, f);
        FenceMoreFailures(old(durable), old(temp), done, k, f);
        errs := FenceOne(k, expired[k], f, errs);
        todo, done := todo - {k}, done + {k};
      }
      assert done == expired.Keys;
    }

    /** Phase (b): remove every file that no final row and no live writer owns, if it can be visited. */
    method SweepTree(now: int, f: Faults) returns (errs: seq<Failure>)
      modifies this`durable
      ensures durable == map k | k in old(durable) && Passed(rows, now, f, k) :: old(durable)[k]
      ensures errs == [] <==> forall k :: k in old(durable) ==> k !in f.unvisited && (k in f.stuck ==> Kept(rows, now, k))
    {
      errs := [];
      var todo := durable.Keys;
      while todo != {}
        invariant todo <= old(durable).Keys
        invariant forall k :: k in durable <==> k in old(durable) && (k in todo || Passed(rows, now, f, k))
        invariant forall k :: k in durable ==> durable[k] == old(durable)[k]
        invariant errs == [] <==>
                  forall k :: k in old(durable).Keys - todo ==> k !in f.unvisited && (k in f.stuck ==> Kept(rows, now, k))
      {
        var k :| k in todo;
        if k in f.unvisited {
          errs := errs + [VisitFailed(k)];
        } else if !Kept(rows, now, k) {
          errs := RemoveFile(k, f, errs);
        }
        todo := todo - {k};
      }
    }

    /** One row of phase (c). */
    method RepairOne(k: Key, f: Faults, errs0: seq<Failure>) returns (errs: seq<Failure>)
      requires k in rows && rows[k].state != Writing
      modifies this`rows, this`durable
      ensures durable == if Finished(old(rows), k) && k !in f.stuck then old(durable) - {k} else old(durable)
      ensures rows == if Missing(old(rows), old(durable), f, k) && k !in f.unrepairable
                      then old(rows)[k := old(rows)[k].(state := Tombstoned, reason := MissingFinalBytes)] else old(rows)
      ensures errs == [] <==> errs0 == [] && RepairsCleanly(old(rows), old(durable), f, k)
    {
      errs := errs0;
      if rows[k].state != Final {
        if k in f.unreadable || k in durable {
          errs := RemoveFile(k, f, errs);
        }
      } else if k in f.unreadable {
        errs := errs + [StatFailed(k)];
      } else if k !in durable {
        if k in f.unrepairable { return errs + [UpdateFailed(k)]; }
        rows := Tombstone(rows, k, MissingFinalBytes);
      }
    }

    /** Phase (c): finish tombstones, and tombstone final rows whose bytes are missing. */
    method RepairRows(f: Faults) returns (errs: seq<Failure>)
      modifies this`rows, this`durable
      ensures durable == map k | k in old(durable) && (k in f.stuck || !Finished(old(rows), k)) :: old(durable)[k]
      ensures rows == map k | k in old(rows) ::
                        if Missing(old(rows), old(durable), f, k) && k !in f.unrepairable
                        then old(rows)[k].(state := Tombstoned, reason := MissingFinalBytes) else old(rows)[k]
      ensures errs == [] <==> forall k :: k in old(rows) ==> RepairsCleanly(old(rows), old(durable), f, k)
    {
      errs := [];
      var list := FinalPaths(rows);
      var todo := list.Keys;
      while todo != {}
        invariant todo <= list.Keys
        invariant forall k :: k in durable <==> k in old(durable) && (k in f.stuck || k in todo || !Finished(old(rows), k))
        invariant forall k :: k in durable ==> durable[k] == old(durable)[k]
        invariant rows.Keys == old(rows).Keys
        invariant forall k :: k in rows ==>
                    rows[k] == if k !in todo && Missing(old(rows), old(durable), f, k) && k !in f.unrepairable
                               then old(rows)[k].(state := Tombstoned, reason := MissingFinalBytes) else old(rows)[k]
        invariant errs == [] <==> forall k :: k in list.Keys - todo ==> RepairsCleanly(old(rows), old(durable), f, k)
      {
        var k :| k in todo;
        assert list.Keys - (todo - {k}) == (list.Keys - todo) + {k};
        errs := RepairOne(k, f, errs);
        todo := todo - {k};
      }
    }

    /** A whole pass, faults and all: exactly the rows and files it leaves, and when it reports success. */
    method Reconcile(now: int, f: Faults) returns (errs: seq<Failure>)
      modifies this
      ensures rows == RepairedRows(old(rows), old(durable), now, f)
      ensures durable == SweptTree(old(rows), old(durable), now, f)
      ensures temp == old(temp) - (PartFiles(FencedKeys(old(rows), now, f)) - f.stuckParts)
      ensures errs == [] <==> Clear(old(rows), old(durable), old(temp), now, f)
    {
      errs := FenceExpired(now, f);
      PhasesMakeTree(rows, durable, old(rows), old(durable), now, f);
      PhasesMakeRows(rows, durable, old(rows), old(durable), now, f);
      PhasesReport(rows, durable, old(rows), old(durable), old(temp), now, f);
      var more := SweepTree(now, f);
      errs := errs + more;
      more := RepairRows(f);
      errs := errs + more;
    }
  }

  // ---- The three phases together ----

  ghost predicate AfterFencing(rows1: Rows, durable1: map<Key, Bytes>, rows: Rows, durable: map<Key, Bytes>, now: int, f: Faults) {
    && rows1 == FenceAll(rows, FencedKeys(rows, now, f))
    && durable1 == durable - (FencedKeys(rows, now, f) - f.stuck)
  }

  function Traversed(rows: Rows, durable: map<Key, Bytes>, now: int, f: Faults): map<Key, Bytes> {
    map k | k in durable && Passed(rows, now, f, k) :: durable[k]
  }

  lemma PhasesMakeTree(rows1: Rows, durable1: map<Key, Bytes>, rows: Rows, durable: map<Key, Bytes>, now: int, f: Faults)
    requires AfterFencing(rows1, durable1, rows, durable, now, f)
    ensures var durable2 := Traversed(rows1, durable1, now, f);
            (map k | k in durable2 && (k in f.stuck || !Finished(rows1, k)) :: durable2[k]) == SweptTree(rows, durable, now, f)
  {
  }

  lemma PhasesMakeRows(rows1: Rows, durable1: map<Key, Bytes>, rows: Rows, durable: map<Key, Bytes>, now: int, f: Faults)
    requires AfterFencing(rows1, durable1, rows, durable, now, f)
    ensures var durable2 := Traversed(rows1, durable1, now, f);
            (map k | k in rows1 ::
               if Missing(rows1, durable2, f, k) && k !in f.unrepairable
               then rows1[k].(state := Tombstoned, reason := MissingFinalBytes) else rows1[k]) == RepairedRows(rows, durable, now, f)
  {
  }

  ghost predicate SweepsCleanly(rows: Rows, durable: map<Key, Bytes>, now: int, f: Faults) {
    forall k :: k in durable ==> k !in f.unvisited && (k in f.stuck ==> Kept(rows, now, k))
  }

  /** For one row, phase (c) meets the faults it would have met at the start of the pass. */
  lemma RepairsAlike(rows1: Rows, durable1: map<Key, Bytes>, rows: Rows, durable: map<Key, Bytes>, now: int, f: Faults, k: Key)
    requires AfterFencing(rows1, durable1, rows, durable, now, f) && k in rows
    requires k in durable && k in f.stuck ==> Kept(rows, now, k)
    ensures RepairsCleanly(rows1, Traversed(rows1, durable1, now, f), f, k) <==> RepairsCleanly(rows, durable, f, k)
  {
  }

  lemma SweepsAlike(rows1: Rows, durable1: map<Key, Bytes>, rows: Rows, durable: map<Key, Bytes>, temp: map<string, Bytes>, now: int, f: Faults)
    requires AfterFencing(rows1, durable1, rows, durable, now, f)
    requires FencesCleanly(durable, temp, ExpiredWriting(rows, now).Keys, f)
    ensures SweepsCleanly(rows1, durable1, now, f) <==>
              && (forall k :: k in durable && k in f.stuck ==> Kept(rows, now, k))
              && (forall k :: k in durable && k in f.unvisited ==> k in ExpiredWriting(rows, now).Keys)
  {
    assert FencedKeys(rows, now, f) == ExpiredWriting(rows, now).Keys;
    if SweepsCleanly(rows1, durable1, now, f) {
      forall k | k in durable && k in f.stuck ensures Kept(rows, now, k) { assert k in durable1; }
      forall k | k in durable && k in f.unvisited ensures k in ExpiredWriting(rows, now).Keys { assert k !in durable1; }
    }
  }

  lemma PhasesReport(rows1: Rows, durable1: map<Key, Bytes>, rows: Rows, durable: map<Key, Bytes>, temp: map<string, Bytes>, now: int, f: Faults)
    requires AfterFencing(rows1, durable1, rows, durable, now, f)
    ensures Clear(rows, durable, temp, now, f) <==>
            && FencesCleanly(durable, temp, ExpiredWriting(rows, now).Keys, f)
            && SweepsCleanly(rows1, durable1, now, f)
            && (forall k :: k in rows1 ==> RepairsCleanly(rows1, Traversed(rows1, durable1, now, f), f, k))
  {
    if FencesCleanly(durable, temp, ExpiredWriting(rows, now).Keys, f) {
      SweepsAlike(rows1, durable1, rows, durable, temp, now, f);
      if SweepsCleanly(rows1, durable1, now, f) {
        forall k | k in rows
          ensures RepairsCleanly(rows1, Traversed(rows1, durable1, now, f), f, k) <==> RepairsCleanly(rows, durable, f, k)
        {
          RepairsAlike(rows1, durable1, rows, durable, now, f, k);
        }
      }
    }
  }

  // ---- What a pass achieves ----

  /** A pass never loses data: a final artifact with its bytes keeps both, whatever fails. */
  lemma FinalBytesSurvive(rows: Rows, durable: map<Key, Bytes>, now: int, f: Faults, k: Key)
    requires k in rows && rows[k].state == Final && k in durable
    ensures RepairedRows(rows, durable, now, f)[k] == rows[k]
    ensures k in SweptTree(rows, durable, now, f) && SweptTree(rows, durable, now, f)[k] == durable[k]
  {
  }

  ghost predicate NoWriter(rows: Rows) {
    forall k :: k in rows ==> rows[k].state != Writing
  }

  function FinalKeys(rows: Rows): set<Key> {
    set k | k in rows && rows[k].state == Final
  }

  /** After a pass no row is writing exactly when every lease had ended strictly before
    * the pass began and every such row could be fenced. */
  lemma AllWritersReapedIff(rows: Rows, durable: map<Key, Bytes>, now: int, f: Faults)
    ensures NoWriter(RepairedRows(rows, durable, now, f)) <==>
            forall k :: k in rows && rows[k].state == Writing ==> rows[k].expiresAt < now && k !in f.unfenceable
  {
    var rows' := RepairedRows(rows, durable, now, f);
    forall k | k in rows && rows[k].state == Writing
      ensures rows'[k].state == Writing <==> rows[k].expiresAt >= now || k in f.unfenceable
    {
      assert k in ExpiredWriting(rows, now) <==> rows[k].expiresAt < now;
    }
    if NoWriter(rows') {
      forall k | k in rows && rows[k].state == Writing ensures rows[k].expiresAt < now && k !in f.unfenceable { assert k in rows'; }
    }
  }

  /** A pass without failures over a store with no live writer leaves exactly the
    * files of the final rows: every file belongs to a final row, and every final
    * row has its file. */
  lemma PassConverges(rows: Rows, durable: map<Key, Bytes>, temp: map<string, Bytes>, now: int, f: Faults)
    requires Clear(rows, durable, temp, now, f)
    requires forall k :: k in rows && rows[k].state == Writing ==> rows[k].expiresAt < now
    ensures NoWriter(RepairedRows(rows, durable, now, f))
    ensures SweptTree(rows, durable, now, f).Keys == FinalKeys(RepairedRows(rows, durable, now, f))
  {
    AllWritersReapedIff(rows, durable, now, f);
    var rows', tree := RepairedRows(rows, durable, now, f), SweptTree(rows, durable, now, f);
    forall k ensures k in tree <==> k in FinalKeys(rows') {}
  }

  /** A second pass, at any later time and under any faults of its own, then changes nothing. */
  lemma SecondPassChangesNothing(rows: Rows, durable: map<Key, Bytes>, temp: map<string, Bytes>, now: int, f: Faults, later: int, g: Faults)
    requires Clear(rows, durable, temp, now, f)
    requires forall k :: k in rows && rows[k].state == Writing ==> rows[k].expiresAt < now
    ensures var rows', tree := RepairedRows(rows, durable, now, f), SweptTree(rows, durable, now, f);
            RepairedRows(rows', tree, later, g) == rows' && SweptTree(rows', tree, later, g) == tree
  {
    var rows', tree := RepairedRows(rows, durable, now, f), SweptTree(rows, durable, now, f);
    PassConverges(rows, durable, temp, now, f);
    assert FencedKeys(rows', later, g) == {};
    forall k | k in rows' ensures !Missing(rows', tree, g, k) {
      assert k in FinalKeys(rows') ==> k in tree;
    }
    forall k | k in tree ensures Kept(rows', later, k) {
      assert k in FinalKeys(rows');
    }
  }

  /** Whatever fails, the traversal keeps the file of a writing row exactly when the lease ends
    * strictly after the pass began, or the file cannot be removed, or could not be visited and
    * its row was not fenced; the row stays writing exactly when the lease had not ended
    * strictly before or its fencing failed. */
  lemma WriterKeepsItsBytesIff(rows: Rows, durable: map<Key, Bytes>, now: int, f: Faults, k: Key)
    requires k in rows && rows[k].state == Writing && k in durable
    ensures k in SweptTree(rows, durable, now, f) <==>
              rows[k].expiresAt > now || k in f.stuck || (k in f.unvisited && (rows[k].expiresAt == now || k in f.unfenceable))
    ensures RepairedRows(rows, durable, now, f)[k].state == Writing <==> rows[k].expiresAt >= now || k in f.unfenceable
  {
    assert k in ExpiredWriting(rows, now) <==> rows[k].expiresAt < now;
  }

  /** So a pass takes the bytes of a row and leaves it writing exactly when the lease ends at
    * the very instant the pass began, or had ended and could not be fenced, and the
    * traversal reached the file and could remove it. */
  lemma WriterLosesItsBytesIff(rows: Rows, durable: map<Key, Bytes>, now: int, f: Faults, k: Key)
    requires k in rows && rows[k].state == Writing && k in durable
    ensures k !in SweptTree(rows, durable, now, f) && RepairedRows(rows, durable, now, f)[k].state == Writing <==>
              && (rows[k].expiresAt == now || (rows[k].expiresAt < now && k in f.unfenceable))
              && k !in f.stuck && k !in f.unvisited
  {
    WriterKeepsItsBytesIff(rows, durable, now, f, k);
  }
}
