/** What a lease protects in every run, none of the assumptions taken for granted: fencing
  * may fail, leases may end as a pass starts, rows may come late, commits may go wrong. */
module ArtifactLeases {
  import opened ArtifactRows
  import opened ArtifactMachine
  import opened ArtifactSafety
  import opened Results

  /** The row of `k`, if it is writing, has a lease that a pass with this `now` takes for expired. */
  ghost predicate MayGo(rows: Rows, used: set<Id>, now: int, k: Key) {
    k.id in used && (k in rows && rows[k].state == Writing ==> rows[k].expiresAt <= now)
  }

  ghost predicate NoneWriting(rows: Rows, list: map<Key, RowState>) {
    forall k :: k in list ==> k in rows && rows[k].state != Writing
  }

  /** What a pass is about to remove may go, and its repair list holds no writing row. */
  ghost predicate Spares(rows: Rows, used: set<Id>, p: Pass) {
    match p.stage
    case Fencing(_) => true
    case ReapDurable(k, _) => MayGo(rows, used, p.now, k)
    case ReapTemp(k, _) => MayGo(rows, used, p.now, k)
    case Walking => true
    case WalkRemove(k) => MayGo(rows, used, p.now, k)
    case Repairing(list) => NoneWriting(rows, list)
    case RepairRemove(k, list) => NoneWriting(rows, list) && MayGo(rows, used, p.now, k)
    case RepairTombstone(k, list) => NoneWriting(rows, list) && MayGo(rows, used, p.now, k)
  }

  ghost predicate PassSpares(s: State, n: nat) {
    n in s.passes ==> Spares(s.rows, s.used, s.passes[n])
  }

  ghost predicate DeletionSpares(s: State, n: nat) {
    n in s.deletions ==> s.deletions[n].dead in s.rows && s.rows[s.deletions[n].dead].state != Writing
  }

  ghost predicate RowKnown(s: State, k: Key) {
    k in s.rows ==> k.id in s.used
  }

  ghost predicate LeaseInv(s: State) {
    && (forall k :: RowKnown(s, k))
    && (forall n :: PassSpares(s, n))
    && (forall n :: DeletionSpares(s, n))
  }

  /** Rows persist and only move forward, and new ones come under fresh ids. */
  ghost predicate Onward(rows: Rows, used: set<Id>, rows': Rows, used': set<Id>) {
    && used <= used'
    && (forall k :: k in rows ==> k in rows' && (rows'[k] == rows[k] || rows'[k].state != Writing))
    && (forall k :: k in rows' && k !in rows ==> k.id !in used)
  }

  lemma StepOnward(s: State, e: Event)
    requires LeaseInv(s) && Enabled(s, e)
    ensures Onward(s.rows, s.used, Next(s, e).rows, Next(s, e).used)
  {
    forall k | k in s.rows
      ensures k in Next(s, e).rows && (Next(s, e).rows[k] == s.rows[k] || Next(s, e).rows[k].state != Writing)
    {
      assert RowKnown(s, k);
      RowStepForward(s, e, k);
    }
    forall k ensures k in Next(s, e).rows && k !in s.rows ==> k.id !in s.used { RowsGrowOnlyAtBegin(s, e, k); }
    match e
    case Begin(_, _, _, _, _) =>
    case _ =>
  }

  lemma SparesLater(rows: Rows, used: set<Id>, rows': Rows, used': set<Id>, p: Pass)
    requires Onward(rows, used, rows', used') && Spares(rows, used, p)
    ensures Spares(rows', used', p)
  {
  }

  lemma PassStepSpares(rows: Rows, d: Disk, used: set<Id>, p: Pass, op: PassOp)
    requires PassEnabled(used, p, op) && Spares(rows, used, p) && forall k :: k in rows ==> k.id in used
    ensures var r := PassStep(rows, d, used, p, op); r.pass.Some? ==> Spares(r.rows, used, r.pass.value)
  {
  }

  lemma StepSparesPass(s: State, e: Event, n: nat)
    requires LeaseInv(s) && Enabled(s, e)
    ensures PassSpares(Next(s, e), n)
  {
    assert PassSpares(s, n);
    StepOnward(s, e);
    if e.PassDoes? && e.n == n {
      forall k | k in s.rows ensures k.id in s.used { assert RowKnown(s, k); }
      PassStepSpares(s.rows, s.disk, s.used, s.passes[n], e.pop);
    } else if n in s.passes && n in Next(s, e).passes {
      SparesLater(s.rows, s.used, Next(s, e).rows, Next(s, e).used, s.passes[n]);
    }
  }

  lemma StepSparesDeletion(s: State, e: Event, n: nat)
    requires LeaseInv(s) && Enabled(s, e)
    ensures DeletionSpares(Next(s, e), n)
  {
    assert DeletionSpares(s, n);
    StepOnward(s, e);
  }

  lemma StepKeepsLeaseInv(s: State, e: Event)
    requires LeaseInv(s) && Enabled(s, e)
    ensures LeaseInv(Next(s, e))
  {
    forall k ensures RowKnown(Next(s, e), k) {
      assert RowKnown(s, k);
      RowsGrowOnlyAtBegin(s, e, k);
      StepOnward(s, e);
    }
    forall n ensures PassSpares(Next(s, e), n) { StepSparesPass(s, e, n); }
    forall n ensures DeletionSpares(Next(s, e), n) { StepSparesDeletion(s, e, n); }
  }

  lemma {:induction false} RunKeepsLeaseInv(s: State, es: seq<Event>)
    requires LeaseInv(s) && Runs(s, es)
    ensures LeaseInv(After(s, es))
    decreases |es|
  {
    if es != [] {
      StepKeepsLeaseInv(s, es[0]);
      RunKeepsLeaseInv(Next(s, es[0]), es[1..]);
    }
  }

  lemma PassSparesLive(rows: Rows, d: Disk, used: set<Id>, p: Pass, op: PassOp, k: Key)
    requires PassEnabled(used, p, op) && Spares(rows, used, p)
    requires k in rows && rows[k].state == Writing && p.now < rows[k].expiresAt
    ensures SameBytes(d, PassStep(rows, d, used, p, op).disk, k)
  {
  }

  /** In every run whatsoever, the durable bytes of a writing row are touched by its own
    * writer, by power loss, and by passes at whose `now` its lease had ended, and by
    * nobody else: no pass removes the bytes of a writer whose lease is live at its `now`. */
  lemma LiveWriterKeepsItsBytes(s: State, es: seq<Event>, e: Event, k: Key)
    requires Initial(s) && Runs(s, es)
    requires Enabled(After(s, es), e) && !e.PowerLoss? && (e.WriterDoes? ==> e.k != k)
    requires k in After(s, es).rows && After(s, es).rows[k].state == Writing
    requires e.PassDoes? ==> After(s, es).passes[e.n].now < After(s, es).rows[k].expiresAt
    ensures SameBytes(After(s, es).disk, Next(After(s, es), e).disk, k)
  {
    var t := After(s, es);
    RunKeepsLeaseInv(s, es);
    match e
    case WriterDoes(l, op) => WriterLeavesOthers(t.rows, t.disk, l, t.writers[l], op, k);
    case PassDoes(n, op) =>
      assert PassSpares(t, n);
      PassSparesLive(t.rows, t.disk, t.used, t.passes[n], op, k);
    case DeleteStep(n, done) => assert DeletionSpares(t, n);
    case _ =>
  }
}
