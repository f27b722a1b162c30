/** What every run of the artifact store keeps.
  *
  * The invariant is a conjunction of facts about one key, one pass, one
  * deletion or one reader. A step acts on one key; every other key is left as
  * it was, and rows only ever move forward, which is all that passes, deletions
  * and readers rely on.
  */
module ArtifactSafety {
  import opened ArtifactRows
  import opened ArtifactMachine
  import opened Results

  // ---- The invariant ----

  /** The durable bytes of `k` are there, on stable storage, and are what the row says. */
  ghost predicate Intact(rows: Rows, d: Disk, k: Key)
    requires k in rows
  {
    k in d.durable && k in d.synced && Sha256(d.durable[k]) == rows[k].sha && |d.durable[k]| == rows[k].size
  }

  ghost predicate WriterFits(rows: Rows, d: Disk, k: Key, w: Writer) {
    && k in rows
    && rows[k].state != Final
    && (rows[k].state == Writing ==> rows[k].lease == w.lease)
    && (w.stage == Opening ==> k.id !in d.temp && w.data == [])
    && (w.stage in {Streaming, Verified, Flushed} && k.id in d.temp ==> d.temp[k.id] == w.data)
    && (w.stage in {Renamed, DirFlushed} && rows[k].state == Writing ==> k in d.durable && d.durable[k] == w.data)
    && (w.stage == DirFlushed && rows[k].state == Writing ==> k in d.synced)
  }

  /** The facts about one key that do not mention its writer. */
  ghost predicate FileFits(rows: Rows, d: Disk, used: set<Id>, k: Key) {
    && (k in rows || k in d.durable ==> k.id in used)
    && (k in d.synced ==> k in d.durable)
    && (k in rows && rows[k].state == Final ==> Intact(rows, d, k))
  }

  ghost predicate KeyFits(s: State, k: Key) {
    && FileFits(s.rows, s.disk, s.used, k)
    && (k in s.writers ==> WriterFits(s.rows, s.disk, k, s.writers[k]))
  }

  /** Nothing will ever make `k` final, so its bytes may go. */
  ghost predicate Dead(rows: Rows, used: set<Id>, k: Key) {
    k.id in used && (k in rows ==> rows[k].state in {Deleting, Tombstoned})
  }

  /** A row that a pass with this `now` could later meet as expired is on its list to be fenced. */
  ghost predicate Fenced(rows: Rows, now: int, todo: map<Key, Lease>, k: Key) {
    k in rows && rows[k].state == Writing && rows[k].expiresAt <= now ==> k in todo && todo[k] == rows[k].lease
  }

  ghost predicate FenceFits(rows: Rows, now: int, todo: map<Key, Lease>) {
    forall k :: Fenced(rows, now, todo, k)
  }

  ghost predicate Listed(rows: Rows, list: map<Key, RowState>, k: Key) {
    k in list ==> k in rows && rows[k].state != Writing && (list[k] != Final ==> rows[k].state != Final)
  }

  ghost predicate ListFits(rows: Rows, list: map<Key, RowState>) {
    forall k :: Listed(rows, list, k)
  }

  ghost predicate PassFits(rows: Rows, used: set<Id>, p: Pass) {
    match p.stage
    case Fencing(todo) => FenceFits(rows, p.now, todo)
    case ReapDurable(k, todo) => FenceFits(rows, p.now, todo) && Dead(rows, used, k)
    case ReapTemp(k, todo) => FenceFits(rows, p.now, todo) && Dead(rows, used, k)
    case Walking => FenceFits(rows, p.now, map[])
    case WalkRemove(k) => FenceFits(rows, p.now, map[]) && Dead(rows, used, k)
    case Repairing(list) => ListFits(rows, list)
    case RepairRemove(k, list) => ListFits(rows, list) && Dead(rows, used, k)
    case RepairTombstone(k, list) => ListFits(rows, list) && Dead(rows, used, k)
  }

  ghost predicate ReaderFits(rows: Rows, d: Disk, r: Reader) {
    && r.target in rows && rows[r.target].state != Writing
    && (r.target in d.durable ==> Sha256(d.durable[r.target]) == r.sha && |d.durable[r.target]| == r.size)
  }

  ghost predicate SameIdSameRow(rows: Rows, k: Key, l: Key) {
    k in rows && l in rows && k.id == l.id ==> k == l
  }

  ghost predicate PassAt(s: State, n: nat) {
    n in s.passes ==> s.passes[n].now <= s.clock && PassFits(s.rows, s.used, s.passes[n])
  }

  ghost predicate DeletionAt(s: State, n: nat) {
    n in s.deletions ==> Dead(s.rows, s.used, s.deletions[n].dead)
  }

  ghost predicate ReaderAt(s: State, n: nat) {
    n in s.readers ==> ReaderFits(s.rows, s.disk, s.readers[n]) && s.readers[n].target !in s.writers
  }

  ghost predicate UniqueIds(rows: Rows) {
    forall k, l :: SameIdSameRow(rows, k, l)
  }

  ghost predicate Inv(s: State) {
    && (forall k :: KeyFits(s, k))
    && (forall n :: PassAt(s, n))
    && (forall n :: DeletionAt(s, n))
    && (forall n :: ReaderAt(s, n))
    && UniqueIds(s.rows)
    && s.disk.temp.Keys <= s.used
  }

  // ---- Rows only move forward ----

  /** From `rows` to `rows'` rows keep their identity and only move forward; rows
    * that are new were committed under a fresh id and a lease still live at `clock`. */
  ghost predicate Forward(rows: Rows, used: set<Id>, clock: int, rows': Rows, used': set<Id>) {
    && used <= used'
    && (forall k :: k in rows ==> k in rows' && (rows'[k] == rows[k] || Rank(rows[k].state) < Rank(rows'[k].state)))
    && (forall k :: k in rows' && k !in rows ==>
          k.id !in used && k.id in used' && rows'[k].state == Writing && clock < rows'[k].expiresAt)
  }

  lemma WriterForward(rows: Rows, d: Disk, k: Key, w: Writer, op: WriterOp, used: set<Id>, clock: int)
    ensures Forward(rows, used, clock, WriterStep(rows, d, k, w, op).rows, used)
  {
  }

  lemma PassForward(rows: Rows, d: Disk, used: set<Id>, p: Pass, op: PassOp, clock: int)
    requires PassEnabled(used, p, op)
    ensures Forward(rows, used, clock, PassStep(rows, d, used, p, op).rows, used)
  {
  }

  lemma StepForward(s: State, e: Event)
    requires Enabled(s, e) && Sound(s, e) && forall k :: KeyFits(s, k)
    ensures Forward(s.rows, s.used, s.clock, Next(s, e).rows, Next(s, e).used) && s.clock <= Next(s, e).clock
  {
    match e
    case WriterDoes(k, op) => WriterForward(s.rows, s.disk, k, s.writers[k], op, s.used, s.clock);
    case PassDoes(n, op) => PassForward(s.rows, s.disk, s.used, s.passes[n], op, s.clock);
    case Begin(k, _, _, _, _) => assert KeyFits(s, k);
    case _ =>
  }

  lemma DeadStays(rows: Rows, used: set<Id>, clock: int, rows': Rows, used': set<Id>, k: Key)
    requires Forward(rows, used, clock, rows', used') && Dead(rows, used, k)
    ensures Dead(rows', used', k)
  {
  }

  lemma FenceStays(rows: Rows, used: set<Id>, clock: int, rows': Rows, used': set<Id>, now: int, todo: map<Key, Lease>)
    requires Forward(rows, used, clock, rows', used') && FenceFits(rows, now, todo) && now <= clock
    ensures FenceFits(rows', now, todo)
  {
    forall k ensures Fenced(rows', now, todo, k) { assert Fenced(rows, now, todo, k); }
  }

  lemma ListStays(rows: Rows, used: set<Id>, clock: int, rows': Rows, used': set<Id>, list: map<Key, RowState>)
    requires Forward(rows, used, clock, rows', used') && ListFits(rows, list)
    ensures ListFits(rows', list)
  {
    forall k ensures Listed(rows', list, k) { assert Listed(rows, list, k); }
  }

  /** A pass that takes no step of its own still fits. */
  lemma PassStays(rows: Rows, used: set<Id>, clock: int, rows': Rows, used': set<Id>, p: Pass)
    requires Forward(rows, used, clock, rows', used') && PassFits(rows, used, p) && p.now <= clock
    ensures PassFits(rows', used', p)
  {
    var stage := p.stage;
    if stage.Fencing? || stage.ReapDurable? || stage.ReapTemp? {
      FenceStays(rows, used, clock, rows', used', p.now, stage.todo);
    } else if stage.Walking? || stage.WalkRemove? {
      FenceStays(rows, used, clock, rows', used', p.now, map[]);
    } else {
      ListStays(rows, used, clock, rows', used', stage.list);
    }
    if stage.ReapDurable? || stage.ReapTemp? || stage.WalkRemove? || stage.RepairRemove? || stage.RepairTombstone? {
      DeadStays(rows, used, clock, rows', used', stage.dead);
    }
  }

  // ---- What a step does to the files ----

  /** Removing the bytes of a dead key, or its .part file, disturbs neither files nor writers. */
  lemma UnlinkKeeps(rows: Rows, d: Disk, used: set<Id>, dead: Key, done: bool, l: Key)
    requires Dead(rows, used, dead) && FileFits(rows, d, used, l)
    ensures FileFits(rows, TryUnlink(d, dead, done), used, l) && FileFits(rows, TryUnlinkTemp(d, dead, done), used, l)
    ensures forall w :: WriterFits(rows, d, l, w) ==>
              WriterFits(rows, TryUnlink(d, dead, done), l, w) && WriterFits(rows, TryUnlinkTemp(d, dead, done), l, w)
  {
  }

  /** Tombstoning a row, for whatever reason, disturbs neither files nor writers. */
  lemma TombstoneKeeps(rows: Rows, d: Disk, used: set<Id>, k: Key, reason: Reason, l: Key)
    requires FileFits(rows, d, used, l)
    ensures FileFits(Tombstone(rows, k, reason), d, used, l)
    ensures forall w :: WriterFits(rows, d, l, w) ==> WriterFits(Tombstone(rows, k, reason), d, l, w)
  {
  }

  /** Fencing is the tombstoning of a row that is still owned. */
  lemma InvalidateIsTombstone(rows: Rows, k: Key, lease: Lease, reason: Reason)
    requires OwnedWriting(rows, k, lease)
    ensures InvalidateWriting(rows, k, lease, reason) == Tombstone(rows, k, reason)
  {
  }

  lemma PassStepKeepsKey(rows: Rows, d: Disk, used: set<Id>, p: Pass, op: PassOp, l: Key)
    requires PassEnabled(used, p, op) && PassFits(rows, used, p) && FileFits(rows, d, used, l)
    ensures var r := PassStep(rows, d, used, p, op);
            && FileFits(r.rows, r.disk, used, l)
            && (forall w :: WriterFits(rows, d, l, w) ==> WriterFits(r.rows, r.disk, l, w))
  {
    match op
    case Fence(k) =>
      if OwnedWriting(rows, k, p.stage.todo[k]) {
        InvalidateIsTombstone(rows, k, p.stage.todo[k], ExpiredWriteLease);
        TombstoneKeeps(rows, d, used, k, ExpiredWriteLease, l);
      }
    case Act(done) =>
      UnlinkKeeps(rows, d, used, p.stage.dead, done, l);
      TombstoneKeeps(rows, d, used, p.stage.dead, MissingFinalBytes, l);
    case _ =>
  }

  /** A writer's step leaves every other key alone. */
  lemma WriterStepOther(rows: Rows, d: Disk, k: Key, w: Writer, op: WriterOp, used: set<Id>, l: Key)
    requires l != k && k in rows && UniqueIds(rows) && FileFits(rows, d, used, l)
    ensures var r := WriterStep(rows, d, k, w, op);
            && FileFits(r.rows, r.disk, used, l)
            && (forall v :: WriterFits(rows, d, l, v) ==> WriterFits(r.rows, r.disk, l, v))
  {
    assert SameIdSameRow(rows, k, l);
  }

  /** A writer's step keeps its own facts, provided a failing commit was not applied. */
  lemma WriterStepOwn(rows: Rows, d: Disk, k: Key, w: Writer, op: WriterOp, used: set<Id>)
    requires WriterEnabled(d, k, w, op) && FileFits(rows, d, used, k) && WriterFits(rows, d, k, w)
    requires op.Commit? && op.report.Failed? ==> !op.report.applied
    ensures var r := WriterStep(rows, d, k, w, op);
            && FileFits(r.rows, r.disk, used, k)
            && (r.writer.Some? ==> WriterFits(r.rows, r.disk, k, r.writer.value))
  {
  }

  // ---- What a pass does to itself ----

  lemma PassStepKeepsPass(rows: Rows, d: Disk, used: set<Id>, p: Pass, op: PassOp, clock: int)
    requires PassEnabled(used, p, op) && PassFits(rows, used, p) && p.now <= clock && !op.FenceFails?
    requires forall k :: FileFits(rows, d, used, k)
    ensures var r := PassStep(rows, d, used, p, op);
            r.pass.Some? ==> r.pass.value.now == p.now && PassFits(r.rows, used, r.pass.value)
  {
    var r := PassStep(rows, d, used, p, op);
    PassForward(rows, d, used, p, op, clock);
    PassStays(rows, used, clock, r.rows, used, p);
    match op
    case Fence(k) =>
      forall l ensures Fenced(r.rows, p.now, p.stage.todo - {k}, l) { assert Fenced(rows, p.now, p.stage.todo, l); }
      assert FileFits(rows, d, used, k);
    case Walk =>
    case Visit(k) => assert Fenced(rows, p.now, map[], k);
    case List => forall l ensures Listed(rows, FinalPaths(rows), l) {}
    case Stat(k, readable) =>
      assert Listed(rows, p.stage.list, k);
      forall l ensures Listed(rows, p.stage.list - {k}, l) { assert Listed(rows, p.stage.list, l); }
      assert FileFits(rows, d, used, k);
    case _ =>
  }

  // ---- Every step keeps the invariant ----

  lemma StepKeepsKeys(s: State, e: Event, k: Key)
    requires Inv(s) && Enabled(s, e) && Sound(s, e)
    ensures KeyFits(Next(s, e), k)
  {
    assert KeyFits(s, k);
    match e
    case Begin(l, _, _, _, _) => assert KeyFits(s, l);
    case WriterDoes(l, op) =>
      var w := s.writers[l];
      if l == k { WriterStepOwn(s.rows, s.disk, k, w, op, s.used); }
      else {
        assert KeyFits(s, l);
        WriterStepOther(s.rows, s.disk, l, w, op, s.used, k);
      }
    case PassDoes(n, op) =>
      assert PassAt(s, n);
      PassStepKeepsKey(s.rows, s.disk, s.used, s.passes[n], op, k);
    case DeleteRow(_, l) => TombstoneKeeps(s.rows, s.disk, s.used, l, Deleted, k);
    case DeleteStep(n, done) =>
      assert DeletionAt(s, n);
      UnlinkKeeps(s.rows, s.disk, s.used, s.deletions[n].dead, done, k);
    case _ =>
  }

  lemma StepKeepsIds(s: State, e: Event)
    requires Inv(s) && Enabled(s, e) && Sound(s, e)
    ensures UniqueIds(Next(s, e).rows) && Next(s, e).disk.temp.Keys <= Next(s, e).used
  {
    StepForward(s, e);
    forall k, l ensures SameIdSameRow(Next(s, e).rows, k, l) {
      assert SameIdSameRow(s.rows, k, l) && KeyFits(s, k) && KeyFits(s, l);
      RowsGrowOnlyAtBegin(s, e, k);
      RowsGrowOnlyAtBegin(s, e, l);
    }
    match e
    case WriterDoes(k, op) => assert KeyFits(s, k);
    case PassDoes(n, op) => PassTempShrinks(s.rows, s.disk, s.used, s.passes[n], op);
    case _ =>
  }

  lemma RowsGrowOnlyAtBegin(s: State, e: Event, k: Key)
    requires Enabled(s, e)
    ensures k in Next(s, e).rows ==> k in s.rows || (e.Begin? && e.k == k)
  {
  }

  lemma PassTempShrinks(rows: Rows, d: Disk, used: set<Id>, p: Pass, op: PassOp)
    requires PassEnabled(used, p, op)
    ensures PassStep(rows, d, used, p, op).disk.temp.Keys <= d.temp.Keys
  {
  }

  lemma StepKeepsPass(s: State, e: Event, n: nat)
    requires Inv(s) && Enabled(s, e) && Sound(s, e)
    ensures PassAt(Next(s, e), n)
  {
    assert PassAt(s, n);
    StepForward(s, e);
    if n in s.passes {
      PassStays(s.rows, s.used, s.clock, Next(s, e).rows, Next(s, e).used, s.passes[n]);
    }
    match e
    case PassStart(m) =>
      forall k ensures Fenced(s.rows, s.clock, ExpiredWriting(s.rows, s.clock), k) {}
    case PassDoes(m, op) =>
      if m == n {
        forall k ensures FileFits(s.rows, s.disk, s.used, k) { assert KeyFits(s, k); }
        PassStepKeepsPass(s.rows, s.disk, s.used, s.passes[m], op, s.clock);
      }
    case _ =>
  }

  lemma StepKeepsDeletion(s: State, e: Event, n: nat)
    requires Inv(s) && Enabled(s, e) && Sound(s, e)
    ensures DeletionAt(Next(s, e), n)
  {
    assert DeletionAt(s, n);
    StepForward(s, e);
    if n in s.deletions {
      DeadStays(s.rows, s.used, s.clock, Next(s, e).rows, Next(s, e).used, s.deletions[n].dead);
    }
    match e
    case DeleteRow(m, k) => assert KeyFits(s, k);
    case _ =>
  }

  lemma StepKeepsReader(s: State, e: Event, n: nat)
    requires Inv(s) && Enabled(s, e) && Sound(s, e)
    ensures ReaderAt(Next(s, e), n)
  {
    assert ReaderAt(s, n);
    StepForward(s, e);
    match e
    case ReadRow(m, k) => assert KeyFits(s, k);
    case PassDoes(m, op) => PassOnlyRemoves(s.rows, s.disk, s.used, s.passes[m], op);
    case Begin(k, _, _, _, _) => assert KeyFits(s, k);
    case _ =>
  }

  /** A pass changes the durable tree only by removing files. */
  lemma PassOnlyRemoves(rows: Rows, d: Disk, used: set<Id>, p: Pass, op: PassOp)
    requires PassEnabled(used, p, op)
    ensures var d' := PassStep(rows, d, used, p, op).disk;
            forall k :: k in d'.durable ==> k in d.durable && d'.durable[k] == d.durable[k]
  {
  }

  lemma StepKeepsInv(s: State, e: Event)
    requires Inv(s) && Enabled(s, e) && Sound(s, e)
    ensures Inv(Next(s, e))
  {
    forall k ensures KeyFits(Next(s, e), k) { StepKeepsKeys(s, e, k); }
    forall n ensures PassAt(Next(s, e), n) { StepKeepsPass(s, e, n); }
    forall n ensures DeletionAt(Next(s, e), n) { StepKeepsDeletion(s, e, n); }
    forall n ensures ReaderAt(Next(s, e), n) { StepKeepsReader(s, e, n); }
    StepKeepsIds(s, e);
  }

  lemma {:induction false} RunKeepsInv(s: State, es: seq<Event>)
    requires Inv(s) && Runs(s, es) && SoundRun(s, es)
    ensures Inv(After(s, es))
    decreases |es|
  {
    if es != [] {
      StepKeepsInv(s, es[0]);
      RunKeepsInv(Next(s, es[0]), es[1..]);
    }
  }

  lemma InitialFits(s: State)
    requires Initial(s)
    ensures Inv(s)
  {
    forall k ensures KeyFits(s, k) {}
  }

  // ---- Main results ----

  /** In every state a sound run reaches, a final row has its durable bytes on
    * stable storage, with exactly the recorded hash and size. */
  lemma {:induction false} FinalArtifactsStayIntact(s: State, es: seq<Event>, k: Key)
    requires Initial(s) && Runs(s, es) && SoundRun(s, es)
    requires var t := After(s, es); k in t.rows && t.rows[k].state == Final
    ensures Intact(After(s, es).rows, After(s, es).disk, k)
  {
    InitialFits(s);
    RunKeepsInv(s, es);
    assert KeyFits(After(s, es), k);
  }

  ghost predicate SameBytes(d: Disk, d': Disk, k: Key) {
    && (k in d'.durable <==> k in d.durable)
    && (k in d.durable ==> d'.durable[k] == d.durable[k])
    && (k in d'.synced <==> k in d.synced)
  }

  lemma WriterLeavesOthers(rows: Rows, d: Disk, k: Key, w: Writer, op: WriterOp, l: Key)
    requires l != k
    ensures SameBytes(d, WriterStep(rows, d, k, w, op).disk, l)
  {
  }

  lemma PassLeavesLive(rows: Rows, d: Disk, used: set<Id>, p: Pass, op: PassOp, k: Key)
    requires PassEnabled(used, p, op) && PassFits(rows, used, p)
    requires k in rows && rows[k].state in {Writing, Final}
    ensures SameBytes(d, PassStep(rows, d, used, p, op).disk, k)
  {
  }

  /** No step of a pass, a deletion, or another writer touches the durable bytes of
    * an artifact whose row is final or still writing: only the writer itself does.
    * In particular no pass removes the bytes of a writer with a live lease. */
  lemma LiveBytesAreLeftAlone(s: State, es: seq<Event>, e: Event, k: Key)
    requires Initial(s) && Runs(s, es) && SoundRun(s, es)
    requires Enabled(After(s, es), e) && !e.PowerLoss? && (e.WriterDoes? ==> e.k != k)
    requires k in After(s, es).rows && After(s, es).rows[k].state in {Writing, Final}
    ensures SameBytes(After(s, es).disk, Next(After(s, es), e).disk, k)
  {
    var t := After(s, es);
    InitialFits(s);
    RunKeepsInv(s, es);
    match e
    case WriterDoes(l, op) => WriterLeavesOthers(t.rows, t.disk, l, t.writers[l], op, k);
    case PassDoes(n, op) =>
      assert PassAt(t, n);
      PassLeavesLive(t.rows, t.disk, t.used, t.passes[n], op, k);
    case DeleteStep(n, done) => assert DeletionAt(t, n);
    case _ =>
  }

  /** A read that got past its row lookup either finds nothing or finds exactly the bytes recorded. */
  lemma ReadServesRecordedBytes(s: State, es: seq<Event>, n: nat)
    requires Initial(s) && Runs(s, es) && SoundRun(s, es)
    requires n in After(s, es).readers
    ensures var t := After(s, es); var r := t.readers[n];
            r.target in t.disk.durable ==> Sha256(t.disk.durable[r.target]) == r.sha && |t.disk.durable[r.target]| == r.size
  {
    InitialFits(s);
    RunKeepsInv(s, es);
    assert ReaderAt(After(s, es), n);
  }

  /** Rows never move back, whatever the timing: a fenced or deleted row is never
    * final again, a tombstone keeps its first reason, and no row disappears. */
  lemma {:induction false} RowsNeverMoveBack(s: State, es: seq<Event>, k: Key)
    requires Runs(s, es) && k in s.rows
    requires forall l :: l in s.rows ==> l.id in s.used
    ensures var t := After(s, es);
            && k in t.rows
            && Rank(s.rows[k].state) <= Rank(t.rows[k].state)
            && (s.rows[k].state == Tombstoned ==> t.rows[k] == s.rows[k])
            && (s.rows[k].state == t.rows[k].state ==> t.rows[k] == s.rows[k])
    decreases |es|
  {
    if es != [] {
      RowStepForward(s, es[0], k);
      forall l | l in Next(s, es[0]).rows ensures l.id in Next(s, es[0]).used { RowsGrowOnlyAtBegin(s, es[0], l); }
      RowsNeverMoveBack(Next(s, es[0]), es[1..], k);
    }
  }

  lemma RowStepForward(s: State, e: Event, k: Key)
    requires Enabled(s, e) && k in s.rows && k.id in s.used
    ensures k in Next(s, e).rows
    ensures Next(s, e).rows[k] == s.rows[k] || Rank(s.rows[k].state) < Rank(Next(s, e).rows[k].state)
    ensures s.used <= Next(s, e).used
  {
    match e
    case WriterDoes(l, op) => WriterForward(s.rows, s.disk, l, s.writers[l], op, s.used, s.clock);
    case PassDoes(n, op) => PassForward(s.rows, s.disk, s.used, s.passes[n], op, s.clock);
    case _ =>
  }
}
