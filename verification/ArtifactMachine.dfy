/** The artifact store as a state machine over its atomic steps.
  *
  * Writers, deletions, readers and any number of reconciliation passes run at
  * the same time. Every metadata statement, file creation, fsync, rename and
  * removal is a step of its own, so a step of one party can fall between any
  * two steps of another; every party can die between any two of its steps, and
  * the machine can lose power. `Next` is what the code does. The assumptions
  * the code needs are not built into `Next`: they are the predicate `Sound`
  * on events, and ArtifactHazards shows that each one of them is needed.
  */
module ArtifactMachine {
  import opened ArtifactRows
  import opened Results

  type Id = string

  // ---- The file system ----

  /** `durable` is the live view of the durable tree and `synced` the entries whose
    * bytes and directory entry are on stable storage; `temp` holds the .part files. */
  datatype Disk = Disk(durable: map<Key, Bytes>, synced: set<Key>, temp: map<Id, Bytes>)

  function Unlink(d: Disk, k: Key): Disk {
    d.(durable := d.durable - {k}, synced := d.synced - {k})
  }

  function UnlinkTemp(d: Disk, k: Key): Disk {
    d.(temp := d.temp - {k.id})
  }

  /** A removal that may fail; the code only collects the failure. */
  function TryUnlink(d: Disk, k: Key, done: bool): Disk {
    if done then Unlink(d, k) else d
  }

  function TryUnlinkTemp(d: Disk, k: Key, done: bool): Disk {
    if done then UnlinkTemp(d, k) else d
  }

  // ---- Writers ----

  /** Where a writer stands. The Abort stages are Writer.abort; `Undoing` is
    * Finalize's own removal after a commit that did not go through. */
  datatype WriterStage =
    Opening | Streaming | Verified | Flushed | Renamed | DirFlushed | Undoing | AbortTemp | AbortDurable | AbortRow

  datatype Writer = Writer(lease: Lease, data: Bytes, maxBytes: nat, declared: Option<Digest>, stage: WriterStage)

  /** What FinalizeCommit reports back. `Failed` is any error but a lost lease;
    * `applied` says whether the update reached the table all the same. */
  datatype Report = Answered | Failed(applied: bool)

  datatype WriterOp =
    | OpenTemp
    | WriteChunk(chunk: Bytes)
    | Verify
    | Flush
    | Rename
    | FlushDir
    | Commit(report: Report)
    | Undo(removed: bool)
    | Abort
    | AbortStep(done: bool)
    | Dies

  datatype WriterResult = WriterResult(rows: Rows, disk: Disk, writer: Option<Writer>)

  predicate WriterEnabled(disk: Disk, k: Key, w: Writer, op: WriterOp) {
    match op
    case OpenTemp => w.stage == Opening && k.id !in disk.temp
    case WriteChunk(_) => w.stage == Streaming
    case Verify => w.stage == Streaming
    case Flush => w.stage == Verified
    case Rename => w.stage == Flushed
    case FlushDir => w.stage == Renamed
    case Commit(_) => w.stage == DirFlushed
    case Undo(_) => w.stage == Undoing
    case Abort => w.stage in {Streaming, Verified, Flushed, Renamed}
    case AbortStep(_) => w.stage in {AbortTemp, AbortDurable, AbortRow}
    case Dies => true
  }

  function WriterStep(rows: Rows, disk: Disk, k: Key, w: Writer, op: WriterOp): WriterResult {
    match op
    case OpenTemp => WriterResult(rows, disk.(temp := disk.temp[k.id := []]), Some(w.(stage := Streaming)))
    case WriteChunk(chunk) =>
      if |w.data| + |chunk| > w.maxBytes then WriterResult(rows, disk, Some(w.(stage := AbortTemp)))
      else
        // The bytes reach the open file even after its name was removed.
        WriterResult(rows,
                     if k.id in disk.temp then disk.(temp := disk.temp[k.id := disk.temp[k.id] + chunk]) else disk,
                     Some(w.(data := w.data + chunk)))
    case Verify =>
      // A declared hash must match, and the row must still be this writer's.
      var good := (w.declared.None? || w.declared.value == Sha256(w.data)) && OwnedWriting(rows, k, w.lease);
      WriterResult(rows, disk, Some(w.(stage := if good then Verified else AbortTemp)))
    case Flush => WriterResult(rows, disk, Some(w.(stage := Flushed)))
    case Rename =>
      if k.id in disk.temp then
        // The new entry is not on stable storage before its directory is flushed.
        WriterResult(rows,
                     Disk(disk.durable[k := disk.temp[k.id]], disk.synced - {k}, disk.temp - {k.id}),
                     Some(w.(stage := Renamed)))
      else WriterResult(rows, disk, Some(w.(stage := AbortTemp)))
    case FlushDir =>
      WriterResult(rows,
                   if k in disk.durable then disk.(synced := disk.synced + {k}) else disk,
                   Some(w.(stage := DirFlushed)))
    case Commit(report) =>
      var committed := FinalizeCommit(rows, k, w.lease, Sha256(w.data), |w.data|);
      (match report
       case Answered =>
         if OwnedWriting(rows, k, w.lease) then WriterResult(committed, disk, None)
         else WriterResult(rows, disk, Some(w.(stage := Undoing)))
       case Failed(applied) =>
         WriterResult(if applied then committed else rows, disk, Some(w.(stage := Undoing))))
    case Undo(removed) => WriterResult(rows, TryUnlink(disk, k, removed), Some(w.(stage := AbortTemp)))
    case Abort => WriterResult(rows, disk, Some(w.(stage := AbortTemp)))
    case AbortStep(done) =>
      (match w.stage
       case AbortTemp => WriterResult(rows, TryUnlinkTemp(disk, k, done), Some(w.(stage := AbortDurable)))
       case AbortDurable => WriterResult(rows, TryUnlink(disk, k, done), Some(w.(stage := AbortRow)))
       case _ => WriterResult(if done then Tombstone(rows, k, WriteAborted) else rows, disk, None))
    case Dies => WriterResult(rows, disk, None)
  }

  // ---- Reconciliation passes ----

  /** Where a pass stands: the first three stages are phase (a), the next two
    * phase (b), the last three phase (c). */
  datatype PassStage =
    | Fencing(todo: map<Key, Lease>)
    | ReapDurable(dead: Key, todo: map<Key, Lease>)
    | ReapTemp(dead: Key, todo: map<Key, Lease>)
    | Walking
    | WalkRemove(dead: Key)
    | Repairing(list: map<Key, RowState>)
    | RepairRemove(dead: Key, list: map<Key, RowState>)
    | RepairTombstone(dead: Key, list: map<Key, RowState>)

  datatype Pass = Pass(now: int, stage: PassStage)

  datatype PassOp =
    | Fence(k: Key)
    | FenceFails(k: Key)
    | Walk
    | Visit(k: Key)
    | List
    | Stat(k: Key, readable: bool)
    | Act(done: bool) // carries out the pending removal or tombstoning
    | Ends            // completes or dies

  datatype PassResult = PassResult(rows: Rows, disk: Disk, pass: Option<Pass>)

  predicate PassEnabled(used: set<Id>, p: Pass, op: PassOp) {
    match op
    case Fence(k) => p.stage.Fencing? && k in p.stage.todo
    case FenceFails(k) => p.stage.Fencing? && k in p.stage.todo
    case Walk => p.stage.Fencing? && p.stage.todo == map[]
    // The traversal may still report a file that is gone by now.
    case Visit(k) => p.stage.Walking? && k.id in used
    case List => p.stage.Walking?
    case Stat(k, _) => p.stage.Repairing? && k in p.stage.list
    case Act(_) =>
      p.stage.ReapDurable? || p.stage.ReapTemp? || p.stage.WalkRemove? || p.stage.RepairRemove? || p.stage.RepairTombstone?
    case Ends => true
  }

  function PassAct(rows: Rows, disk: Disk, p: Pass, done: bool): PassResult {
    match p.stage
    case ReapDurable(k, todo) => PassResult(rows, TryUnlink(disk, k, done), Some(p.(stage := ReapTemp(k, todo))))
    case ReapTemp(k, todo) => PassResult(rows, TryUnlinkTemp(disk, k, done), Some(p.(stage := Fencing(todo))))
    case WalkRemove(k) => PassResult(rows, TryUnlink(disk, k, done), Some(p.(stage := Walking)))
    case RepairRemove(k, list) => PassResult(rows, TryUnlink(disk, k, done), Some(p.(stage := Repairing(list))))
    case RepairTombstone(k, list) =>
      PassResult(if done then Tombstone(rows, k, MissingFinalBytes) else rows, disk, Some(p.(stage := Repairing(list))))
    case _ => PassResult(rows, disk, Some(p))
  }

  function PassStep(rows: Rows, disk: Disk, used: set<Id>, p: Pass, op: PassOp): PassResult
    requires PassEnabled(used, p, op)
  {
    match op
    case Fence(k) =>
      var todo := p.stage.todo - {k};
      if OwnedWriting(rows, k, p.stage.todo[k])
      then PassResult(InvalidateWriting(rows, k, p.stage.todo[k], ExpiredWriteLease), disk, Some(p.(stage := ReapDurable(k, todo))))
      else PassResult(rows, disk, Some(p.(stage := Fencing(todo))))
    case FenceFails(k) => PassResult(rows, disk, Some(p.(stage := Fencing(p.stage.todo - {k}))))
    case Walk => PassResult(rows, disk, Some(p.(stage := Walking)))
    case Visit(k) =>
      var keep := k in rows && (rows[k].state == Final || LiveWriter(rows[k], p.now));
      PassResult(rows, disk, Some(if keep then p else p.(stage := WalkRemove(k))))
    case List => PassResult(rows, disk, Some(p.(stage := Repairing(FinalPaths(rows)))))
    case Stat(k, readable) =>
      var list := p.stage.list - {k};
      var stage :=
        if p.stage.list[k] == Final then
          // A stat that failed for another reason is no proof that the bytes are gone.
          if readable && k !in disk.durable then RepairTombstone(k, list) else Repairing(list)
        else
          if !readable || k in disk.durable then RepairRemove(k, list) else Repairing(list);
      PassResult(rows, disk, Some(p.(stage := stage)))
    case Act(done) => PassAct(rows, disk, p, done)
    case Ends => PassResult(rows, disk, None)
  }

  // ---- The whole store ----

  datatype Deletion = RemoveDurable(dead: Key) | RemoveTemp(dead: Key)

  /** A Read between its row lookup and its open. */
  datatype Reader = Reader(target: Key, sha: Digest, size: nat)

  /** `used` holds every id that ever named a row or a file; fresh ids are drawn outside it. */
  datatype State = State(
    clock: int,
    rows: Rows,
    disk: Disk,
    used: set<Id>,
    writers: map<Key, Writer>,
    passes: map<nat, Pass>,
    deletions: map<nat, Deletion>,
    readers: map<nat, Reader>)

  datatype Event =
    | Tick(to: int)
    | Begin(k: Key, lease: Lease, expiresAt: int, maxBytes: nat, declared: Option<Digest>)
    | WriterDoes(k: Key, wop: WriterOp)
    | DeleteRow(n: nat, k: Key)
    | DeleteStep(n: nat, done: bool)
    | DeleteDies(n: nat)
    | PassStart(n: nat)
    | PassDoes(n: nat, pop: PassOp)
    | ReadRow(n: nat, k: Key)
    | ReadOpen(n: nat)
    | PowerLoss(after: Disk)

  /** Entries on stable storage survive a power loss; anything else may come back, change or vanish. */
  ghost predicate Survives(before: Disk, after: Disk, used: set<Id>) {
    && before.synced <= after.synced <= after.durable.Keys
    && (forall k :: k in before.synced && k in before.durable && k in after.durable ==> after.durable[k] == before.durable[k])
    && (forall k :: k in after.durable ==> k.id in used)
    && after.temp.Keys <= used
  }

  ghost predicate Enabled(s: State, e: Event) {
    match e
    case Tick(to) => s.clock <= to
    // A fresh random id names neither a row nor a file, past or present.
    case Begin(k, _, _, _, _) => k.id !in s.used
    case WriterDoes(k, op) => k in s.writers && WriterEnabled(s.disk, k, s.writers[k], op)
    case DeleteRow(n, k) => n !in s.deletions && k in s.rows
    case DeleteStep(n, _) => n in s.deletions
    case DeleteDies(n) => n in s.deletions
    case PassStart(n) => n !in s.passes
    case PassDoes(n, op) => n in s.passes && PassEnabled(s.used, s.passes[n], op)
    case ReadRow(n, k) => n !in s.readers && k in s.rows && s.rows[k].state == Final
    case ReadOpen(n) => n in s.readers
    case PowerLoss(after) => Survives(s.disk, after, s.used)
  }

  function Put<K, V>(m: map<K, V>, k: K, v: Option<V>): map<K, V> {
    match v
    case None => m - {k}
    case Some(x) => m[k := x]
  }

  function DeletionDisk(disk: Disk, d: Deletion, done: bool): Disk {
    match d
    case RemoveDurable(k) => TryUnlink(disk, k, done)
    case RemoveTemp(k) => TryUnlinkTemp(disk, k, done)
  }

  function DeletionNext(d: Deletion): Option<Deletion> {
    match d
    case RemoveDurable(k) => Some(RemoveTemp(k))
    case RemoveTemp(_) => None
  }

  ghost function Next(s: State, e: Event): State
    requires Enabled(s, e)
  {
    match e
    case Tick(to) => s.(clock := to)
    case Begin(k, lease, expiresAt, maxBytes, declared) =>
      s.(rows := s.rows[k := Row(Writing, lease, expiresAt, Sha256([]), 0, NoReason)],
         writers := s.writers[k := Writer(lease, [], maxBytes, declared, Opening)],
         used := s.used + {k.id})
    case WriterDoes(k, op) =>
      var r := WriterStep(s.rows, s.disk, k, s.writers[k], op);
      s.(rows := r.rows, disk := r.disk, writers := Put(s.writers, k, r.writer))
    case DeleteRow(n, k) =>
      s.(rows := Tombstone(s.rows, k, Deleted), deletions := s.deletions[n := RemoveDurable(k)])
    case DeleteStep(n, done) =>
      s.(disk := DeletionDisk(s.disk, s.deletions[n], done),
         deletions := Put(s.deletions, n, DeletionNext(s.deletions[n])))
    case DeleteDies(n) => s.(deletions := s.deletions - {n})
    case PassStart(n) => s.(passes := s.passes[n := Pass(s.clock, Fencing(ExpiredWriting(s.rows, s.clock)))])
    case PassDoes(n, op) =>
      var r := PassStep(s.rows, s.disk, s.used, s.passes[n], op);
      s.(rows := r.rows, disk := r.disk, passes := Put(s.passes, n, r.pass))
    case ReadRow(n, k) => s.(readers := s.readers[n := Reader(k, s.rows[k].sha, s.rows[k].size)])
    case ReadOpen(n) => s.(readers := s.readers - {n})
    case PowerLoss(after) => State(s.clock, s.rows, after, s.used, map[], map[], map[], map[])
  }

  /** What the code relies on:
    *  - a writing row is committed while its lease still lies in the future;
    *  - no pass starts at the very instant a writing row's lease ends, since the
    *    listing takes leases strictly before and the traversal keeps leases
    *    strictly after that instant;
    *  - InvalidateWriting does not fail in phase (a);
    *  - a FinalizeCommit that reports a failure was not applied. */
  datatype Assumption = LeaseOutlivesInsert | NoLeaseEndsAtPassStart | FencingDoesNotFail | FailedCommitIsNotApplied

  ghost predicate Holds(a: Assumption, s: State, e: Event) {
    match a
    case LeaseOutlivesInsert => e.Begin? ==> s.clock < e.expiresAt
    case NoLeaseEndsAtPassStart =>
      e.PassStart? ==> forall k :: k in s.rows && s.rows[k].state == Writing ==> s.rows[k].expiresAt != s.clock
    case FencingDoesNotFail => e.PassDoes? ==> !e.pop.FenceFails?
    case FailedCommitIsNotApplied => e.WriterDoes? && e.wop.Commit? && e.wop.report.Failed? ==> !e.wop.report.applied
  }

  ghost predicate Sound(s: State, e: Event) {
    && Holds(LeaseOutlivesInsert, s, e)
    && Holds(NoLeaseEndsAtPassStart, s, e)
    && Holds(FencingDoesNotFail, s, e)
    && Holds(FailedCommitIsNotApplied, s, e)
  }

  /** A run from `s`: every event is enabled where it happens. */
  ghost predicate Runs(s: State, es: seq<Event>)
    decreases |es|
  {
    es == [] || (Enabled(s, es[0]) && Runs(Next(s, es[0]), es[1..]))
  }

  ghost predicate SoundRun(s: State, es: seq<Event>)
    requires Runs(s, es)
    decreases |es|
  {
    es == [] || (Sound(s, es[0]) && SoundRun(Next(s, es[0]), es[1..]))
  }

  ghost function After(s: State, es: seq<Event>): State
    requires Runs(s, es)
    decreases |es|
  {
    if es == [] then s else After(Next(s, es[0]), es[1..])
  }

  /** The store before it first starts: no row, no party; foreign files may lie about. */
  ghost predicate Initial(s: State) {
    && s.rows == map[] && s.writers == map[] && s.passes == map[] && s.deletions == map[] && s.readers == map[]
    && s.disk.synced <= s.disk.durable.Keys
    && (forall k :: k in s.disk.durable ==> k.id in s.used)
    && s.disk.temp.Keys <= s.used
  }
}
