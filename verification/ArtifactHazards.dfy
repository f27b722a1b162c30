/** Each assumption of the artifact store is needed: for each one there is a run
  * that respects the other three and ends with a final row whose bytes are gone. */
module ArtifactHazards {
  import opened ArtifactRows
  import opened ArtifactMachine
  import opened Results

  const K := Key("tenant", "art_1")
  const L := Lease("host-1", 7)

  const Empty := State(0, map[], Disk(map[], {}, map[]), {}, map[], map[], map[], map[])

  /** From `s`, `es` runs to `t`, and only assumption `a` may be broken on the way. */
  ghost predicate Reaches(a: Assumption, s: State, es: seq<Event>, t: State)
    decreases |es|
  {
    if es == [] then s == t
    else Enabled(s, es[0]) && (forall b :: b != a ==> Holds(b, s, es[0])) && Reaches(a, Next(s, es[0]), es[1..], t)
  }

  lemma {:induction false} Extend(a: Assumption, s: State, es: seq<Event>, t: State, e: Event)
    requires Reaches(a, s, es, t) && Enabled(t, e) && forall b :: b != a ==> Holds(b, t, e)
    ensures Reaches(a, s, es + [e], Next(t, e))
    decreases |es|
  {
    if es == [] {
      assert (es + [e])[1..] == [];
    } else {
      assert (es + [e])[1..] == es[1..] + [e];
      Extend(a, Next(s, es[0]), es[1..], t, e);
    }
  }

  lemma {:induction false} ReachesRuns(a: Assumption, s: State, es: seq<Event>, t: State)
    requires Reaches(a, s, es, t)
    ensures Runs(s, es) && After(s, es) == t
    decreases |es|
  {
    if es != [] { ReachesRuns(a, Next(s, es[0]), es[1..], t); }
  }

  /** The writer's row, and the store after `Rename` with or without the durable file. */
  function WritingRow(expiresAt: int): Row {
    Row(Writing, L, expiresAt, Sha256([]), 0, NoReason)
  }

  function WriterAt(stage: WriterStage): Writer {
    Writer(L, [], 1, None, stage)
  }

  /** The store with one writer, its row, the given disk and passes. */
  function Store(clock: int, expiresAt: int, disk: Disk, stage: WriterStage, passes: map<nat, Pass>): State {
    State(clock, map[K := WritingRow(expiresAt)], disk, {K.id}, map[K := WriterAt(stage)], passes, map[], map[])
  }

  const NoFiles := Disk(map[], {}, map[])
  const PartFile := Disk(map[], {}, map[K.id := []])
  const DurableFile := Disk(map[K := []], {}, map[])

  /** From Opening to Renamed with nothing in between. */
  lemma WriteAndRename(a: Assumption, s: State, es: seq<Event>, clock: int, expiresAt: int, passes: map<nat, Pass>)
    returns (es': seq<Event>)
    requires Reaches(a, s, es, Store(clock, expiresAt, NoFiles, Opening, passes))
    ensures Reaches(a, s, es', Store(clock, expiresAt, DurableFile, Renamed, passes))
  {
    es' := Does(a, s, es, clock, expiresAt, NoFiles, Opening, passes, OpenTemp, PartFile, Streaming);
    es' := Does(a, s, es', clock, expiresAt, PartFile, Streaming, passes, Verify, PartFile, Verified);
    es' := Does(a, s, es', clock, expiresAt, PartFile, Verified, passes, Flush, PartFile, Flushed);
    es' := Does(a, s, es', clock, expiresAt, PartFile, Flushed, passes, Rename, DurableFile, Renamed);
  }

  lemma Does(a: Assumption, s: State, es: seq<Event>, clock: int, expiresAt: int, disk: Disk, stage: WriterStage,
             passes: map<nat, Pass>, op: WriterOp, disk': Disk, stage': WriterStage)
    returns (es': seq<Event>)
    requires Reaches(a, s, es, Store(clock, expiresAt, disk, stage, passes))
    requires WriterEnabled(disk, K, WriterAt(stage), op) && !op.Commit?
    requires WriterStep(map[K := WritingRow(expiresAt)], disk, K, WriterAt(stage), op)
          == WriterResult(map[K := WritingRow(expiresAt)], disk', Some(WriterAt(stage')))
    ensures Reaches(a, s, es', Store(clock, expiresAt, disk', stage', passes))
  {
    var t := Store(clock, expiresAt, disk, stage, passes);
    Extend(a, s, es, t, WriterDoes(K, op));
    assert Next(t, WriterDoes(K, op)) == Store(clock, expiresAt, disk', stage', passes);
    es' := es + [WriterDoes(K, op)];
  }

  lemma PassMoves(a: Assumption, s: State, es: seq<Event>, clock: int, expiresAt: int, disk: Disk, stage: WriterStage,
                  p: Pass, op: PassOp, disk': Disk, p': Pass)
    returns (es': seq<Event>)
    requires Reaches(a, s, es, Store(clock, expiresAt, disk, stage, map[0 := p]))
    requires PassEnabled({K.id}, p, op) && (op.FenceFails? ==> a == FencingDoesNotFail)
    requires PassStep(map[K := WritingRow(expiresAt)], disk, {K.id}, p, op)
          == PassResult(map[K := WritingRow(expiresAt)], disk', Some(p'))
    ensures Reaches(a, s, es', Store(clock, expiresAt, disk', stage, map[0 := p']))
  {
    var t := Store(clock, expiresAt, disk, stage, map[0 := p]);
    Extend(a, s, es, t, PassDoes(0, op));
    assert Next(t, PassDoes(0, op)) == Store(clock, expiresAt, disk', stage, map[0 := p']);
    es' := es + [PassDoes(0, op)];
  }

  /** The end of every hazard: the row is final, its bytes are nowhere, and its writer is gone. */
  ghost predicate FinalBytesLost(t: State) {
    exists k :: k in t.rows && t.rows[k].state == Final && k !in t.disk.durable && k !in t.writers
  }

  /** A writer whose file was removed under it commits all the same. */
  lemma CommitsWithoutBytes(a: Assumption, s: State, es: seq<Event>, clock: int, expiresAt: int, passes: map<nat, Pass>)
    returns (es': seq<Event>, t: State)
    requires Reaches(a, s, es, Store(clock, expiresAt, NoFiles, Renamed, passes))
    ensures Reaches(a, s, es', t) && FinalBytesLost(t)
  {
    es' := Does(a, s, es, clock, expiresAt, NoFiles, Renamed, passes, FlushDir, NoFiles, DirFlushed);
    var u, commit := Store(clock, expiresAt, NoFiles, DirFlushed, passes), WriterDoes(K, Commit(Answered));
    Extend(a, s, es', u, commit);
    es', t := es' + [commit], Next(u, commit);
    assert K in t.rows && t.rows[K].state == Final && K !in t.disk.durable && K !in t.writers;
  }

  /** From Opening: the writer renames, the pass removes the file, the writer commits. */
  lemma RemovedThenCommitted(a: Assumption, s: State, es: seq<Event>, clock: int, expiresAt: int, p: Pass)
    returns (es': seq<Event>, t: State)
    requires Reaches(a, s, es, Store(clock, expiresAt, NoFiles, Opening, map[0 := p]))
    requires p.stage == Walking && expiresAt <= p.now
    ensures Reaches(a, s, es', t) && FinalBytesLost(t)
  {
    es' := WriteAndRename(a, s, es, clock, expiresAt, map[0 := p]);
    var p' := p.(stage := WalkRemove(K));
    es' := PassMoves(a, s, es', clock, expiresAt, DurableFile, Renamed, p, Visit(K), DurableFile, p');
    es' := PassMoves(a, s, es', clock, expiresAt, DurableFile, Renamed, p', Act(true), NoFiles, p);
    es', t := CommitsWithoutBytes(a, s, es', clock, expiresAt, map[0 := p]);
  }

  lemma BeginAt0(a: Assumption) returns (es: seq<Event>)
    ensures Reaches(a, Empty, es, Store(0, 1, NoFiles, Opening, map[]))
  {
    var e := Begin(K, L, 1, 1, None);
    Extend(a, Empty, [], Empty, e);
    es := [] + [e];
    assert Next(Empty, e) == Store(0, 1, NoFiles, Opening, map[]);
  }

  /** A pass starts at `clock`; `todo` is what it lists. */
  lemma PassBegins(a: Assumption, es: seq<Event>, clock: int, todo: map<Key, Lease>) returns (es': seq<Event>)
    requires Reaches(a, Empty, es, Store(0, 1, NoFiles, Opening, map[])) && clock >= 1
    requires clock == 1 ==> a == NoLeaseEndsAtPassStart
    requires todo == if clock == 1 then map[] else map[K := L]
    ensures Reaches(a, Empty, es', Store(clock, 1, NoFiles, Opening, map[0 := Pass(clock, Fencing(todo))]))
  {
    var s0 := Store(0, 1, NoFiles, Opening, map[]);
    Extend(a, Empty, es, s0, Tick(clock));
    var s1 := Store(clock, 1, NoFiles, Opening, map[]);
    assert Next(s0, Tick(clock)) == s1;
    Extend(a, Empty, es + [Tick(clock)], s1, PassStart(0));
    assert ExpiredWriting(s1.rows, clock) == todo;
    assert Next(s1, PassStart(0)) == Store(clock, 1, NoFiles, Opening, map[0 := Pass(clock, Fencing(todo))]);
    es' := es + [Tick(clock)] + [PassStart(0)];
  }

  /** A lease that ends exactly when a pass starts is neither listed nor kept. */
  lemma LeaseEndingAtPassStartLosesBytes() returns (es: seq<Event>, t: State)
    ensures Reaches(NoLeaseEndsAtPassStart, Empty, es, t) && FinalBytesLost(t)
  {
    var a := NoLeaseEndsAtPassStart;
    es := BeginAt0(a);
    es := PassBegins(a, es, 1, map[]);
    es := PassMoves(a, Empty, es, 1, 1, NoFiles, Opening, Pass(1, Fencing(map[])), Walk, NoFiles, Pass(1, Walking));
    es, t := RemovedThenCommitted(a, Empty, es, 1, 1, Pass(1, Walking));
  }

  /** A pass whose fencing failed reaches the same file in its traversal. */
  lemma FailedFencingLosesBytes() returns (es: seq<Event>, t: State)
    ensures Reaches(FencingDoesNotFail, Empty, es, t) && FinalBytesLost(t)
  {
    var a := FencingDoesNotFail;
    es := BeginAt0(a);
    es := PassBegins(a, es, 2, map[K := L]);
    var listed, walking := Pass(2, Fencing(map[K := L])), Pass(2, Walking);
    var empty := Pass(2, Fencing(map[]));
    assert map[K := L] - {K} == map[];
    es := PassMoves(a, Empty, es, 2, 1, NoFiles, Opening, listed, FenceFails(K), NoFiles, empty);
    es := PassMoves(a, Empty, es, 2, 1, NoFiles, Opening, empty, Walk, NoFiles, walking);
    es, t := RemovedThenCommitted(a, Empty, es, 2, 1, walking);
  }

  /** A row committed after its own lease ran out is missed by a pass already past phase (a). */
  lemma LateInsertLosesBytes() returns (es: seq<Event>, t: State)
    ensures Reaches(LeaseOutlivesInsert, Empty, es, t) && FinalBytesLost(t)
  {
    var a := LeaseOutlivesInsert;
    var fencing, walking := Pass(0, Fencing(map[])), Pass(0, Walking);
    var s1 := Empty.(passes := map[0 := fencing]);
    var s2 := Empty.(passes := map[0 := walking]);
    Extend(a, Empty, [], Empty, PassStart(0));
    assert ExpiredWriting(map[], 0) == map[];
    assert Next(Empty, PassStart(0)) == s1;
    es := [] + [PassStart(0)];
    Extend(a, Empty, es, s1, PassDoes(0, Walk));
    assert Next(s1, PassDoes(0, Walk)) == s2;
    es := es + [PassDoes(0, Walk)];
    var e := Begin(K, L, 0, 1, None);
    Extend(a, Empty, es, s2, e);
    assert Next(s2, e) == Store(0, 0, NoFiles, Opening, map[0 := walking]);
    es := es + [e];
    es, t := RemovedThenCommitted(a, Empty, es, 0, 0, walking);
  }

  /** A commit that is applied but reported as failed makes the writer remove its own final
    * bytes; if the row cannot be tombstoned either, it stays final without them. */
  lemma AppliedFailureLosesBytes() returns (es: seq<Event>, t: State)
    ensures Reaches(FailedCommitIsNotApplied, Empty, es, t) && FinalBytesLost(t)
  {
    var a := FailedCommitIsNotApplied;
    es := BeginAt0(a);
    es := WriteAndRename(a, Empty, es, 0, 1, map[]);
    var synced := Disk(map[K := []], {K}, map[]);
    es := Does(a, Empty, es, 0, 1, DurableFile, Renamed, map[], FlushDir, synced, DirFlushed);
    var u := Store(0, 1, synced, DirFlushed, map[]);
    var commit := WriterDoes(K, Commit(Failed(true)));
    Extend(a, Empty, es, u, commit);
    var v := Next(u, commit);
    assert v == Undone(synced, Undoing);
    es, t := UndoesAndAborts(a, es + [commit]);
  }

  /** The store with a final row whose writer was told that its commit failed. */
  function Undone(disk: Disk, stage: WriterStage): State {
    Store(0, 1, disk, stage, map[]).(rows := map[K := WritingRow(1).(state := Final)])
  }

  lemma UndoesAndAborts(a: Assumption, es: seq<Event>) returns (es': seq<Event>, t: State)
    requires Reaches(a, Empty, es, Undone(Disk(map[K := []], {K}, map[]), Undoing))
    ensures Reaches(a, Empty, es', t) && FinalBytesLost(t)
  {
    var v, undo := Undone(Disk(map[K := []], {K}, map[]), Undoing), WriterDoes(K, Undo(true));
    Extend(a, Empty, es, v, undo);
    assert Next(v, undo) == Undone(NoFiles, AbortTemp);
    es' := Aborts(a, es + [undo], AbortTemp, AbortDurable);
    es' := Aborts(a, es', AbortDurable, AbortRow);
    es', t := TombstoningFails(a, es');
  }

  lemma Aborts(a: Assumption, es: seq<Event>, stage: WriterStage, next: WriterStage) returns (es': seq<Event>)
    requires (stage == AbortTemp && next == AbortDurable) || (stage == AbortDurable && next == AbortRow)
    requires Reaches(a, Empty, es, Undone(NoFiles, stage))
    ensures Reaches(a, Empty, es', Undone(NoFiles, next))
  {
    var abort := WriterDoes(K, AbortStep(true));
    Extend(a, Empty, es, Undone(NoFiles, stage), abort);
    assert Next(Undone(NoFiles, stage), abort) == Undone(NoFiles, next);
    es' := es + [abort];
  }

  lemma TombstoningFails(a: Assumption, es: seq<Event>) returns (es': seq<Event>, t: State)
    requires Reaches(a, Empty, es, Undone(NoFiles, AbortRow))
    ensures Reaches(a, Empty, es', t) && FinalBytesLost(t)
  {
    var u, fails := Undone(NoFiles, AbortRow), WriterDoes(K, AbortStep(false));
    Extend(a, Empty, es, u, fails);
    es', t := es + [fails], Next(u, fails);
    assert K in t.rows && t.rows[K].state == Final && K !in t.disk.durable && K !in t.writers;
  }

  /** So none of the four assumptions can be dropped. */
  lemma EachAssumptionIsNeeded(a: Assumption) returns (es: seq<Event>)
    ensures Initial(Empty) && Runs(Empty, es) && FinalBytesLost(After(Empty, es))
    ensures exists t :: Reaches(a, Empty, es, t)
  {
    var t;
    match a
    case LeaseOutlivesInsert => es, t := LateInsertLosesBytes(); ReachesRuns(a, Empty, es, t);
    case NoLeaseEndsAtPassStart => es, t := LeaseEndingAtPassStartLosesBytes(); ReachesRuns(a, Empty, es, t);
    case FencingDoesNotFail => es, t := FailedFencingLosesBytes(); ReachesRuns(a, Empty, es, t);
    case FailedCommitIsNotApplied => es, t := AppliedFailureLosesBytes(); ReachesRuns(a, Empty, es, t);
  }
}
