/** What an artifact holds is what its writer was given.
  *
  * ArtifactSafety ties files to rows. Here both are tied to the run itself: the
  * chunks handed to the writer, the limit and the digest it was begun with, and
  * the removals that follow an abort or a deletion.
  */
module ArtifactContent {
  import opened ArtifactRows
  import opened ArtifactMachine
  import opened Results
  import ArtifactSafety

  // ---- What a run wrote ----

  function ChunkOf(e: Event, k: Key): Bytes {
    if e.WriterDoes? && e.k == k && e.wop.WriteChunk? then e.wop.chunk else []
  }

  /** Everything handed to the writer of `k`, in order. */
  function Written(es: seq<Event>, k: Key): Bytes {
    if es == [] then [] else Written(es[..|es| - 1], k) + ChunkOf(es[|es| - 1], k)
  }

  /** The limit and the declared digest an artifact was begun with. */
  datatype Terms = Terms(maxBytes: nat, declared: Option<Digest>)

  function TermsOf(es: seq<Event>, k: Key): Option<Terms> {
    if es == [] then None
    else
      var e := es[|es| - 1];
      if e.Begin? && e.k == k then Some(Terms(e.maxBytes, e.declared)) else TermsOf(es[..|es| - 1], k)
  }

  /** The bytes respect the terms. */
  predicate Meets(bytes: Bytes, terms: Terms) {
    |bytes| <= terms.maxBytes && (terms.declared.Some? ==> terms.declared.value == Sha256(bytes))
  }

  lemma OneMore(es: seq<Event>, e: Event, k: Key)
    ensures Written(es + [e], k) == Written(es, k) + ChunkOf(e, k)
    ensures TermsOf(es + [e], k) == if e.Begin? && e.k == k then Some(Terms(e.maxBytes, e.declared)) else TermsOf(es, k)
  {
    assert (es + [e])[..|es|] == es;
  }

  // ---- The invariant of one key ----

  predicate GivenUp(w: Writer) {
    w.stage in {Undoing, AbortTemp, AbortDurable, AbortRow}
  }

  /** A writer that was given `bytes` so far. */
  ghost predicate WriterHolds(bytes: Bytes, terms: Option<Terms>, w: Writer) {
    && terms == Some(Terms(w.maxBytes, w.declared))
    && |w.data| <= w.maxBytes
    && (!GivenUp(w) ==> w.data == bytes)
    && (!GivenUp(w) && w.stage !in {Opening, Streaming} ==> Meets(bytes, Terms(w.maxBytes, w.declared)))
  }

  ghost predicate RowHolds(bytes: Bytes, terms: Option<Terms>, r: Row) {
    r.state == Final ==> r.sha == Sha256(bytes) && r.size == |bytes| && terms.Some? && Meets(bytes, terms.value)
  }

  ghost predicate KeyHolds(rows: Rows, writers: map<Key, Writer>, used: set<Id>, bytes: Bytes, terms: Option<Terms>, k: Key) {
    && (k in writers || k in rows ==> k.id in used)
    && (k.id !in used ==> bytes == [] && terms == None)
    && (k in writers ==> WriterHolds(bytes, terms, writers[k]))
    && (k in writers && k in rows && rows[k].state == Final ==> GivenUp(writers[k]))
    && (k in rows ==> RowHolds(bytes, terms, rows[k]))
  }

  ghost predicate Holds(s: State, es: seq<Event>, k: Key) {
    KeyHolds(s.rows, s.writers, s.used, Written(es, k), TermsOf(es, k), k)
  }

  ghost predicate AllHold(s: State, es: seq<Event>) {
    forall k :: Holds(s, es, k)
  }

  function Given(op: WriterOp): Bytes {
    if op.WriteChunk? then op.chunk else []
  }

  /** A writer's own step: a chunk within the limit is taken, whatever else happens to it later. */
  lemma WriterTakes(rows: Rows, d: Disk, k: Key, w: Writer, op: WriterOp, bytes: Bytes, terms: Option<Terms>)
    requires WriterEnabled(d, k, w, op) && WriterHolds(bytes, terms, w)
    ensures var r := WriterStep(rows, d, k, w, op); r.writer.Some? ==> WriterHolds(bytes + Given(op), terms, r.writer.value)
  {
  }

  lemma WriterFinishes(rows: Rows, d: Disk, k: Key, w: Writer, op: WriterOp, bytes: Bytes, terms: Option<Terms>)
    requires WriterEnabled(d, k, w, op) && WriterHolds(bytes, terms, w)
    requires k in rows ==> RowHolds(bytes, terms, rows[k]) && (rows[k].state == Final ==> GivenUp(w))
    ensures var r := WriterStep(rows, d, k, w, op);
            k in r.rows ==> RowHolds(bytes + Given(op), terms, r.rows[k])
                            && (r.rows[k].state == Final && r.writer.Some? ==> GivenUp(r.writer.value))
  {
    assert !op.WriteChunk? ==> bytes + Given(op) == bytes;
  }

  lemma WriterStepHolds(s: State, es: seq<Event>, e: Event)
    requires Enabled(s, e) && e.WriterDoes? && Holds(s, es, e.k)
    ensures Holds(Next(s, e), es + [e], e.k)
  {
    OneMore(es, e, e.k);
    WriterTakes(s.rows, s.disk, e.k, s.writers[e.k], e.wop, Written(es, e.k), TermsOf(es, e.k));
    WriterFinishes(s.rows, s.disk, e.k, s.writers[e.k], e.wop, Written(es, e.k), TermsOf(es, e.k));
  }

  lemma PassOnlyTombstones(rows: Rows, d: Disk, used: set<Id>, p: Pass, op: PassOp, k: Key)
    requires PassEnabled(used, p, op)
    ensures var rows' := PassStep(rows, d, used, p, op).rows;
            (k in rows' <==> k in rows) && (k in rows ==> rows'[k] == rows[k] || rows'[k].state == Tombstoned)
  {
  }

  /** A key whose writer is as it was, and whose row is as it was or tombstoned, holds what it held. */
  lemma StillHolds(s: State, t: State, es: seq<Event>, k: Key)
    requires Holds(s, es, k) && s.used <= t.used
    requires k in t.writers ==> k in s.writers && t.writers[k] == s.writers[k]
    requires k in t.rows ==> k in s.rows && (t.rows[k] == s.rows[k] || t.rows[k].state == Tombstoned)
    ensures KeyHolds(t.rows, t.writers, t.used, Written(es, k), TermsOf(es, k), k)
  {
  }

  lemma OtherWriterLeavesRow(rows: Rows, d: Disk, l: Key, w: Writer, op: WriterOp, k: Key)
    requires k != l
    ensures var rows' := WriterStep(rows, d, l, w, op).rows;
            (k in rows' <==> k in rows) && (k in rows ==> rows'[k] == rows[k])
  {
  }

  lemma BeginHolds(s: State, es: seq<Event>, e: Event, k: Key)
    requires Enabled(s, e) && e.Begin? && Holds(s, es, k)
    ensures Holds(Next(s, e), es + [e], k)
  {
    OneMore(es, e, k);
  }

  /** Any other step leaves the artifact's content as it was. */
  lemma OtherStepHolds(s: State, es: seq<Event>, e: Event, k: Key)
    requires Enabled(s, e) && Holds(s, es, k) && !(e.WriterDoes? && e.k == k)
    ensures Holds(Next(s, e), es + [e], k)
  {
    if e.Begin? {
      BeginHolds(s, es, e, k);
    } else {
      OneMore(es, e, k);
      if e.WriterDoes? { OtherWriterLeavesRow(s.rows, s.disk, e.k, s.writers[e.k], e.wop, k); }
      if e.PassDoes? { PassOnlyTombstones(s.rows, s.disk, s.used, s.passes[e.n], e.pop, k); }
      StillHolds(s, Next(s, e), es, k);
    }
  }

  lemma {:induction false} RunHolds(s: State, past: seq<Event>, es: seq<Event>)
    requires AllHold(s, past) && Runs(s, es)
    ensures AllHold(After(s, es), past + es)
    decreases |es|
  {
    if es == [] {
      assert past + es == past;
    } else {
      forall k ensures Holds(Next(s, es[0]), past + [es[0]], k) {
        assert Holds(s, past, k);
        if es[0].WriterDoes? && es[0].k == k { WriterStepHolds(s, past, es[0]); } else { OtherStepHolds(s, past, es[0], k); }
      }
      RunHolds(Next(s, es[0]), past + [es[0]], es[1..]);
      assert past + [es[0]] + es[1..] == past + es;
    }
  }

  // ---- Main results ----

  /** In every run whatsoever, a final row records the digest and the size of exactly the
    * bytes its writer was given, within the limit and under the digest it was begun with. */
  lemma FinalRowsRecordWhatWasWritten(s: State, es: seq<Event>, k: Key)
    requires Initial(s) && Runs(s, es)
    requires k in After(s, es).rows && After(s, es).rows[k].state == Final
    ensures var r := After(s, es).rows[k];
            && r.sha == Sha256(Written(es, k)) && r.size == |Written(es, k)|
            && TermsOf(es, k).Some? && |Written(es, k)| <= TermsOf(es, k).value.maxBytes
            && (TermsOf(es, k).value.declared.Some? ==> TermsOf(es, k).value.declared.value == r.sha)
  {
    forall l ensures Holds(s, [], l) {}
    RunHolds(s, [], es);
    assert [] + es == es;
    assert Holds(After(s, es), es, k);
  }

  /** So after every sound run the file of a final row is what was written, byte for byte. */
  lemma FinalFilesAreWhatWasWritten(s: State, es: seq<Event>, k: Key)
    requires Initial(s) && Runs(s, es) && SoundRun(s, es)
    requires k in After(s, es).rows && After(s, es).rows[k].state == Final
    ensures var d := After(s, es).disk; k in d.durable && k in d.synced && d.durable[k] == Written(es, k)
  {
    FinalRowsRecordWhatWasWritten(s, es, k);
    ArtifactSafety.FinalArtifactsStayIntact(s, es, k);
  }
}
