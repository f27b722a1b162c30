/** What one party achieves when nobody interferes: an upload ends final with its
  * bytes, an abort and a deletion leave no file behind. */
module ArtifactLives {
  import opened ArtifactRows
  import opened ArtifactMachine
  import opened Results

  function Concat(chunks: seq<Bytes>): Bytes {
    if chunks == [] then [] else chunks[0] + Concat(chunks[1..])
  }

  /** From `s` the run `es`, of steps of the writer of `k` only, leads to `t`. */
  ghost predicate Leads(s: State, es: seq<Event>, k: Key, t: State) {
    Runs(s, es) && After(s, es) == t && OwnSteps(es, k)
  }

  predicate OwnSteps(es: seq<Event>, k: Key) {
    forall e :: e in es ==> (e.Begin? || e.WriterDoes?) && e.k == k
  }

  lemma {:induction false} RunsOn(s: State, es: seq<Event>, t: State, e: Event)
    requires Runs(s, es) && After(s, es) == t && Enabled(t, e)
    ensures Runs(s, es + [e]) && After(s, es + [e]) == Next(t, e)
    decreases |es|
  {
    if es == [] {
      assert es + [e] == [e] && [e][1..] == [];
    } else {
      assert (es + [e])[0] == es[0] && (es + [e])[1..] == es[1..] + [e];
      RunsOn(Next(s, es[0]), es[1..], t, e);
    }
  }

  /** `s` with the writer of `k` and the files as given. */
  function With(s: State, k: Key, w: Writer, disk: Disk): State {
    s.(writers := s.writers[k := w], disk := disk)
  }

  /** A writer's step that touches no row. */
  lemma MovesOn(s: State, es: seq<Event>, b: State, k: Key, w: Writer, disk: Disk, op: WriterOp, w': Writer, disk': Disk)
    returns (es': seq<Event>)
    requires Leads(s, es, k, With(b, k, w, disk)) && WriterEnabled(disk, k, w, op)
    requires WriterStep(b.rows, disk, k, w, op) == WriterResult(b.rows, disk', Some(w'))
    ensures Leads(s, es', k, With(b, k, w', disk'))
  {
    var t, e := With(b, k, w, disk), WriterDoes(k, op);
    RunsOn(s, es, t, e);
    es' := es + [e];
    assert Next(t, e) == With(b, k, w', disk');
  }

  function Part(d: Disk, k: Key, bytes: Bytes): Disk {
    d.(temp := d.temp[k.id := bytes])
  }

  /** Chunks within the limit arrive in the part file one after the other. */
  lemma {:induction false} WritesAll(s: State, es: seq<Event>, b: State, k: Key, w: Writer, chunks: seq<Bytes>) returns (es': seq<Event>)
    requires w.stage == Streaming && Leads(s, es, k, With(b, k, w, Part(b.disk, k, w.data)))
    requires |w.data + Concat(chunks)| <= w.maxBytes
    ensures Leads(s, es', k, With(b, k, w.(data := w.data + Concat(chunks)), Part(b.disk, k, w.data + Concat(chunks))))
    decreases |chunks|
  {
    if chunks == [] {
      assert w.data + [] == w.data;
      es' := es;
    } else {
      var w' := w.(data := w.data + chunks[0]);
      assert w'.data + Concat(chunks[1..]) == w.data + Concat(chunks);
      assert Part(Part(b.disk, k, w.data), k, w'.data) == Part(b.disk, k, w'.data);
      es' := MovesOn(s, es, b, k, w, Part(b.disk, k, w.data), WriteChunk(chunks[0]), w', Part(b.disk, k, w'.data));
      es' := WritesAll(s, es', b, k, w', chunks[1..]);
    }
  }

  function Renaming(d: Disk, k: Key, bytes: Bytes): Disk {
    Disk(d.durable[k := bytes], d.synced - {k}, d.temp - {k.id})
  }

  function Placed(d: Disk, k: Key, bytes: Bytes): Disk {
    Disk(d.durable[k := bytes], d.synced + {k}, d.temp - {k.id})
  }

  /** Finalize of a writer that still owns its row, up to its commit. */
  lemma Flushes(s: State, es: seq<Event>, b: State, k: Key, w: Writer) returns (es': seq<Event>)
    requires w.stage == Streaming && Leads(s, es, k, With(b, k, w, Part(b.disk, k, w.data))) && OwnedWriting(b.rows, k, w.lease)
    requires w.declared.Some? ==> w.declared.value == Sha256(w.data)
    ensures Leads(s, es', k, With(b, k, w.(stage := DirFlushed), Placed(b.disk, k, w.data)))
  {
    var d := Part(b.disk, k, w.data);
    es' := MovesOn(s, es, b, k, w, d, Verify, w.(stage := Verified), d);
    es' := MovesOn(s, es', b, k, w.(stage := Verified), d, Flush, w.(stage := Flushed), d);
    assert d.temp - {k.id} == b.disk.temp - {k.id};
    es' := MovesOn(s, es', b, k, w.(stage := Flushed), d, Rename, w.(stage := Renamed), Renaming(b.disk, k, w.data));
    assert Renaming(b.disk, k, w.data).synced + {k} == b.disk.synced + {k};
    es' := MovesOn(s, es', b, k, w.(stage := Renamed), Renaming(b.disk, k, w.data), FlushDir, w.(stage := DirFlushed), Placed(b.disk, k, w.data));
  }

  function Committed(b: State, k: Key, bytes: Bytes): State
    requires k in b.rows
  {
    b.(rows := b.rows[k := b.rows[k].(state := Final, sha := Sha256(bytes), size := |bytes|)],
       disk := Placed(b.disk, k, bytes), writers := b.writers - {k})
  }

  lemma Commits(s: State, es: seq<Event>, b: State, k: Key, w: Writer) returns (es': seq<Event>)
    requires w.stage == DirFlushed && OwnedWriting(b.rows, k, w.lease)
    requires Leads(s, es, k, With(b, k, w, Placed(b.disk, k, w.data)))
    ensures Leads(s, es', k, Committed(b, k, w.data))
  {
    var t, e := With(b, k, w, Placed(b.disk, k, w.data)), WriterDoes(k, Commit(Answered));
    RunsOn(s, es, t, e);
    es' := es + [e];
    assert b.writers[k := w] - {k} == b.writers - {k};
    assert Next(t, e) == Committed(b, k, w.data);
  }

  // ---- Main results ----

  lemma Begins(s: State, begin: Event) returns (es: seq<Event>)
    requires begin.Begin? && Enabled(s, begin) && s.disk.temp.Keys <= s.used
    ensures var k, b := begin.k, Next(s, begin);
            Leads(s, es, k, With(b, k, Writer(begin.lease, [], begin.maxBytes, begin.declared, Streaming), Part(b.disk, k, [])))
  {
    var k, b, w := begin.k, Next(s, begin), Writer(begin.lease, [], begin.maxBytes, begin.declared, Streaming);
    RunsOn(s, [], s, begin);
    assert b == With(b, k, w.(stage := Opening), b.disk);
    es := MovesOn(s, [] + [begin], b, k, w.(stage := Opening), b.disk, OpenTemp, w, Part(b.disk, k, []));
  }

  /** An upload that nobody disturbs, within its limit and under its declared digest, ends
    * final: the row records what was written, the file holds it on stable storage, the
    * part file is gone, and nothing else has changed. */
  lemma UploadSucceeds(s: State, begin: Event, chunks: seq<Bytes>) returns (es: seq<Event>)
    requires begin.Begin? && Enabled(s, begin) && s.disk.temp.Keys <= s.used
    requires |Concat(chunks)| <= begin.maxBytes && (begin.declared.Some? ==> begin.declared.value == Sha256(Concat(chunks)))
    ensures Runs(s, es) && OwnSteps(es, begin.k)
    ensures var k, bytes, t := begin.k, Concat(chunks), After(s, es);
            && t.rows == s.rows[k := Row(Final, begin.lease, begin.expiresAt, Sha256(bytes), |bytes|, NoReason)]
            && t.disk == Disk(s.disk.durable[k := bytes], s.disk.synced + {k}, s.disk.temp)
            && t.writers == s.writers - {k}
  {
    var k, b, w := begin.k, Next(s, begin), Writer(begin.lease, Concat(chunks), begin.maxBytes, begin.declared, Streaming);
    es := Begins(s, begin);
    assert [] + Concat(chunks) == Concat(chunks);
    es := WritesAll(s, es, b, k, w.(data := []), chunks);
    es := Flushes(s, es, b, k, w);
    es := Commits(s, es, b, k, w.(stage := DirFlushed));
    CommittedIs(s, begin, Concat(chunks));
  }

  lemma CommittedIs(s: State, begin: Event, bytes: Bytes)
    requires begin.Begin? && Enabled(s, begin) && s.disk.temp.Keys <= s.used
    ensures var k, t := begin.k, Committed(Next(s, begin), begin.k, bytes);
            && t.rows == s.rows[k := Row(Final, begin.lease, begin.expiresAt, Sha256(bytes), |bytes|, NoReason)]
            && t.disk == Disk(s.disk.durable[k := bytes], s.disk.synced + {k}, s.disk.temp)
            && t.writers == s.writers - {k}
  {
    assert s.disk.temp - {begin.k.id} == s.disk.temp;
  }

  /** A chunk that crosses the limit, a declared digest that does not match, or a lease that is
    * lost makes the writer give up; nothing of the chunk is kept. */
  lemma GivesUpIff(s: State, k: Key, op: WriterOp)
    requires k in s.writers && (op.WriteChunk? || op.Verify?) && WriterEnabled(s.disk, k, s.writers[k], op)
    ensures var w, t := s.writers[k], Next(s, WriterDoes(k, op));
            && k in t.writers
            && (t.writers[k].stage == AbortTemp <==>
                  if op.WriteChunk? then |w.data| + |op.chunk| > w.maxBytes
                  else (w.declared.Some? && w.declared.value != Sha256(w.data)) ||
                       !(k in s.rows && s.rows[k].state == Writing && s.rows[k].lease == w.lease))
            && (t.writers[k].stage == AbortTemp ==> t.disk == s.disk && t.rows == s.rows && t.writers[k].data == w.data)
  {
  }

  /** An abort whose removals and update succeed leaves no file and no writer, and the row
    * tombstoned as aborted unless it already was. */
  lemma AbortCleansUp(s: State, k: Key) returns (es: seq<Event>)
    requires k in s.writers && s.writers[k].stage == AbortTemp && k in s.rows
    ensures Runs(s, es) && OwnSteps(es, k)
    ensures var t := After(s, es);
            && t.disk == Disk(s.disk.durable - {k}, s.disk.synced - {k}, s.disk.temp - {k.id})
            && t.writers == s.writers - {k}
            && t.rows == s.rows[k := if s.rows[k].state == Tombstoned then s.rows[k]
                                     else s.rows[k].(state := Tombstoned, reason := WriteAborted)]
  {
    var w, e := s.writers[k], WriterDoes(k, AbortStep(true));
    var d1 := s.disk.(temp := s.disk.temp - {k.id});
    var d2 := Disk(s.disk.durable - {k}, s.disk.synced - {k}, s.disk.temp - {k.id});
    assert s == With(s, k, w, s.disk);
    es := MovesOn(s, [], s, k, w, s.disk, AbortStep(true), w.(stage := AbortDurable), d1);
    es := MovesOn(s, es, s, k, w.(stage := AbortDurable), d1, AbortStep(true), w.(stage := AbortRow), d2);
    RunsOn(s, es, With(s, k, w.(stage := AbortRow), d2), e);
    es := es + [e];
    assert s.writers[k := w.(stage := AbortRow)] - {k} == s.writers - {k};
    assert s.rows[k := s.rows[k]] == s.rows;
  }

  /** A deletion tombstones the row first; when its removals succeed no file is left. */
  lemma DeleteCleansUp(s: State, n: nat, k: Key) returns (es: seq<Event>)
    requires n !in s.deletions && k in s.rows
    ensures Runs(s, es) && es != [] && es[0] == DeleteRow(n, k) && Next(s, es[0]).disk == s.disk
    ensures After(s, es) ==
            s.(rows := s.rows[k := if s.rows[k].state == Tombstoned then s.rows[k]
                                   else s.rows[k].(state := Tombstoned, reason := Deleted)],
               disk := Disk(s.disk.durable - {k}, s.disk.synced - {k}, s.disk.temp - {k.id}))
  {
    var s1 := Next(s, DeleteRow(n, k));
    RunsOn(s, [], s, DeleteRow(n, k));
    var s2 := Next(s1, DeleteStep(n, true));
    RunsOn(s, [] + [DeleteRow(n, k)], s1, DeleteStep(n, true));
    RunsOn(s, [] + [DeleteRow(n, k)] + [DeleteStep(n, true)], s2, DeleteStep(n, true));
    es := [] + [DeleteRow(n, k)] + [DeleteStep(n, true)] + [DeleteStep(n, true)];
    assert Next(s2, DeleteStep(n, true)).deletions == s.deletions;
    assert s.rows[k := s.rows[k]] == s.rows;
  }
}
