/** Which ending a job's status stands for, and when a job may run.
  *
  * JobSafety says what endings keep. Here each status, each return of a handler
  * and each request of a caller is tied to what it does to row and attempts. */
module JobEndings {
  import opened Results
  import opened JobQueue
  import opened JobSafety

  // ---- What a status stands for ----

  /** The latest grant of job `k` was attempt `a`, and `a` came to this. */
  ghost predicate CameTo(t: Tables, k: JobId, a: AttemptId, outcome: AttemptStatus)
    requires k in t.jobs
  {
    a in t.attempts && t.attempts[a].job == k && t.attempts[a].fence == t.jobs[k].fence && t.attempts[a].status == outcome
  }

  ghost predicate StatusFits(t: Tables, k: JobId) {
    k in t.jobs ==>
      match t.jobs[k].status
      case Succeeded => !t.jobs[k].cancelRequested && exists a :: CameTo(t, k, a, Success)
      case Cancelled => t.jobs[k].cancelRequested
      case Failed => exists a :: CameTo(t, k, a, Failure)
      case Unknown => exists a :: CameTo(t, k, a, Unobserved)
      case _ => true
  }

  /** An ended job that is not touched keeps what its status stands for. */
  lemma StillFits(t: Tables, u: Tables, k: JobId)
    requires StatusFits(t, k) && Later(t, u) && k in t.jobs && k in u.jobs
    requires u.jobs[k].status == t.jobs[k].status && u.jobs[k].cancelRequested == t.jobs[k].cancelRequested
    ensures Final(t.jobs[k].status) ==> StatusFits(u, k)
  {
    if Final(t.jobs[k].status) {
      assert JobLater(t, u, k);
      forall a, o | o != Open && CameTo(t, k, a, o) ensures CameTo(u, k, a, o) { assert AttemptLater(t, u, a); }
    }
  }

  lemma SweepFits(t: Tables, now: Time, k: JobId)
    requires TablesFit(t) && StatusFits(t, k)
    ensures StatusFits(Sweep(t, now), k)
  {
    var u := Sweep(t, now);
    SweepIsLater(t, now);
    if k in t.jobs {
      if Swept(t, t.jobs[k], now) {
        var a := t.jobs[k].dispatched.value;
        assert JobFits(t, k) && AttemptFits(t, a);
        assert CameTo(u, k, a, Unobserved);
      } else {
        StillFits(t, u, k);
      }
    }
  }

  lemma EndFits(t: Tables, c: Claim, a: AttemptId, e: Ending, notBefore: Time, k: JobId)
    requires Backs(t, c, a) && StatusFits(t, k)
    ensures StatusFits(End(t, c, a, e, notBefore), k)
  {
    var u := End(t, c, a, e, notBefore);
    EndIsLater(t, c, a, e, notBefore);
    if k in t.jobs {
      if k == c.job && Holds(t, c) && AttemptOpen(t, a) {
        assert CameTo(u, k, a, u.attempts[a].status);
      } else if u.jobs[k] == t.jobs[k] {
        StillFits(t, u, k);
      }
    }
  }

  lemma StepKeepsStatus(s: State, e: Event, k: JobId)
    requires Inv(s) && Enabled(s, e) && StatusFits(s.tables, k)
    ensures StatusFits(Next(s, e).tables, k)
  {
    var t, u := s.tables, Next(s, e).tables;
    StepIsLater(s, e);
    match e
    case Poll => SweepFits(t, s.clock, k);
    case Lease(l, worker, expiresAt, a) =>
      SweepFits(t, s.clock, k);
      GrantIsLater(Sweep(t, s.clock), l, worker, expiresAt, s.clock, a);
      if k in t.jobs && k != l { StillFits(Sweep(t, s.clock), u, k); }
    case Finish(a, o, seen, notBefore) =>
      ClaimBacks(s, a);
      EndFits(t, s.claims[a], a, Translate(s.claims[a], o, seen), notBefore, k);
    case NeverStarted(a) =>
      ClaimBacks(s, a);
      EndFits(t, s.claims[a], a, Release, 0, k);
    case _ => if k in t.jobs && u.jobs[k].status == t.jobs[k].status && Final(t.jobs[k].status) { StillFits(t, u, k); }
  }

  lemma {:induction false} RunKeepsStatus(s: State, es: seq<Event>, k: JobId)
    requires Inv(s) && Runs(s, es) && StatusFits(s.tables, k)
    ensures StatusFits(After(s, es).tables, k)
    decreases |es|
  {
    if es != [] {
      StepKeepsInv(s, es[0]);
      StepKeepsStatus(s, es[0], k);
      RunKeepsStatus(Next(s, es[0]), es[1..], k);
    }
  }

  // ---- Main results ----

  /** After every run a succeeded job was not asked to stop and its latest attempt succeeded, a
    * cancelled one was asked to, a failed one's latest attempt failed, and an unknown one's
    * latest attempt ended unobserved. */
  lemma StatusTells(s: State, es: seq<Event>, k: JobId)
    requires Initial(s) && Runs(s, es) && k in After(s, es).tables.jobs
    ensures var t := After(s, es).tables;
            && (t.jobs[k].status == Succeeded ==> !t.jobs[k].cancelRequested && exists a :: CameTo(t, k, a, Success))
            && (t.jobs[k].status == Cancelled ==> t.jobs[k].cancelRequested)
            && (t.jobs[k].status == Failed ==> exists a :: CameTo(t, k, a, Failure))
            && (t.jobs[k].status == Unknown ==> exists a :: CameTo(t, k, a, Unobserved))
  {
    InitialFits(s);
    RunKeepsStatus(s, es, k);
  }

  /** What each return of a handler leaves, for a claim that still holds its row: a normal
    * return, and one after a cancellation was seen, ends the job as succeeded, or cancelled if
    * that was asked for; a context that ended otherwise leaves a dispatched job unknown and
    * puts any other back at once; an error puts the job back from `notBefore` on while
    * attempts remain, and fails it if not. Nothing else changes. */
  lemma FinishMeans(s: State, es: seq<Event>, e: Event)
    requires Initial(s) && Runs(s, es) && e.Finish? && Enabled(After(s, es), e)
    requires Holds(After(s, es).tables, After(s, es).claims[e.a])
    ensures var u := After(s, es);
            var t, v, c := u.tables, Next(u, e).tables, u.claims[e.a];
            && c.job in v.jobs && e.a in t.attempts && e.a in v.attempts
            && var j, j', outcome := t.jobs[c.job], v.jobs[c.job], v.attempts[e.a].status;
               && (e.outcome == Returned || (e.outcome == ContextEnded && e.cancelSeen) ==>
                     j'.status == (if j.cancelRequested then Cancelled else Succeeded) && j'.expiresAt == None
                     && j'.dispatched == None && outcome == Success)
               && (e.outcome == ContextEnded && !e.cancelSeen && c.dispatched ==>
                     j'.status == Unknown && j'.expiresAt == None && j'.dispatched == j.dispatched && outcome == Unobserved)
               && (e.outcome == ContextEnded && !e.cancelSeen && !c.dispatched ==>
                     j'.status == Queued && j'.expiresAt == None && j'.dispatched == None && outcome == Unobserved)
               && (e.outcome.Errored? && e.outcome.retryable && j.attempts + 1 < j.maxAttempts ==>
                     j'.status == Queued && j'.expiresAt == Some(e.notBefore) && j'.dispatched == None && outcome == Failure)
               && (e.outcome.Errored? && !(e.outcome.retryable && j.attempts + 1 < j.maxAttempts) ==>
                     j'.status == Failed && j'.expiresAt == None && j'.dispatched == None && outcome == Failure)
               && j'.owner == None && j'.fence == j.fence && j'.attempts == j.attempts && j'.cancelRequested == j.cancelRequested
               && v.jobs == t.jobs[c.job := j'] && v.attempts == t.attempts[e.a := t.attempts[e.a].(status := outcome)]
  {
    InitialFits(s);
    RunKeepsInv(s, es);
    var u := After(s, es);
    ClaimBacks(u, e.a);
    assert ClaimFits(u, e.a) && JobFits(u.tables, u.claims[e.a].job);
  }

  /** A job may be granted exactly when nobody asked it to stop and it waits in the queue with
    * its delay over, or is running under a lease that ended without an open dispatch. */
  lemma GrantableIff(s: State, es: seq<Event>, e: Event)
    requires Initial(s) && Runs(s, es) && e.Lease? && e.a !in After(s, es).tables.attempts && e.a !in After(s, es).claims
    ensures var u := After(s, es);
            Enabled(u, e) <==>
              && e.k in u.tables.jobs
              && var j := u.tables.jobs[e.k];
                 && !j.cancelRequested
                 && (|| (j.status == Queued && (j.expiresAt == None || j.expiresAt.value <= u.clock))
                     || (j.status == Running && j.expiresAt.Some? && j.expiresAt.value < u.clock && !DispatchOpen(u.tables, j)))
  {
    InitialFits(s);
    RunKeepsInv(s, es);
    var u := After(s, es);
    var t, w := u.tables, Sweep(u.tables, u.clock);
    if e.k in t.jobs {
      assert JobFits(t, e.k);
      var j := t.jobs[e.k];
      if j.status == Running && !Swept(t, j, u.clock) && DispatchOpen(w, j) { SweepOnlyDoubts(t, u.clock, j.dispatched.value); }
    }
  }

  /** A grant runs the job under the worker's lease and opens its attempt, closing what was
    * left open of the job before; everything else is as the sweep before it leaves it. */
  lemma GrantMeans(s: State, e: Event)
    requires Enabled(s, e) && e.Lease?
    ensures var t, v := Sweep(s.tables, s.clock), Next(s, e).tables;
            && e.k in t.jobs
            && v.jobs == t.jobs[e.k := v.jobs[e.k]]
            && var j, j' := t.jobs[e.k], v.jobs[e.k];
               && j'.status == Running && j'.owner == Some(e.worker) && j'.expiresAt == Some(e.expiresAt) && j'.dispatched == None
               && j'.attempts == j.attempts + 1 && j'.maxAttempts == j.maxAttempts && j'.cancelRequested == j.cancelRequested
               && e.a in v.attempts && v.attempts[e.a].job == e.k && v.attempts[e.a].status == Open && !v.attempts[e.a].sent
               && v.attempts[e.a].fence == j'.fence
    ensures var t, v := Sweep(s.tables, s.clock), Next(s, e).tables;
            forall b :: b in t.attempts ==>
              && b in v.attempts
              && v.attempts[b] == if t.attempts[b].job == e.k && t.attempts[b].status == Open
                                  then t.attempts[b].(status := Unobserved) else t.attempts[b]
  {
  }

  /** The sweep ends exactly the running jobs whose lease ran out with their dispatch open:
    * row and attempt become unknown together, and nothing else changes. */
  lemma PollMeans(s: State, es: seq<Event>, k: JobId, a: AttemptId)
    requires Initial(s) && Runs(s, es)
    ensures var u := After(s, es); var t, v := u.tables, Next(u, Poll).tables;
            && v.jobs.Keys == t.jobs.Keys && v.attempts.Keys == t.attempts.Keys
            && (k in t.jobs ==>
                  var j := t.jobs[k];
                  var over := j.status == Running && j.expiresAt.Some? && j.expiresAt.value < u.clock && j.dispatched.Some?
                              && j.dispatched.value in t.attempts && t.attempts[j.dispatched.value].status == Open;
                  && v.jobs[k] == (if over then j.(status := Unknown, owner := None, expiresAt := None) else j)
                  && (a in t.attempts && t.attempts[a].job == k ==>
                        v.attempts[a] == if over && j.dispatched == Some(a) then t.attempts[a].(status := Unobserved) else t.attempts[a]))
  {
    InitialFits(s);
    RunKeepsInv(s, es);
    var t := After(s, es).tables;
    if a in t.attempts {
      assert AttemptFits(t, a);
      if l :| l in t.jobs && Swept(t, t.jobs[l], After(s, es).clock) && t.jobs[l].dispatched == Some(a) { assert JobFits(t, l); }
    }
  }

  /** A new job waits in the queue, never granted, and may be granted at once. */
  lemma EnqueueMeans(s: State, e: Event)
    requires Enabled(s, e) && e.Enqueue?
    ensures var v := Next(s, e).tables;
            && v.jobs == s.tables.jobs[e.k := v.jobs[e.k]] && v.attempts == s.tables.attempts
            && v.jobs[e.k].status == Queued && v.jobs[e.k].attempts == 0 && v.jobs[e.k].maxAttempts == e.maxAttempts
            && Runnable(v, v.jobs[e.k], s.clock)
  {
  }

  /** Asking a job to stop cancels a waiting one at once; a running one goes on, but is never
    * granted again, and if its handler returns normally it ends cancelled. */
  lemma CancelStops(s: State, k: JobId, es: seq<Event>)
    requires k in s.tables.jobs && s.tables.jobs[k].status in {Queued, Running} && Runs(Next(s, Cancel(k)), es)
    ensures var u := Next(s, Cancel(k)).tables;
            u.jobs[k].cancelRequested && u.jobs[k].status == (if s.tables.jobs[k].status == Queued then Cancelled else Running)
    ensures var t := After(Next(s, Cancel(k)), es);
            && k in t.tables.jobs && t.tables.jobs[k].cancelRequested
            && (forall e: Event | e.Lease? && e.k == k :: !Enabled(t, e))
            && (forall e: Event | e.Finish? && Enabled(t, e) && t.claims[e.a].job == k && Holds(t.tables, t.claims[e.a])
                                  && AttemptOpen(t.tables, e.a) && e.outcome == Returned ::
                  Next(t, e).tables.jobs[k].status == Cancelled)
  {
    var u := Next(s, Cancel(k));
    HistoryIsKept(u, es, k, "");
    var t := After(u, es);
    SweepIsLater(t.tables, t.clock);
    assert JobLater(t.tables, Sweep(t.tables, t.clock), k);
  }

  /** A deleted job stays deleted, whatever happens after: it is neither granted nor ended. */
  lemma DeleteStops(s: State, k: JobId, es: seq<Event>)
    requires k in s.tables.jobs && Runs(Next(s, Delete(k)), es)
    ensures var t := After(Next(s, Delete(k)), es);
            && k in t.tables.jobs && t.tables.jobs[k].status == Deleted
            && (forall e: Event | e.Lease? && e.k == k :: !Enabled(t, e))
            && (forall c: Claim | c.job == k :: !Holds(t.tables, c))
  {
    var u := Next(s, Delete(k));
    HistoryIsKept(u, es, k, "");
    var t := After(u, es);
    SweepIsLater(t.tables, t.clock);
    assert JobLater(t.tables, Sweep(t.tables, t.clock), k);
  }

  /** A heartbeat of the holder moves the end of its lease and nothing else, and up to that
    * end nobody is granted the job and no sweep ends it. */
  lemma HeartbeatKeepsLease(s: State, a: AttemptId, until: Time, later: Time)
    requires a in s.claims && Holds(s.tables, s.claims[a]) && later <= until
    ensures var k, t, v := s.claims[a].job, s.tables, Next(s, Heartbeat(a, until)).tables;
            && v == t.(jobs := t.jobs[k := t.jobs[k].(expiresAt := Some(until))])
            && !Swept(v, v.jobs[k], later) && !Runnable(v, v.jobs[k], later)
  {
  }

  /** A dispatch of the holder marks row and attempt, and the claim; until its outcome is
    * recorded the job is not granted again, however long the lease has been over. */
  lemma DispatchMarks(s: State, a: AttemptId, later: Time)
    requires a in s.claims && Holds(s.tables, s.claims[a]) && AttemptOpen(s.tables, a)
    ensures var k, t, n := s.claims[a].job, s.tables, Next(s, Dispatch(a));
            && n.tables.jobs == t.jobs[k := t.jobs[k].(dispatched := Some(a))]
            && n.tables.attempts == t.attempts[a := t.attempts[a].(sent := true)]
            && n.claims == s.claims[a := s.claims[a].(dispatched := true)]
            && !Runnable(n.tables, n.tables.jobs[k], later)
  {
  }

  /** Shut down before its handler was called, a holder puts its job back at once. */
  lemma NeverStartedPutsBack(s: State, a: AttemptId)
    requires Enabled(s, NeverStarted(a)) && Holds(s.tables, s.claims[a]) && AttemptOpen(s.tables, a)
    ensures var k, t, v := s.claims[a].job, s.tables, Next(s, NeverStarted(a)).tables;
            && v.jobs == t.jobs[k := t.jobs[k].(status := Queued, owner := None, expiresAt := None, dispatched := None)]
            && v.attempts == t.attempts[a := t.attempts[a].(status := Unobserved)]
            && (Runnable(v, v.jobs[k], s.clock) <==> !t.jobs[k].cancelRequested)
  {
  }
}
