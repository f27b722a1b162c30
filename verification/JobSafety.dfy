/** What every run of the job queue keeps, with any number of workers. */
module JobSafety {
  import opened Results
  import opened JobQueue

  // ---- The invariant ----

  /** A dispatch whose outcome nobody has recorded. */
  predicate InDoubt(x: Attempt) {
    x.sent && x.status in {Open, Unobserved}
  }

  ghost predicate AttemptFits(t: Tables, a: AttemptId) {
    a in t.attempts ==>
      var x := t.attempts[a];
      && x.job in t.jobs
      && x.fence <= t.jobs[x.job].fence
      && (x.status == Open ==> x.fence == t.jobs[x.job].fence && t.jobs[x.job].status in {Running, Deleted})
      && (InDoubt(x) ==> t.jobs[x.job].status in {Running, Unknown, Deleted})
      && (InDoubt(x) && t.jobs[x.job].status == Running ==> t.jobs[x.job].dispatched == Some(a) && x.status == Open)
  }

  /** Each fence token belongs to one attempt of the job. */
  ghost predicate OneAttempt(t: Tables, a: AttemptId, b: AttemptId) {
    a in t.attempts && b in t.attempts && t.attempts[a].job == t.attempts[b].job && t.attempts[a].fence == t.attempts[b].fence ==> a == b
  }

  ghost predicate JobFits(t: Tables, k: JobId) {
    k in t.jobs ==>
      && t.jobs[k].attempts == t.jobs[k].fence
      && (t.jobs[k].status == Running && t.jobs[k].dispatched.Some? ==>
            t.jobs[k].dispatched.value in t.attempts && t.attempts[t.jobs[k].dispatched.value].job == k)
  }

  ghost predicate ClaimFits(s: State, a: AttemptId) {
    a in s.claims ==>
      var c := s.claims[a];
      && a in s.tables.attempts && s.tables.attempts[a].job == c.job && s.tables.attempts[a].fence == c.fence
      && s.tables.attempts[a].sent == c.dispatched
      && c.job in s.tables.jobs && c.number == c.fence
      && c.maxAttempts == s.tables.jobs[c.job].maxAttempts
      && (s.tables.jobs[c.job].status == Running && s.tables.jobs[c.job].fence == c.fence ==> s.tables.attempts[a].status == Open)
  }

  ghost predicate TablesFit(t: Tables) {
    && (forall a :: AttemptFits(t, a))
    && (forall a, b :: OneAttempt(t, a, b))
    && (forall k :: JobFits(t, k))
  }

  ghost predicate Inv(s: State) {
    TablesFit(s.tables) && forall a :: ClaimFits(s, a)
  }

  // ---- What later states remember of earlier ones ----

  predicate Final(s: Status) {
    s in {Succeeded, Failed, Cancelled, Unknown}
  }

  /** Rows and attempts persist; fences grow; endings and outcomes stay. */
  ghost predicate Later(t: Tables, u: Tables) {
    && (forall k :: k in t.jobs ==> JobLater(t, u, k))
    && (forall a :: a in t.attempts ==> AttemptLater(t, u, a))
  }

  ghost predicate JobLater(t: Tables, u: Tables, k: JobId)
    requires k in t.jobs
  {
    && k in u.jobs
    && t.jobs[k].fence <= u.jobs[k].fence
    && t.jobs[k].maxAttempts == u.jobs[k].maxAttempts
    && (Final(t.jobs[k].status) ==> u.jobs[k].status in {t.jobs[k].status, Deleted} && u.jobs[k].fence == t.jobs[k].fence)
    && (t.jobs[k].status == Deleted ==> u.jobs[k].status == Deleted && u.jobs[k].fence == t.jobs[k].fence)
    && (t.jobs[k].cancelRequested ==> u.jobs[k].cancelRequested && u.jobs[k].fence == t.jobs[k].fence)
  }

  ghost predicate AttemptLater(t: Tables, u: Tables, a: AttemptId)
    requires a in t.attempts
  {
    && a in u.attempts
    && u.attempts[a].job == t.attempts[a].job && u.attempts[a].fence == t.attempts[a].fence
    && (t.attempts[a].sent ==> u.attempts[a].sent)
    && (t.attempts[a].status != Open ==> u.attempts[a].status == t.attempts[a].status)
  }

  // ---- Each transaction keeps the tables ----

  lemma SweepKeeps(t: Tables, now: Time)
    requires TablesFit(t)
    ensures TablesFit(Sweep(t, now))
  {
    var u := Sweep(t, now);
    forall a ensures AttemptFits(u, a) {
      assert AttemptFits(t, a);
      if a in t.attempts {
        var k := t.attempts[a].job;
        assert JobFits(t, k);
        if Swept(t, t.jobs[k], now) {
          var d := t.jobs[k].dispatched.value;
          assert AttemptFits(t, d) && OneAttempt(t, a, d);
        }
        if j :| j in t.jobs && Swept(t, t.jobs[j], now) && t.jobs[j].dispatched == Some(a) {
          assert JobFits(t, j);
        }
      }
    }
    forall a, b ensures OneAttempt(u, a, b) { assert OneAttempt(t, a, b); }
    forall k ensures JobFits(u, k) { assert JobFits(t, k); }
  }

  lemma SweepIsLater(t: Tables, now: Time)
    ensures Later(t, Sweep(t, now))
  {
  }

  /** A row that can be leased carries no dispatch in doubt. */
  lemma RunnableHasNoDoubt(t: Tables, k: JobId, now: Time, a: AttemptId)
    requires TablesFit(t) && k in t.jobs && Runnable(t, t.jobs[k], now)
    requires a in t.attempts && t.attempts[a].job == k
    ensures !InDoubt(t.attempts[a])
  {
    assert AttemptFits(t, a);
  }

  lemma GrantKeeps(t: Tables, k: JobId, worker: string, expiresAt: Time, now: Time, a: AttemptId)
    requires TablesFit(t) && k in t.jobs && Runnable(t, t.jobs[k], now) && a !in t.attempts
    ensures TablesFit(Grant(t, k, worker, expiresAt, a))
  {
    var u := Grant(t, k, worker, expiresAt, a);
    forall b ensures AttemptFits(u, b) {
      assert AttemptFits(t, b);
      if b in t.attempts && t.attempts[b].job == k { RunnableHasNoDoubt(t, k, now, b); }
    }
    forall b, c ensures OneAttempt(u, b, c) { assert OneAttempt(t, b, c) && AttemptFits(t, b) && AttemptFits(t, c); }
    forall l ensures JobFits(u, l) { assert JobFits(t, l); }
  }

  lemma GrantIsLater(t: Tables, k: JobId, worker: string, expiresAt: Time, now: Time, a: AttemptId)
    requires k in t.jobs && Runnable(t, t.jobs[k], now) && a !in t.attempts
    ensures Later(t, Grant(t, k, worker, expiresAt, a))
  {
  }

  /** The claim's own attempt, as the worker knows it. */
  ghost predicate Backs(t: Tables, c: Claim, a: AttemptId) {
    && a in t.attempts && t.attempts[a].job == c.job && t.attempts[a].fence == c.fence && t.attempts[a].sent == c.dispatched
    && c.job in t.jobs
  }

  /** While a claim holds its row, any dispatch in doubt is its own. */
  lemma DoubtIsOwn(t: Tables, c: Claim, a: AttemptId, b: AttemptId)
    requires TablesFit(t) && Backs(t, c, a) && Holds(t, c)
    requires b in t.attempts && t.attempts[b].job == c.job && (InDoubt(t.attempts[b]) || t.attempts[b].status == Open)
    ensures b == a
  {
    assert AttemptFits(t, b) && OneAttempt(t, a, b);
  }

  lemma CloseKeeps(t: Tables, c: Claim, a: AttemptId, status: Status, expiresAt: Option<Time>, keep: bool, outcome: AttemptStatus)
    requires TablesFit(t) && Backs(t, c, a) && status !in {Running, Deleted} && outcome != Open
    requires outcome == Unobserved ==> status == Unknown
    ensures TablesFit(Close(t, c, a, status, expiresAt, keep, outcome))
  {
    var u := Close(t, c, a, status, expiresAt, keep, outcome);
    forall b ensures AttemptFits(u, b) {
      assert AttemptFits(t, b);
      if Holds(t, c) && b in t.attempts && t.attempts[b].job == c.job && (InDoubt(t.attempts[b]) || t.attempts[b].status == Open) {
        DoubtIsOwn(t, c, a, b);
      }
    }
    forall b, d ensures OneAttempt(u, b, d) { assert OneAttempt(t, b, d); }
    forall k ensures JobFits(u, k) { assert JobFits(t, k); }
  }

  /** Releasing is safe exactly because it is done for claims that never dispatched. */
  lemma ReleaseKeeps(t: Tables, c: Claim, a: AttemptId)
    requires TablesFit(t) && Backs(t, c, a) && !c.dispatched
    ensures TablesFit(ReleaseJob(t, c, a))
  {
    var u := ReleaseJob(t, c, a);
    forall b ensures AttemptFits(u, b) {
      assert AttemptFits(t, b);
      if Holds(t, c) && b in t.attempts && t.attempts[b].job == c.job && (InDoubt(t.attempts[b]) || t.attempts[b].status == Open) {
        DoubtIsOwn(t, c, a, b);
      }
    }
    forall b, d ensures OneAttempt(u, b, d) { assert OneAttempt(t, b, d); }
    forall k ensures JobFits(u, k) { assert JobFits(t, k); }
  }

  lemma EndKeeps(t: Tables, c: Claim, a: AttemptId, e: Ending, notBefore: Time)
    requires TablesFit(t) && Backs(t, c, a) && (e == Release ==> !c.dispatched)
    ensures TablesFit(End(t, c, a, e, notBefore))
  {
    match e
    case Complete =>
      CloseKeeps(t, c, a, if t.jobs[c.job].cancelRequested then Cancelled else Succeeded, None, false, Success);
    case EndUnknown => CloseKeeps(t, c, a, Unknown, None, true, Unobserved);
    case Release => ReleaseKeeps(t, c, a);
    case Fail(retry) =>
      CloseKeeps(t, c, a, Queued, Some(notBefore), false, Failure);
      CloseKeeps(t, c, a, Failed, None, false, Failure);
  }

  lemma EndIsLater(t: Tables, c: Claim, a: AttemptId, e: Ending, notBefore: Time)
    ensures Later(t, End(t, c, a, e, notBefore))
  {
  }

  lemma MarkKeeps(t: Tables, c: Claim, a: AttemptId)
    requires TablesFit(t) && Backs(t, c, a)
    requires AttemptOpen(t, a) || !Holds(t, c)
    ensures TablesFit(MarkDispatched(t, c, a))
  {
    var u := MarkDispatched(t, c, a);
    forall b ensures AttemptFits(u, b) {
      assert AttemptFits(t, b);
      if Holds(t, c) && b in t.attempts && t.attempts[b].job == c.job && InDoubt(t.attempts[b]) { DoubtIsOwn(t, c, a, b); }
    }
    forall b, d ensures OneAttempt(u, b, d) { assert OneAttempt(t, b, d); }
    forall k ensures JobFits(u, k) { assert JobFits(t, k); }
  }

  // ---- Every step keeps the invariant ----

  lemma ClaimBacks(s: State, a: AttemptId)
    requires Inv(s) && a in s.claims
    ensures Backs(s.tables, s.claims[a], a)
    ensures Holds(s.tables, s.claims[a]) ==> AttemptOpen(s.tables, a)
  {
    assert ClaimFits(s, a);
  }

  lemma StepKeepsTables(s: State, e: Event)
    requires Inv(s) && Enabled(s, e)
    ensures TablesFit(Next(s, e).tables)
  {
    var t := s.tables;
    match e
    case Poll => SweepKeeps(t, s.clock);
    case Lease(k, worker, expiresAt, a) =>
      SweepKeeps(t, s.clock);
      GrantKeeps(Sweep(t, s.clock), k, worker, expiresAt, s.clock, a);
    case Dispatch(a) =>
      ClaimBacks(s, a);
      MarkKeeps(t, s.claims[a], a);
    case Finish(a, o, seen, notBefore) =>
      ClaimBacks(s, a);
      EndKeeps(t, s.claims[a], a, Translate(s.claims[a], o, seen), notBefore);
    case NeverStarted(a) =>
      ClaimBacks(s, a);
      ReleaseKeeps(t, s.claims[a], a);
    case _ => RowOnlyKeeps(s, e);
  }

  /** Steps that touch one row and no attempt. */
  lemma RowOnlyKeeps(s: State, e: Event)
    requires Inv(s) && Enabled(s, e) && (e.Tick? || e.Enqueue? || e.Heartbeat? || e.Cancel? || e.Delete?)
    ensures TablesFit(Next(s, e).tables)
  {
    var u := Next(s, e).tables;
    forall a ensures AttemptFits(u, a) { assert AttemptFits(s.tables, a); }
    forall a, b ensures OneAttempt(u, a, b) { assert OneAttempt(s.tables, a, b); }
    forall k ensures JobFits(u, k) { assert JobFits(s.tables, k); }
  }

  lemma StepIsLater(s: State, e: Event)
    requires Enabled(s, e)
    ensures Later(s.tables, Next(s, e).tables)
  {
    match e
    case Poll => SweepIsLater(s.tables, s.clock);
    case Lease(k, worker, expiresAt, a) =>
      SweepIsLater(s.tables, s.clock);
      GrantIsLater(Sweep(s.tables, s.clock), k, worker, expiresAt, s.clock, a);
    case Finish(a, o, seen, notBefore) =>
      EndIsLater(s.tables, s.claims[a], a, Translate(s.claims[a], o, seen), notBefore);
    case _ =>
  }

  /** What an ending does to the rows and attempts that other claims look at. */
  lemma EndForOthers(t: Tables, c: Claim, a: AttemptId, e: Ending, notBefore: Time, b: AttemptId)
    requires TablesFit(t) && Backs(t, c, a) && b in t.attempts
    requires t.attempts[b].job in t.jobs
    ensures var u, k := End(t, c, a, e, notBefore), t.attempts[b].job;
            && k in u.jobs && b in u.attempts && u.attempts[b].sent == t.attempts[b].sent
            && (u.jobs[k].status == Running && u.jobs[k].fence == t.attempts[b].fence ==>
                  t.jobs[k].status == Running && t.jobs[k].fence == t.attempts[b].fence && u.attempts[b].status == t.attempts[b].status)
  {
  }

  lemma SweepForOthers(t: Tables, now: Time, b: AttemptId)
    requires TablesFit(t) && b in t.attempts
    ensures var u, k := Sweep(t, now), t.attempts[b].job;
            && k in u.jobs && b in u.attempts && u.attempts[b].sent == t.attempts[b].sent
            && (u.jobs[k].status == Running && u.jobs[k].fence == t.attempts[b].fence ==>
                  t.jobs[k].status == Running && t.jobs[k].fence == t.attempts[b].fence && u.attempts[b].status == t.attempts[b].status)
  {
    var k := t.attempts[b].job;
    assert AttemptFits(t, b);
    if j :| j in t.jobs && Swept(t, t.jobs[j], now) && t.jobs[j].dispatched == Some(b) {
      assert JobFits(t, j);
    }
  }

  lemma StepKeepsClaim(s: State, e: Event, b: AttemptId)
    requires Inv(s) && Enabled(s, e)
    ensures ClaimFits(Next(s, e), b)
  {
    assert ClaimFits(s, b) && AttemptFits(s.tables, b);
    StepIsLater(s, e);
    var t := s.tables;
    if b in s.claims {
      assert JobLater(t, Next(s, e).tables, s.claims[b].job) && AttemptLater(t, Next(s, e).tables, b);
    }
    match e
    case Poll => if b in s.claims { SweepForOthers(t, s.clock, b); }
    case Lease(k, worker, expiresAt, a) =>
      SweepKeeps(t, s.clock);
      if b in s.claims { SweepForOthers(t, s.clock, b); }
      assert JobFits(Sweep(t, s.clock), k) && AttemptFits(Sweep(t, s.clock), b);
    case Finish(a, o, seen, notBefore) =>
      ClaimBacks(s, a);
      if b in s.claims { EndForOthers(t, s.claims[a], a, Translate(s.claims[a], o, seen), notBefore, b); }
    case NeverStarted(a) =>
      ClaimBacks(s, a);
      if b in s.claims { EndForOthers(t, s.claims[a], a, Release, 0, b); }
    case Dispatch(a) => ClaimBacks(s, a);
    case _ =>
  }

  lemma StepKeepsInv(s: State, e: Event)
    requires Inv(s) && Enabled(s, e)
    ensures Inv(Next(s, e))
  {
    StepKeepsTables(s, e);
    forall a ensures ClaimFits(Next(s, e), a) { StepKeepsClaim(s, e, a); }
  }

  lemma {:induction false} RunKeepsInv(s: State, es: seq<Event>)
    requires Inv(s) && Runs(s, es)
    ensures Inv(After(s, es))
    decreases |es|
  {
    if es != [] {
      StepKeepsInv(s, es[0]);
      RunKeepsInv(Next(s, es[0]), es[1..]);
    }
  }

  lemma InitialFits(s: State)
    requires Initial(s)
    ensures Inv(s)
  {
  }

  // ---- Main results ----

  /** Over every run a job's fence token never falls, an ended job changes status only to
    * deleted, no job is granted again once it ended or its cancellation was requested, and
    * an attempt that has an outcome keeps it: each grant ends with at most one outcome. */
  lemma {:induction false} HistoryIsKept(s: State, es: seq<Event>, k: JobId, a: AttemptId)
    requires Runs(s, es)
    ensures k in s.tables.jobs ==> JobLater(s.tables, After(s, es).tables, k)
    ensures a in s.tables.attempts ==> AttemptLater(s.tables, After(s, es).tables, a)
    decreases |es|
  {
    if es != [] {
      StepIsLater(s, es[0]);
      if k in s.tables.jobs { assert JobLater(s.tables, Next(s, es[0]).tables, k); }
      if a in s.tables.attempts { assert AttemptLater(s.tables, Next(s, es[0]).tables, a); }
      HistoryIsKept(Next(s, es[0]), es[1..], k, a);
    }
  }

  /** Every grant raises the fence token of its job by exactly one. */
  lemma GrantRaisesFence(s: State, e: Event)
    requires Enabled(s, e) && e.Lease?
    ensures e.k in s.tables.jobs && Next(s, e).tables.jobs[e.k].fence == s.tables.jobs[e.k].fence + 1
    ensures Next(s, e).claims[e.a].fence == s.tables.jobs[e.k].fence + 1
  {
  }

  /** A claim stays with its worker for good, under the same owner and fence. */
  lemma {:induction false} ClaimPersists(s: State, es: seq<Event>, a: AttemptId)
    requires Runs(s, es) && a in s.claims
    ensures var c, d := s.claims[a], After(s, es).claims;
            a in d && d[a].job == c.job && d[a].owner == c.owner && d[a].fence == c.fence
    decreases |es|
  {
    if es != [] { ClaimPersists(Next(s, es[0]), es[1..], a); }
  }

  /** A worker whose claim was superseded can do nothing, now or at any later point of the
    * run: whatever it tries, the state stays exactly as it is. */
  lemma SupersededClaimIsInert(s: State, es: seq<Event>, e: Event)
    requires e.Heartbeat? || e.Dispatch? || e.Finish? || e.NeverStarted?
    requires e.a in s.claims && s.claims[e.a].job in s.tables.jobs
    requires s.tables.jobs[s.claims[e.a].job].fence > s.claims[e.a].fence
    requires Runs(s, es) && Enabled(After(s, es), e)
    ensures Next(After(s, es), e) == After(s, es)
  {
    ClaimPersists(s, es, e.a);
    HistoryIsKept(s, es, s.claims[e.a].job, e.a);
    assert !Holds(After(s, es).tables, After(s, es).claims[e.a]);
  }

  /** Whenever a job is queued, granted, or dispatched again, every earlier dispatched
    * attempt of it has a recorded outcome: nothing is ever silently dispatched twice. */
  lemma NoSilentRedispatch(s: State, es: seq<Event>, k: JobId, a: AttemptId)
    requires Initial(s) && Runs(s, es)
    requires var t := After(s, es).tables; k in t.jobs && a in t.attempts && t.attempts[a].job == k && t.attempts[a].sent
    ensures var u := After(s, es); var t := u.tables;
            && (t.jobs[k].status == Queued ==> t.attempts[a].status in {Success, Failure})
            && (forall e: Event | e.Lease? && e.k == k && Enabled(u, e) :: t.attempts[a].status in {Success, Failure})
            && (forall e: Event | e.Dispatch? && e.a != a && Enabled(u, e) && u.claims[e.a].job == k && Holds(t, u.claims[e.a]) ::
                  t.attempts[a].status in {Success, Failure})
  {
    InitialFits(s);
    RunKeepsInv(s, es);
    var u := After(s, es);
    var t := u.tables;
    assert AttemptFits(t, a);
    forall e: Event | e.Lease? && e.k == k && Enabled(u, e) ensures t.attempts[a].status in {Success, Failure} {
      SweepKeeps(t, u.clock);
      SweepIsLater(t, u.clock);
      assert AttemptLater(t, Sweep(t, u.clock), a) && JobLater(t, Sweep(t, u.clock), k);
      RunnableHasNoDoubt(Sweep(t, u.clock), k, u.clock, a);
      SweepOnlyDoubts(t, u.clock, a);
    }
    forall e: Event | e.Dispatch? && e.a != a && Enabled(u, e) && u.claims[e.a].job == k && Holds(t, u.claims[e.a])
      ensures t.attempts[a].status in {Success, Failure}
    {
      ClaimBacks(u, e.a);
      if InDoubt(t.attempts[a]) { DoubtIsOwn(t, u.claims[e.a], e.a, a); }
    }
  }

  /** The sweep records no success and no failure. */
  lemma SweepOnlyDoubts(t: Tables, now: Time, a: AttemptId)
    requires a in t.attempts
    ensures Sweep(t, now).attempts[a].status == t.attempts[a].status || Sweep(t, now).attempts[a].status == Unobserved
  {
  }

  /** A retryable failure of a claim that holds its row sends the job back to the queue
    * exactly while one more than the attempts already granted stays below the maximum:
    * with a maximum of n, the attempt numbered n - 1 is the last that can be retried away. */
  lemma RetriedIff(s: State, es: seq<Event>, a: AttemptId, notBefore: Time)
    requires Initial(s) && Runs(s, es) && a in After(s, es).claims && Holds(After(s, es).tables, After(s, es).claims[a])
    ensures var u := After(s, es); var k := u.claims[a].job;
            var j := Next(u, Finish(a, Errored(true), false, notBefore)).tables.jobs[k];
            && j.status in {Queued, Failed}
            && (j.status == Queued <==> u.tables.jobs[k].attempts + 1 < u.tables.jobs[k].maxAttempts)
  {
    InitialFits(s);
    RunKeepsInv(s, es);
    var u := After(s, es);
    ClaimBacks(u, a);
    assert ClaimFits(u, a) && JobFits(u.tables, u.claims[a].job);
  }

  /** The guard in translate is needed: a release after dispatch puts the job back in the queue
    * with its dispatched attempt in doubt, and the next grant can dispatch it again. */
  lemma ReleaseAfterDispatchRepeats(t: Tables, c: Claim, a: AttemptId, now: Time)
    requires TablesFit(t) && Backs(t, c, a) && Holds(t, c) && AttemptOpen(t, a)
    ensures var u := ReleaseJob(t, c, a);
            !t.jobs[c.job].cancelRequested ==>
              (Runnable(u, u.jobs[c.job], now) && InDoubt(u.attempts[a]) <==> c.dispatched)
  {
  }
}
