/** The durable job queue: rows, attempts, and the fenced updates on them.
  *
  * Each repository function is one transaction. A worker holds a claim, and its
  * updates take effect only while the row is running under the claim's owner
  * and fence token. A worker may act on its claim at any time and any number of
  * times, also long after it lost the lease, and may stop at any point.
  */
module JobQueue {
  import opened Results

  type JobId = string
  type AttemptId = string
  type Time = int

  datatype Status = Queued | Running | Succeeded | Failed | Cancelled | Unknown | Deleted

  datatype Job = Job(
    status: Status,
    fence: nat,
    owner: Option<string>,
    expiresAt: Option<Time>,
    dispatched: Option<AttemptId>,
    attempts: nat,
    maxAttempts: nat,
    cancelRequested: bool)

  datatype AttemptStatus = Open | Success | Failure | Unobserved

  /** `sent` remembers that the attempt was ever marked as dispatched. */
  datatype Attempt = Attempt(job: JobId, fence: nat, status: AttemptStatus, sent: bool)

  /** What a worker holds: the lease, the attempt's number, and its own dispatch flag. */
  datatype Claim = Claim(job: JobId, owner: string, fence: nat, number: nat, maxAttempts: nat, dispatched: bool)

  type Jobs = map<JobId, Job>
  type Attempts = map<AttemptId, Attempt>

  datatype Tables = Tables(jobs: Jobs, attempts: Attempts)

  // ---- Repository transactions ----

  predicate Expired(j: Job, now: Time) {
    j.expiresAt.Some? && j.expiresAt.value < now
  }

  /** The dispatched attempt of the row is still open. */
  predicate DispatchOpen(t: Tables, j: Job) {
    j.dispatched.Some? && j.dispatched.value in t.attempts && t.attempts[j.dispatched.value].status == Open
  }

  predicate Swept(t: Tables, j: Job, now: Time) {
    j.status == Running && Expired(j, now) && DispatchOpen(t, j)
  }

  /** Running jobs that lost their lease after dispatch end as unknown, and so does the attempt. */
  function Sweep(t: Tables, now: Time): Tables {
    Tables(
      map j | j in t.jobs ::
        if Swept(t, t.jobs[j], now) then t.jobs[j].(status := Unknown, owner := None, expiresAt := None) else t.jobs[j],
      map a | a in t.attempts ::
        if exists j :: j in t.jobs && Swept(t, t.jobs[j], now) && t.jobs[j].dispatched == Some(a)
        then t.attempts[a].(status := Unobserved) else t.attempts[a])
  }

  predicate Runnable(t: Tables, j: Job, now: Time) {
    && !j.cancelRequested
    && (|| (j.status == Queued && (j.expiresAt.None? || j.expiresAt.value <= now))
        || (j.status == Running && Expired(j, now) && !DispatchOpen(t, j)))
  }

  /** Leases row `k` to `worker` under the next fence token, closes what was left open, and opens attempt `a`. */
  function Grant(t: Tables, k: JobId, worker: string, expiresAt: Time, a: AttemptId): Tables
    requires k in t.jobs
  {
    var j := t.jobs[k];
    var closed := map b | b in t.attempts ::
      if t.attempts[b].job == k && t.attempts[b].status == Open then t.attempts[b].(status := Unobserved) else t.attempts[b];
    Tables(
      t.jobs[k := Job(Running, j.fence + 1, Some(worker), Some(expiresAt), None, j.attempts + 1, j.maxAttempts, j.cancelRequested)],
      closed[a := Attempt(k, j.fence + 1, Open, false)])
  }

  /** The guard of every worker update. */
  predicate Holds(t: Tables, c: Claim) {
    && c.job in t.jobs && t.jobs[c.job].status == Running
    && t.jobs[c.job].owner == Some(c.owner) && t.jobs[c.job].fence == c.fence
  }

  predicate AttemptOpen(t: Tables, a: AttemptId) {
    a in t.attempts && t.attempts[a].status == Open
  }

  /** Ends the run of a job: the row's new status and the attempt's outcome. A row that is
    * no longer held leaves everything as it was; so does an attempt already finished. */
  function Close(t: Tables, c: Claim, a: AttemptId, status: Status, expiresAt: Option<Time>, keepDispatched: bool, outcome: AttemptStatus): Tables {
    if !Holds(t, c) || !AttemptOpen(t, a) then t
    else
      var j := t.jobs[c.job];
      Tables(
        t.jobs[c.job := j.(status := status, owner := None, expiresAt := expiresAt,
                           dispatched := if keepDispatched then j.dispatched else None)],
        t.attempts[a := t.attempts[a].(status := outcome)])
  }

  function CompleteJob(t: Tables, c: Claim, a: AttemptId): Tables {
    var status := if c.job in t.jobs && t.jobs[c.job].cancelRequested then Cancelled else Succeeded;
    Close(t, c, a, status, None, false, Success)
  }

  function FailJob(t: Tables, c: Claim, a: AttemptId, retry: bool, notBefore: Time): Tables {
    if retry then Close(t, c, a, Queued, Some(notBefore), false, Failure)
    else Close(t, c, a, Failed, None, false, Failure)
  }

  function MarkUnknownJob(t: Tables, c: Claim, a: AttemptId): Tables {
    Close(t, c, a, Unknown, None, true, Unobserved)
  }

  /** Unlike the other endings, a release does not need the attempt to be open. */
  function ReleaseJob(t: Tables, c: Claim, a: AttemptId): Tables {
    if !Holds(t, c) then t
    else
      Tables(
        t.jobs[c.job := t.jobs[c.job].(status := Queued, owner := None, expiresAt := None, dispatched := None)],
        if AttemptOpen(t, a) then t.attempts[a := t.attempts[a].(status := Unobserved)] else t.attempts)
  }

  function ExtendLease(t: Tables, c: Claim, expiresAt: Time): Tables {
    if !Holds(t, c) then t else t.(jobs := t.jobs[c.job := t.jobs[c.job].(expiresAt := Some(expiresAt))])
  }

  function MarkDispatched(t: Tables, c: Claim, a: AttemptId): Tables {
    if !Holds(t, c) || a !in t.attempts then t
    else Tables(t.jobs[c.job := t.jobs[c.job].(dispatched := Some(a))], t.attempts[a := t.attempts[a].(sent := true)])
  }

  function CancelJob(t: Tables, k: JobId): Tables {
    if k !in t.jobs || t.jobs[k].status !in {Queued, Running} then t
    else
      var j := t.jobs[k];
      t.(jobs := t.jobs[k := j.(cancelRequested := true, status := if j.status == Queued then Cancelled else j.status)])
  }

  function DeleteJob(t: Tables, k: JobId): Tables {
    if k !in t.jobs then t else t.(jobs := t.jobs[k := t.jobs[k].(status := Deleted)])
  }

  // ---- The worker ----

  /** How a handler returns: with a result, with its context ended, or with an error. */
  datatype Outcome = Returned | ContextEnded | Errored(retryable: bool)

  datatype Ending = Complete | EndUnknown | Release | Fail(retry: bool)

  /** Runner.translate: `cancelSeen` is a successful fenced probe that found a cancellation. */
  function Translate(c: Claim, o: Outcome, cancelSeen: bool): Ending {
    match o
    case Returned => Complete
    case ContextEnded => if cancelSeen then Complete else if c.dispatched then EndUnknown else Release
    case Errored(retryable) => Fail(retryable && c.number + 1 < c.maxAttempts)
  }

  function End(t: Tables, c: Claim, a: AttemptId, e: Ending, notBefore: Time): Tables {
    match e
    case Complete => CompleteJob(t, c, a)
    case EndUnknown => MarkUnknownJob(t, c, a)
    case Release => ReleaseJob(t, c, a)
    case Fail(retry) => FailJob(t, c, a, retry, notBefore)
  }

  // ---- The whole queue ----

  datatype State = State(clock: Time, tables: Tables, claims: map<AttemptId, Claim>)

  datatype Event =
    | Tick(to: Time)
    | Enqueue(k: JobId, maxAttempts: nat)
    | Poll
    | Lease(k: JobId, worker: string, expiresAt: Time, a: AttemptId)
    | Heartbeat(a: AttemptId, until: Time)
    | Dispatch(a: AttemptId)
    | Finish(a: AttemptId, outcome: Outcome, cancelSeen: bool, notBefore: Time)
    | NeverStarted(a: AttemptId)
    | Cancel(k: JobId)
    | Delete(k: JobId)

  predicate Enabled(s: State, e: Event) {
    match e
    case Tick(to) => s.clock <= to
    case Enqueue(k, _) => k !in s.tables.jobs
    case Poll => true
    case Lease(k, _, _, a) =>
      var t := Sweep(s.tables, s.clock);
      k in t.jobs && Runnable(t, t.jobs[k], s.clock) && a !in t.attempts && a !in s.claims
    case Heartbeat(a, _) => a in s.claims
    case Dispatch(a) => a in s.claims
    // A cancellation that was seen is still there: it is never taken back.
    case Finish(a, _, cancelSeen, _) =>
      a in s.claims && (cancelSeen ==> s.claims[a].job in s.tables.jobs && s.tables.jobs[s.claims[a].job].cancelRequested)
    // The runner was shut down before the handler was called.
    case NeverStarted(a) => a in s.claims && !s.claims[a].dispatched
    case Cancel(k) => true
    case Delete(k) => true
  }

  function Next(s: State, e: Event): State
    requires Enabled(s, e)
  {
    match e
    case Tick(to) => s.(clock := to)
    case Enqueue(k, max) =>
      s.(tables := s.tables.(jobs := s.tables.jobs[k := Job(Queued, 0, None, None, None, 0, max, false)]))
    case Poll => s.(tables := Sweep(s.tables, s.clock))
    case Lease(k, worker, expiresAt, a) =>
      var t := Grant(Sweep(s.tables, s.clock), k, worker, expiresAt, a);
      s.(tables := t, claims := s.claims[a := Claim(k, worker, t.jobs[k].fence, t.jobs[k].attempts, t.jobs[k].maxAttempts, false)])
    case Heartbeat(a, until) => s.(tables := ExtendLease(s.tables, s.claims[a], until))
    case Dispatch(a) =>
      var c := s.claims[a];
      s.(tables := MarkDispatched(s.tables, c, a),
         claims := if Holds(s.tables, c) then s.claims[a := c.(dispatched := true)] else s.claims)
    case Finish(a, outcome, cancelSeen, notBefore) =>
      s.(tables := End(s.tables, s.claims[a], a, Translate(s.claims[a], outcome, cancelSeen), notBefore))
    case NeverStarted(a) => s.(tables := ReleaseJob(s.tables, s.claims[a], a))
    case Cancel(k) => s.(tables := CancelJob(s.tables, k))
    case Delete(k) => s.(tables := DeleteJob(s.tables, k))
  }

  ghost predicate Runs(s: State, es: seq<Event>)
    decreases |es|
  {
    es == [] || (Enabled(s, es[0]) && Runs(Next(s, es[0]), es[1..]))
  }

  ghost function After(s: State, es: seq<Event>): State
    requires Runs(s, es)
    decreases |es|
  {
    if es == [] then s else After(Next(s, es[0]), es[1..])
  }

  predicate Initial(s: State) {
    s.tables == Tables(map[], map[]) && s.claims == map[]
  }
}
