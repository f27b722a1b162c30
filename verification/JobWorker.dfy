/** The job repository and a worker's claim as objects: rows updated in place, two
  * statements to a transaction, and the runner's choice of the closing update. Every
  * method is proved to be the step of JobQueue with the same name. */
module JobWorker {
  import opened JobQueue
  import opened Results
  import opened RetryBackoff

  class Repository {
    var jobs: Jobs
    var attempts: Attempts

    ghost function View(): Tables
      reads this
    {
      Tables(jobs, attempts)
    }

    constructor ()
      ensures View() == Tables(map[], map[])
    {
      jobs, attempts := map[], map[];
    }

    predicate Held(c: Claim)
      reads this
      ensures Held(c) <==> Holds(View(), c)
    {
      c.job in jobs && jobs[c.job].status == Running && jobs[c.job].owner == Some(c.owner) && jobs[c.job].fence == c.fence
    }

    /** Finishes an attempt that is still open; otherwise the transaction rolls back to `before`. */
    method FinishAttempt(a: AttemptId, outcome: AttemptStatus, before: Jobs) returns (ok: bool)
      modifies this
      ensures ok == AttemptOpen(Tables(jobs, old(attempts)), a)
      ensures ok ==> jobs == old(jobs) && attempts == old(attempts)[a := old(attempts)[a].(status := outcome)]
      ensures !ok ==> jobs == before && attempts == old(attempts)
    {
      if a !in attempts || attempts[a].status != Open {
        jobs := before;
        return false;
      }
      attempts := attempts[a := attempts[a].(status := outcome)];
      return true;
    }

    method CompleteJob(c: Claim, a: AttemptId) returns (ok: bool)
      modifies this
      ensures View() == JobQueue.CompleteJob(old(View()), c, a)
      ensures ok == (Holds(old(View()), c) && AttemptOpen(old(View()), a))
    {
      if !Held(c) { return false; }
      var before, j := jobs, jobs[c.job];
      var status := if j.cancelRequested then Cancelled else Succeeded;
      jobs := jobs[c.job := j.(status := status, owner := None, expiresAt := None, dispatched := None)];
      ok := FinishAttempt(a, Success, before);
    }

    method FailJob(c: Claim, a: AttemptId, retry: bool, notBefore: Time) returns (ok: bool)
      modifies this
      ensures View() == JobQueue.FailJob(old(View()), c, a, retry, notBefore)
      ensures ok == (Holds(old(View()), c) && AttemptOpen(old(View()), a))
    {
      if !Held(c) { return false; }
      var before, j := jobs, jobs[c.job];
      jobs := jobs[c.job := j.(status := if retry then Queued else Failed, owner := None,
                               expiresAt := if retry then Some(notBefore) else None, dispatched := None)];
      ok := FinishAttempt(a, Failure, before);
    }

    method MarkUnknownJob(c: Claim, a: AttemptId) returns (ok: bool)
      modifies this
      ensures View() == JobQueue.MarkUnknownJob(old(View()), c, a)
      ensures ok == (Holds(old(View()), c) && AttemptOpen(old(View()), a))
    {
      if !Held(c) { return false; }
      var before, j := jobs, jobs[c.job];
      jobs := jobs[c.job := j.(status := Unknown, owner := None, expiresAt := None)];
      ok := FinishAttempt(a, Unobserved, before);
    }

    method ReleaseJob(c: Claim, a: AttemptId) returns (ok: bool)
      modifies this
      ensures View() == JobQueue.ReleaseJob(old(View()), c, a)
      ensures ok == Holds(old(View()), c)
    {
      if !Held(c) { return false; }
      jobs := jobs[c.job := jobs[c.job].(status := Queued, owner := None, expiresAt := None, dispatched := None)];
      if a in attempts && attempts[a].status == Open { attempts := attempts[a := attempts[a].(status := Unobserved)]; }
      return true;
    }

    method ExtendLease(c: Claim, until: Time) returns (ok: bool)
      modifies this
      ensures View() == JobQueue.ExtendLease(old(View()), c, until)
      ensures ok == Holds(old(View()), c)
    {
      if !Held(c) { return false; }
      jobs := jobs[c.job := jobs[c.job].(expiresAt := Some(until))];
      return true;
    }

    /** The dispatch point; the attempt remembers that it was passed. */
    method MarkDispatched(c: Claim, a: AttemptId) returns (ok: bool)
      requires a in attempts
      modifies this
      ensures View() == JobQueue.MarkDispatched(old(View()), c, a)
      ensures ok == Holds(old(View()), c)
    {
      if !Held(c) { return false; }
      jobs := jobs[c.job := jobs[c.job].(dispatched := Some(a))];
      attempts := attempts[a := attempts[a].(sent := true)];
      return true;
    }

    /** Sweeps, and then leases any runnable row, if there is one. */
    method Claim(worker: string, now: Time, ttl: nat, a: AttemptId) returns (r: Option<Claim>)
      requires a !in attempts
      modifies this
      ensures r.None? ==> View() == Sweep(old(View()), now) && forall k :: k in jobs ==> !Runnable(View(), jobs[k], now)
      ensures r.Some? ==>
                var t := Sweep(old(View()), now);
                && r.value.job in t.jobs && Runnable(t, t.jobs[r.value.job], now)
                && View() == Grant(t, r.value.job, worker, now + ttl, a)
                && r.value == JobQueue.Claim(r.value.job, worker, jobs[r.value.job].fence, jobs[r.value.job].attempts,
                                             jobs[r.value.job].maxAttempts, false)
    {
      var swept := Sweep(Tables(jobs, attempts), now);
      jobs, attempts := swept.jobs, swept.attempts;
      if forall k :: k in jobs ==> !Runnable(swept, jobs[k], now) { return None; }
      var k :| k in jobs && Runnable(swept, jobs[k], now);
      var granted := Grant(swept, k, worker, now + ttl, a);
      jobs, attempts := granted.jobs, granted.attempts;
      var j := jobs[k];
      return Some(JobQueue.Claim(k, worker, j.fence, j.attempts, j.maxAttempts, false));
    }
  }

  /** What a worker holds while it runs one attempt. */
  class WorkerClaim {
    const repo: Repository
    const attempt: AttemptId
    const job: JobId
    const owner: string
    const fence: nat
    const number: nat
    const maxAttempts: nat
    var dispatched: bool
    var expiresAt: Time

    constructor (repo: Repository, c: Claim, attempt: AttemptId, expiresAt: Time)
      requires !c.dispatched
      ensures this.repo == repo && this.attempt == attempt && Value() == c
    {
      this.repo, this.attempt, this.expiresAt := repo, attempt, expiresAt;
      job, owner, fence, number, maxAttempts, dispatched := c.job, c.owner, c.fence, c.number, c.maxAttempts, false;
    }

    function Value(): Claim
      reads this
    {
      JobQueue.Claim(job, owner, fence, number, maxAttempts, dispatched)
    }

    method Heartbeat(until: Time) returns (ok: bool)
      modifies this`expiresAt, repo
      ensures repo.View() == JobQueue.ExtendLease(old(repo.View()), old(Value()), until)
      ensures ok == Holds(old(repo.View()), old(Value())) && expiresAt == if ok then until else old(expiresAt)
    {
      ok := repo.ExtendLease(Value(), until);
      if ok { expiresAt := until; }
    }

    /** The row first, the worker's own flag after. */
    method MarkDispatched() returns (ok: bool)
      requires attempt in repo.attempts
      modifies this`dispatched, repo
      ensures repo.View() == JobQueue.MarkDispatched(old(repo.View()), old(Value()), attempt)
      ensures Value() == if Holds(old(repo.View()), old(Value())) then old(Value()).(dispatched := true) else old(Value())
    {
      ok := repo.MarkDispatched(Value(), attempt);
      if ok { dispatched := true; }
    }

    /** A fenced read of the owner's cancellation; nothing if the row is no longer held. */
    method CancelRequested() returns (r: Option<bool>)
      ensures r == if Holds(repo.View(), Value()) then Some(repo.jobs[job].cancelRequested) else None
    {
      if !repo.Held(Value()) { return None; }
      return Some(repo.jobs[job].cancelRequested);
    }

    /** Whether the probe before a closing update finds a cancellation. */
    ghost predicate CancelSeen(probeFails: bool)
      reads this, repo
    {
      !probeFails && Holds(repo.View(), Value()) && repo.jobs[job].cancelRequested
    }

    method Fail(retryable: bool, base: Duration, now: Time) returns (ghost notBefore: Time)
      requires base > 0
      modifies repo
      ensures repo.View() == JobQueue.FailJob(old(repo.View()), Value(), attempt, retryable && number + 1 < maxAttempts, notBefore)
      ensures number > 0 && base < 0x4000_0000_0000_0000 ==>
                notBefore == now + if Backoff(base, number) < CAP then Backoff(base, number) else CAP
    {
      var retry := retryable && number + 1 < maxAttempts;
      var delay := RetryDelay(base, number);
      notBefore := now + delay;
      var _ := repo.FailJob(Value(), attempt, retry, now + delay);
    }

    /** The closing update for the way the handler returned. */
    method Translate(o: Outcome, probeFails: bool, base: Duration, now: Time) returns (ghost notBefore: Time)
      requires base > 0
      modifies repo
      ensures repo.View() == End(old(repo.View()), Value(), attempt,
                                 JobQueue.Translate(Value(), o, old(CancelSeen(probeFails))), notBefore)
    {
      notBefore := now;
      match o {
        case Returned =>
          var _ := repo.CompleteJob(Value(), attempt);
        case ContextEnded =>
          var wanted := CancelRequested();
          if !probeFails && wanted == Some(true) {
            var _ := repo.CompleteJob(Value(), attempt);
            return;
          }
          if dispatched {
            var _ := repo.MarkUnknownJob(Value(), attempt);
            return;
          }
          var _ := repo.ReleaseJob(Value(), attempt);
        case Errored(retryable) =>
          notBefore := Fail(retryable, base, now);
      }
    }
  }
}
