/** WorkerJob rows and their guarded state machine (domain/worker_jobs.py). */
module WorkerJobs {
  import opened Prelude

  type JobId = nat
  type WorkerId = nat
  type AccountId = nat
  type Token = nat

  /** A Command id: `activity:<uuid>` for a materialised activity, any other text otherwise. */
  datatype CommandId = ForActivity(activity: nat) | Plain(name: string)

  datatype JobStatus =
    | Queued | Running | WaitingIntervention | Succeeded | FailedRetryable | FailedFinal | Cancelled | Expired

  predicate Ended(s: JobStatus) { s.Succeeded? || s.FailedFinal? || s.Cancelled? || s.Expired? }

  datatype RetrySafety = SafeToRetry | ReconciliationRequired
  datatype OperationClass = Read | Mutation | Session | Background
  datatype Lease = Lease(worker: WorkerId, token: Token, expires: Time)
  datatype Checkpoint = Checkpoint(phase: Option<string>, body: Document)

  /** The part of a WorkerJob that is fixed when it is enqueued. */
  datatype JobSpec = JobSpec(
    command: Option<CommandId>,
    account: Option<AccountId>,
    assignee: Option<WorkerId>,
    affinity: bool,
    capability: string,
    version: int,
    operation: OperationClass,
    priority: int,
    preemptible: bool,
    deadline: Option<Time>,
    maxAttempts: int,
    createdAt: Time)
  {
    /** A MUTATION, SESSION or BACKGROUND job of an account must hold that account's execution lease. */
    predicate Exclusive() { account.Some? && !operation.Read? }
    predicate PastDeadline(now: Time) { deadline.Some? && deadline.value <= now }
  }

  datatype Job = Job(
    spec: JobSpec,
    status: JobStatus,
    scheduledAt: Time,
    attemptCount: int,
    retrySafety: RetrySafety,
    retryAuthorized: bool,
    lease: Option<Lease>,
    generation: Option<int>,
    checkpoint: Option<Checkpoint>,
    result: Option<Document>,
    error: Option<Code>)
  {
    predicate OwnsLease(worker: WorkerId, token: Token, now: Time) {
      status.Running? && lease.Some? && lease.value.worker == worker && lease.value.token == token
      && lease.value.expires > now
    }

    /** The CHECK constraints of the worker_jobs table. */
    predicate Storable() {
      && spec.maxAttempts > 0 && 0 <= attemptCount <= spec.maxAttempts
      && spec.version > 0
      && (spec.deadline.Some? ==> scheduledAt < spec.deadline.value)
      && (status.Running? <==> lease.Some?)
      && (spec.affinity ==> spec.account.Some? && spec.assignee.Some?)
      && (generation.Some? <==> status.Running? && spec.Exclusive())
    }

    /** `claim`: a new lease, or `None` where the source raises. */
    function Claimed(worker: WorkerId, now: Time, expires: Time, token: Token, fence: Option<int>): Option<Job> {
      if !(status.Queued? || status.FailedRetryable? || status.Running?) then None
      else if scheduledAt > now || spec.PastDeadline(now) || attemptCount >= spec.maxAttempts then None
      else if spec.assignee.Some? && spec.assignee.value != worker then None
      else if status.Running? && (lease.None? || lease.value.expires > now) then None
      else if status.Running? && retrySafety.ReconciliationRequired? && !retryAuthorized then None
      else if expires <= now then None
      else if spec.Exclusive() && (fence.None? || fence.value < 1) then None
      else if !spec.Exclusive() && fence.Some? then None
      else
        Some(this.(status := JobStatus.Running, lease := Some(Lease(worker, token, expires)), generation := fence,
             attemptCount := attemptCount + 1, retryAuthorized := false, error := None))
    }

    function Released(): Job { this.(lease := None, generation := None) }

    function Renewed(expires: Time): Job
      requires lease.Some?
    { this.(lease := Some(lease.value.(expires := expires))) }

    function Completed(document: Document): Job {
      this.(status := JobStatus.Succeeded, result := Some(document)).Released()
    }

    function CancelledBy(reason: Code): Job {
      this.(status := JobStatus.Cancelled, error := Some(reason)).Released()
    }

    /** `fail`: to an operator, back to the queue, or to the end. */
    function Failed(code: Code, retryable: bool, ambiguous: bool, retryAt: Time): Job {
      var failed := this.(error := Some(code)).Released();
      if ambiguous then
        failed.(status := JobStatus.WaitingIntervention, retrySafety := ReconciliationRequired)
      else if retrySafety.ReconciliationRequired? && retryable then
        failed.(status := JobStatus.WaitingIntervention)
      else if retryable && attemptCount < spec.maxAttempts then
        failed.(status := JobStatus.FailedRetryable, scheduledAt := retryAt)
      else
        failed.(status := JobStatus.FailedFinal)
    }

    function Intervened(): Job { this.(status := JobStatus.WaitingIntervention).Released() }

    function Suspended(code: Code): Job { this.(error := Some(code)).Intervened() }

    /** `resolve_intervention`: close the job, requeue it, or `None` where the source raises. */
    function Resolved(now: Time, requeue: bool, confirmed: bool): Option<Job> {
      if !status.WaitingIntervention? then None
      else if !requeue then
        Some(this.(status := JobStatus.FailedFinal, error := if error.Some? then error else Some(InterventionClosed)))
      else if spec.PastDeadline(now) || attemptCount >= spec.maxAttempts then None
      else if retrySafety.ReconciliationRequired? && !confirmed then None
      else
        Some(this.(status := JobStatus.Queued, scheduledAt := now, error := None,
             retryAuthorized := retrySafety.ReconciliationRequired?))
    }

    function ExpiredAt(code: Code): Job { this.(status := JobStatus.Expired, error := Some(code)).Released() }

    function FinallyFailed(code: Code): Job { this.(status := JobStatus.FailedFinal, error := Some(code)).Released() }
  }

  /**
   * "A job is scheduled before its deadline" is not kept by `fail`: it breaks exactly when the failure takes
   * the retry branch and the retry time reaches the deadline.  The table's CHECK then refuses the write.
   */
  lemma FailKeepsScheduleBeforeDeadline(job: Job, code: Code, retryable: bool, ambiguous: bool, retryAt: Time)
    requires job.Storable() && job.status.Running?
    ensures job.Failed(code, retryable, ambiguous, retryAt).Storable()
            <==> !(retryable && !ambiguous && job.retrySafety.SafeToRetry? && job.attemptCount < job.spec.maxAttempts
                   && job.spec.PastDeadline(retryAt))
  {
    var next := job.Failed(code, retryable, ambiguous, retryAt);
    assert next.spec == job.spec && next.attemptCount == job.attemptCount && next.lease.None? && next.generation.None?;
  }

  lemma FailCanMissDeadline()
    ensures exists job: Job, retryAt: Time ::
              job.Storable() && job.status.Running? && !job.Failed(Reported("TIMEOUT"), true, false, retryAt).Storable()
  {
    var spec := JobSpec(None, None, None, false, "threads.browser.feed.browse", 1, Read, 0, true, Some(10), 3, 0);
    var job := Job(spec, JobStatus.Running, 0, 1, SafeToRetry, false, Some(Lease(0, 0, 9)), None, None, None, None);
    assert job.Storable() && job.status.Running?;
    assert job.Failed(Reported("TIMEOUT"), true, false, 10).scheduledAt == 10;
    assert !job.Failed(Reported("TIMEOUT"), true, false, 10).Storable();
  }

  /** The mutable WorkerJob object that a service method loads from its row and writes back. */
  class WorkerJob {
    const spec: JobSpec
    var status: JobStatus
    var scheduledAt: Time
    var attemptCount: int
    var retrySafety: RetrySafety
    var retryAuthorized: bool
    var lease: Option<Lease>
    var generation: Option<int>
    var checkpoint: Option<Checkpoint>
    var result: Option<Document>
    var error: Option<Code>

    function Row(): Job
      reads this
    {
      Job(spec, status, scheduledAt, attemptCount, retrySafety, retryAuthorized, lease, generation, checkpoint,
          result, error)
    }

    constructor Load(row: Job)
      ensures Row() == row
    {
      spec := row.spec;
      status := row.status;
      scheduledAt := row.scheduledAt;
      attemptCount := row.attemptCount;
      retrySafety := row.retrySafety;
      retryAuthorized := row.retryAuthorized;
      lease := row.lease;
      generation := row.generation;
      checkpoint := row.checkpoint;
      result := row.result;
      error := row.error;
    }

    method ClearLease()
      modifies this
      ensures Row() == old(Row()).Released()
    {
      lease := None;
      generation := None;
    }

    method Claim(worker: WorkerId, now: Time, expires: Time, token: Token, fence: Option<int>) returns (ok: bool)
      modifies this
      ensures ok <==> old(Row()).Claimed(worker, now, expires, token, fence).Some?
      ensures Row() == if ok then old(Row()).Claimed(worker, now, expires, token, fence).value else old(Row())
      ensures ok <==>
                && (|| old(status) in {JobStatus.Queued, JobStatus.FailedRetryable}
                    || (&& old(status).Running? && old(lease).Some? && old(lease).value.expires <= now
                        && (old(retrySafety).SafeToRetry? || old(retryAuthorized))))
                && old(scheduledAt) <= now < expires && (spec.deadline.Some? ==> now < spec.deadline.value)
                && old(attemptCount) < spec.maxAttempts && (spec.assignee == None || spec.assignee == Some(worker))
                && (if spec.account.Some? && !spec.operation.Read? then fence.Some? && fence.value >= 1 else fence.None?)
      ensures ok ==> Row() == Job(spec, JobStatus.Running, old(scheduledAt), old(attemptCount) + 1, old(retrySafety), false,
                                  Some(Lease(worker, token, expires)), fence, old(checkpoint), old(result), None)
    {
      var reclaiming := status.Running?;
      if !(status.Queued? || status.FailedRetryable? || reclaiming) {
        return false;
      }
      if scheduledAt > now || spec.PastDeadline(now) || attemptCount >= spec.maxAttempts {
        return false;
      }
      if spec.assignee.Some? && spec.assignee.value != worker {
        return false;
      }
      if reclaiming {
        if lease.None? || lease.value.expires > now {
          return false;
        }
        if retrySafety.ReconciliationRequired? && !retryAuthorized {
          return false;
        }
      }
      if expires <= now {
        return false;
      }
      if spec.Exclusive() {
        if fence.None? || fence.value < 1 {
          return false;
        }
      } else if fence.Some? {
        return false;
      }
      status := JobStatus.Running;
      lease := Some(Lease(worker, token, expires));
      generation := fence;
      attemptCount := attemptCount + 1;
      retryAuthorized := false;
      error := None;
      ok := true;
    }

    method Renew(worker: WorkerId, token: Token, now: Time, expires: Time) returns (ok: bool)
      modifies this
      ensures ok <==> old(Row()).OwnsLease(worker, token, now)
      ensures Row() == if ok then old(Row()).Renewed(expires) else old(Row())
      ensures ok ==> lease == Some(Lease(worker, token, expires))
    {
      if !Row().OwnsLease(worker, token, now) {
        return false;
      }
      lease := Some(lease.value.(expires := expires));
      ok := true;
    }

    method SaveCheckpoint(worker: WorkerId, token: Token, now: Time, document: Checkpoint) returns (ok: bool)
      modifies this
      ensures ok <==> old(Row()).OwnsLease(worker, token, now)
      ensures Row() == if ok then old(Row()).(checkpoint := Some(document)) else old(Row())
    {
      ok := Row().OwnsLease(worker, token, now);
      if ok {
        checkpoint := Some(document);
      }
    }

    method Complete(worker: WorkerId, token: Token, now: Time, document: Document) returns (ok: bool)
      modifies this
      ensures ok <==> old(Row()).OwnsLease(worker, token, now)
      ensures Row() == if ok then old(Row()).Completed(document) else old(Row())
      ensures ok ==> Row() == Job(spec, JobStatus.Succeeded, old(scheduledAt), old(attemptCount), old(retrySafety),
                                  old(retryAuthorized), None, None, old(checkpoint), Some(document), old(error))
    {
      if !Row().OwnsLease(worker, token, now) {
        return false;
      }
      status := JobStatus.Succeeded;
      result := Some(document);
      ClearLease();
      ok := true;
    }

    method Cancel(worker: WorkerId, token: Token, now: Time, reason: Code) returns (ok: bool)
      modifies this
      ensures ok <==> spec.preemptible && old(Row()).OwnsLease(worker, token, now)
      ensures Row() == if ok then old(Row()).CancelledBy(reason) else old(Row())
      ensures ok ==> Row() == Job(spec, JobStatus.Cancelled, old(scheduledAt), old(attemptCount), old(retrySafety),
                                  old(retryAuthorized), None, None, old(checkpoint), old(result), Some(reason))
    {
      if !spec.preemptible || !Row().OwnsLease(worker, token, now) {
        return false;
      }
      status := JobStatus.Cancelled;
      error := Some(reason);
      ClearLease();
      ok := true;
    }

    method Fail(worker: WorkerId, token: Token, now: Time, code: Code, retryable: bool, ambiguous: bool,
                retryAt: Time)
      returns (ok: bool)
      modifies this
      ensures ok <==> old(Row()).OwnsLease(worker, token, now)
      ensures Row() == if ok then old(Row()).Failed(code, retryable, ambiguous, retryAt) else old(Row())
      ensures ok ==>
                && Row() == Job(spec, status, scheduledAt, old(attemptCount), retrySafety, old(retryAuthorized), None, None,
                                old(checkpoint), old(result), Some(code))
                && (status.WaitingIntervention? <==> ambiguous || (retryable && old(retrySafety).ReconciliationRequired?))
                && (status.FailedRetryable? <==>
                    retryable && !ambiguous && old(retrySafety).SafeToRetry? && old(attemptCount) < spec.maxAttempts)
                && (status.FailedFinal? <==> !status.WaitingIntervention? && !status.FailedRetryable?)
                && scheduledAt == (if status.FailedRetryable? then retryAt else old(scheduledAt))
                && (retrySafety.ReconciliationRequired? <==> ambiguous || old(retrySafety).ReconciliationRequired?)
    {
      if !Row().OwnsLease(worker, token, now) {
        return false;
      }
      error := Some(code);
      if ambiguous || (retrySafety.ReconciliationRequired? && retryable) {
        if ambiguous {
          retrySafety := ReconciliationRequired;
        }
        status := JobStatus.WaitingIntervention;
      } else if retryable && attemptCount < spec.maxAttempts {
        status := JobStatus.FailedRetryable;
        scheduledAt := retryAt;
      } else {
        status := JobStatus.FailedFinal;
      }
      ClearLease();
      ok := true;
    }

    method RequireIntervention(worker: WorkerId, token: Token, now: Time) returns (ok: bool)
      modifies this
      ensures ok <==> old(Row()).OwnsLease(worker, token, now)
      ensures Row() == if ok then old(Row()).Intervened() else old(Row())
      ensures ok ==> Row() == Job(spec, JobStatus.WaitingIntervention, old(scheduledAt), old(attemptCount), old(retrySafety),
                                  old(retryAuthorized), None, None, old(checkpoint), old(result), old(error))
    {
      if !Row().OwnsLease(worker, token, now) {
        return false;
      }
      status := JobStatus.WaitingIntervention;
      ClearLease();
      ok := true;
    }

    method ResolveIntervention(now: Time, requeue: bool, confirmed: bool) returns (ok: bool)
      modifies this
      ensures ok <==> old(Row()).Resolved(now, requeue, confirmed).Some?
      ensures Row() == if ok then old(Row()).Resolved(now, requeue, confirmed).value else old(Row())
      ensures ok <==>
                && old(status).WaitingIntervention?
                && (requeue ==>
                      && (spec.deadline.Some? ==> now < spec.deadline.value) && old(attemptCount) < spec.maxAttempts
                      && (old(retrySafety).SafeToRetry? || confirmed))
      ensures ok && requeue ==>
                Row() == Job(spec, JobStatus.Queued, now, old(attemptCount), old(retrySafety),
                             old(retrySafety).ReconciliationRequired?, old(lease), old(generation), old(checkpoint), old(result), None)
      ensures ok && !requeue ==>
                Row() == Job(spec, JobStatus.FailedFinal, old(scheduledAt), old(attemptCount), old(retrySafety),
                             old(retryAuthorized), old(lease), old(generation), old(checkpoint), old(result),
                             Some(if old(error).Some? then old(error).value else InterventionClosed))
    {
      if !status.WaitingIntervention? {
        return false;
      }
      if !requeue {
        status := JobStatus.FailedFinal;
        error := if error.Some? then error else Some(InterventionClosed);
      } else {
        if spec.PastDeadline(now) || attemptCount >= spec.maxAttempts {
          return false;
        }
        if retrySafety.ReconciliationRequired? && !confirmed {
          return false;
        }
        retryAuthorized := retrySafety.ReconciliationRequired?;
        status := JobStatus.Queued;
        scheduledAt := now;
        error := None;
      }
      ok := true;
    }

    method Suspend(code: Code) returns (ok: bool)
      modifies this
      ensures ok <==> old(Row()).status.Running?
      ensures Row() == if ok then old(Row()).Suspended(code) else old(Row())
      ensures ok ==> Row() == Job(spec, JobStatus.WaitingIntervention, old(scheduledAt), old(attemptCount), old(retrySafety),
                                  old(retryAuthorized), None, None, old(checkpoint), old(result), Some(code))
    {
      if !status.Running? {
        return false;
      }
      status := JobStatus.WaitingIntervention;
      error := Some(code);
      ClearLease();
      ok := true;
    }

    method Expire(code: Code)
      modifies this
      ensures Row() == old(Row()).ExpiredAt(code)
      ensures Row() == Job(spec, JobStatus.Expired, old(scheduledAt), old(attemptCount), old(retrySafety), old(retryAuthorized),
                           None, None, old(checkpoint), old(result), Some(code))
    {
      status := JobStatus.Expired;
      error := Some(code);
      ClearLease();
    }

    method FinalizeFailure(code: Code)
      modifies this
      ensures Row() == old(Row()).FinallyFailed(code)
      ensures Row() == Job(spec, JobStatus.FailedFinal, old(scheduledAt), old(attemptCount), old(retrySafety),
                           old(retryAuthorized), None, None, old(checkpoint), old(result), Some(code))
    {
      status := JobStatus.FailedFinal;
      error := Some(code);
      ClearLease();
    }
  }
}
