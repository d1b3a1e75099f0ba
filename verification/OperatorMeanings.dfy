/** What resolving an intervention and recovering a job do to the tables, field by field, and exactly when. */
module OperatorMeanings {
  import opened Prelude
  import opened WorkerJobs
  import opened Platform
  import opened JobSteps
  import opened JobInvariants
  import opened JobProofs
  import opened HolderProofs
  import opened HolderMeanings
  import opened SchedulerProofs
  import opened RecoveryOutcomes
  import Commands

  // ----- resolve an intervention -----

  /** An open intervention; to requeue, in time, with attempts left, and a doubtful outcome only if it was confirmed. */
  predicate ResolutionAccepted(db: Db, j: JobId, i: nat, requeue: bool, confirmed: bool, now: Time) {
    && j in db.rows && i < |db.rows[j].interventions| && db.rows[j].interventions[i].status.Open?
    && var job := db.rows[j].job;
    (requeue ==>
       && !(job.spec.deadline.Some? && job.spec.deadline.value <= now) && job.attemptCount < job.spec.maxAttempts
       && (job.retrySafety.SafeToRetry? || confirmed))
  }

  /** Requeued: at once, without error, authorised exactly if it needed the confirmation.  Closed: failed for good. */
  predicate RowsResolvedWith(r: JobRows, next: JobRows, i: nat, requeue: bool, now: Time) {
    && next.attempts == r.attempts && next.cancels == r.cancels
    && |next.interventions| == |r.interventions| && i < |r.interventions|
    && (forall x :: 0 <= x < |r.interventions| && x != i ==> next.interventions[x] == r.interventions[x])
    && next.interventions[i] == Intervention(r.interventions[i].kind, r.interventions[i].worker, Resolved)
    && next.job == if requeue then r.job.(status := JobStatus.Queued, scheduledAt := now, error := None,
                                          retryAuthorized := r.job.retrySafety.ReconciliationRequired?)
                   else r.job.(status := JobStatus.FailedFinal,
                               error := if r.job.error.None? then Some(InterventionClosed) else r.job.error)
  }

  predicate ResolvedWith(db: Db, after: Db, j: JobId, i: nat, requeue: bool, now: Time) {
    && OtherJobsStay(db, after, j) && RowsResolvedWith(db.rows[j], after.rows[j], i, requeue, now)
    && after.preemptions == db.preemptions && after.leases == db.leases
    && if requeue then CommandParked(db, after, db.rows[j].job.spec, Commands.CommandStatus.WaitingExecution)
       else CommandClosed(db, after, db.rows[j].job.spec, Commands.CommandStatus.FailedFinal, None, after.rows[j].job.error, now)
  }

  lemma ResolvedRowsMean(r: JobRows, i: nat, requeue: bool, confirmed: bool, now: Time)
    requires RowsOk(r, now)
    ensures var n := ResolvedRows(r, i, requeue, confirmed, now);
            && (n.Success? <==>
                && i < |r.interventions| && r.interventions[i].status.Open?
                && (requeue ==>
                      && !(r.job.spec.deadline.Some? && r.job.spec.deadline.value <= now) && r.job.attemptCount < r.job.spec.maxAttempts
                      && (r.job.retrySafety.SafeToRetry? || confirmed)))
            && (n.Success? ==> RowsResolvedWith(r, n.value, i, requeue, now))
  {
  }

  /** A job that was claimed before waits for nobody, so ending it drops nothing. */
  lemma StartedDropsNothing(db: Db, ended: Db, j: JobId, now: Time)
    requires Inv(db, now) && j in db.rows && db.rows[j].job.attemptCount >= 1 && ended.preemptions == db.preemptions
    ensures SupersedeForPreemptor(ended, j, now) == ended
  {
    forall k <- db.preemptions | k.preemptor == j ensures !Waits(db.preemptions, k) {
      assert PreemptionOk(db.rows, k, db.preemptions[k], now);
    }
    assert WaitingForPreemptor(db.preemptions, j) == {};
    assert SupersedeAll(db.preemptions, {}, now) == db.preemptions;
    assert SupersedeForPreemptor(ended, j, now).rows == ended.rows;
  }

  lemma ResolutionIsAccepted(db: Db, j: JobId, i: nat, requeue: bool, confirmed: bool, now: Time)
    requires Inv(db, now)
    ensures ResolveIntervention(db, j, i, requeue, confirmed, now).Success?
            <==> ResolutionAccepted(db, j, i, requeue, confirmed, now)
  {
    ResolveInterventionKeeps(db, j, i, requeue, confirmed, now);
    if j in db.rows {
      RowOf(db, j, now);
      ResolvedRowsMean(db.rows[j], i, requeue, confirmed, now);
    }
  }

  /** A resolution is accepted exactly then, and does exactly that. */
  lemma ResolveMeans(db: Db, j: JobId, i: nat, requeue: bool, confirmed: bool, now: Time)
    requires Inv(db, now)
    ensures match ResolveIntervention(db, j, i, requeue, confirmed, now)
            case Failure(_) => !ResolutionAccepted(db, j, i, requeue, confirmed, now)
            case Success(after) =>
              ResolutionAccepted(db, j, i, requeue, confirmed, now) && ResolvedWith(db, after, j, i, requeue, now)
  {
    ResolutionIsAccepted(db, j, i, requeue, confirmed, now);
    if ResolveIntervention(db, j, i, requeue, confirmed, now).Success? {
      RowOf(db, j, now);
      var r := db.rows[j];
      ResolvedRowsMean(r, i, requeue, confirmed, now);
      var next := ResolvedRows(r, i, requeue, confirmed, now).value;
      var stored := db.(rows := db.rows[j := next]);
      assert InStep(r.job, db.commands);
      if requeue {
        ShiftMeans(db, stored, r.job.spec, Commands.CommandStatus.WaitingIntervention, Commands.CommandStatus.WaitingExecution, now);
      } else {
        FinalizeMeans(db, stored, j, Commands.CommandStatus.FailedFinal, None, next.job.error, now);
        var ended := FinalizeCommand(stored, r.job.spec, Commands.CommandStatus.FailedFinal, now, None, next.job.error).value;
        StartedDropsNothing(db, ended, j, now);
      }
      ResolutionAssembles(db, ResolveIntervention(db, j, i, requeue, confirmed, now).value, j, next, i, requeue, now);
    }
  }

  lemma ResolutionAssembles(db: Db, after: Db, j: JobId, next: JobRows, i: nat, requeue: bool, now: Time)
    requires j in db.rows && after == db.(rows := db.rows[j := next], commands := after.commands, results := after.results)
    requires RowsResolvedWith(db.rows[j], next, i, requeue, now)
    requires if requeue then CommandParked(db, after, db.rows[j].job.spec, Commands.CommandStatus.WaitingExecution)
             else CommandClosed(db, after, db.rows[j].job.spec, Commands.CommandStatus.FailedFinal, None, next.job.error, now)
    ensures ResolvedWith(db, after, j, i, requeue, now)
  {
  }

  // ----- recover -----

  /** What recovery makes of a job: expired, out of attempts, or handed to an operator, each with its own code. */
  predicate JobRecoveredAs(job: Job, next: Job, now: Time) {
    var gone := job.(lease := None, generation := None);
    next == if job.spec.deadline.Some? && job.spec.deadline.value <= now then
              gone.(status := JobStatus.Expired, error := Some(JobDeadlineExpired))
            else if job.attemptCount >= job.spec.maxAttempts then
              gone.(status := JobStatus.FailedFinal, error := Some(AttemptsExhausted))
            else gone.(status := JobStatus.WaitingIntervention, error := Some(AmbiguousOutcome))
  }

  /** The attempt that was running, if any, ended with the job, for the job's reason. */
  predicate AttemptRecoveredAs(r: JobRows, next: JobRows, now: Time) {
    if r.job.status.Running?
    then LastAttemptEnded(r, next, if next.job.status.WaitingIntervention? then AttemptWaitingIntervention else AttemptFailedFinal,
                          next.job.error, now)
    else next.attempts == r.attempts
  }

  /** An unknown outcome opens an intervention for the worker that had the lease; an expiry cancels the open one. */
  predicate InterventionRecoveredAs(r: JobRows, next: JobRows) {
    if next.job.status.WaitingIntervention? then
      r.job.lease.Some? && InterventionOpened(r, next, AmbiguousOutcomeSeen, Some(r.job.lease.value.worker))
    else if r.job.status.WaitingIntervention? then
      && |next.interventions| == |r.interventions| > 0
      && (forall x :: 0 <= x < |r.interventions| - 1 ==> next.interventions[x] == r.interventions[x])
      && var last := r.interventions[|r.interventions| - 1];
      next.interventions[|r.interventions| - 1] == Intervention(last.kind, last.worker, InterventionCancelled)
    else next.interventions == r.interventions
  }

  predicate RowsRecoveredAs(r: JobRows, next: JobRows, now: Time) {
    && JobRecoveredAs(r.job, next.job, now) && AttemptRecoveredAs(r, next, now) && InterventionRecoveredAs(r, next)
    && RequestsLapsed(r, next, now)
  }

  lemma RecoveredRowsMean(r: JobRows, job: Job, status: AttemptStatus, code: Code, now: Time)
    requires RowsOk(r, now) && !status.AttemptRunning?
    ensures var n := RecoveredRows(r, job, status, code, now);
            && n.job == job && n.interventions == r.interventions && RequestsLapsed(r, n, now)
            && if r.job.status.Running? then LastAttemptEnded(r, n, status, Some(code), now) else n.attempts == r.attempts
  {
    RunningAttemptIsLast(r);
    PendingCancelIsLast(r);
  }

  lemma ExpiredRowsMean(r: JobRows, now: Time)
    requires RowsOk(r, now) && !Ended(r.job.status) && r.job.spec.PastDeadline(now)
    ensures RowsRecoveredAs(r, ExpiredRows(r, now), now)
  {
    RecoveredRowsMean(r, r.job.ExpiredAt(JobDeadlineExpired), AttemptFailedFinal, JobDeadlineExpired, now);
    OpenInterventionIsLast(r);
  }

  lemma ExhaustedRowsMean(r: JobRows, now: Time)
    requires RowsOk(r, now) && Recoverable(r.job, now) && !r.job.spec.PastDeadline(now)
    requires r.job.attemptCount >= r.job.spec.maxAttempts
    ensures RowsRecoveredAs(r, ExhaustedRows(r, now), now)
  {
    RecoveredRowsMean(r, r.job.FinallyFailed(AttemptsExhausted), AttemptFailedFinal, AttemptsExhausted, now);
  }

  lemma SuspendedRowsMean(r: JobRows, now: Time)
    requires RowsOk(r, now) && Recoverable(r.job, now) && !r.job.spec.PastDeadline(now)
    requires r.job.attemptCount < r.job.spec.maxAttempts
    ensures r.job.status.Running? && RowsRecoveredAs(r, SuspendedRows(r, now), now)
  {
    RecoveredRowsMean(r, r.job.Suspended(AmbiguousOutcome), AttemptWaitingIntervention, AmbiguousOutcome, now);
    OpenInterventionIsLast(r);
  }

  /** What the job itself waited for lapses with its end, and a victim that nobody else waits for is asked no more. */
  ghost predicate OwnWaitsLapse(db: Db, after: Db, j: JobId, ended: bool, now: Time) {
    && after.preemptions.Keys == db.preemptions.Keys && after.rows.Keys == db.rows.Keys
    && (forall k <- db.preemptions ::
          after.preemptions[k] == if ended && k.preemptor == j && db.preemptions[k].status.WaitingForQuiescence?
                                  then Preemption(db.preemptions[k].account, PreemptorEnded(now), db.preemptions[k].cancelRequest)
                                  else db.preemptions[k])
    && (forall i <- db.rows :: i != j ==>
          if ended && Waits(db.preemptions, Pair(j, i)) && (forall k :: Waits(after.preemptions, k) ==> k.victim != i)
          then AskedNoMore(db.rows[i], after.rows[i], now) else after.rows[i] == db.rows[i])
  }

  predicate AskedNoMore(r: JobRows, next: JobRows, now: Time) {
    && next.job == r.job && next.attempts == r.attempts && next.interventions == r.interventions
    && |next.cancels| == |r.cancels|
    && forall i :: 0 <= i < |r.cancels| ==>
         next.cancels[i] == if r.cancels[i].status.Pending?
                            then Cancel(r.cancels[i].generation, r.cancels[i].target, r.cancels[i].reason,
                                        Superseded(now, PreemptionNoLongerPending))
                            else r.cancels[i]
  }

  /** An account lease that the job still held ends now. */
  predicate OwnLeaseEnds(db: Db, after: Db, j: JobId, now: Time) {
    && after.leases.Keys == db.leases.Keys
    && forall a <- db.leases ::
         after.leases[a] == if db.leases[a].owner == JobOwner(j) && now < db.leases[a].expires
                            then AccountLease(JobOwner(j), db.leases[a].operation, db.leases[a].generation, now)
                            else db.leases[a]
  }

  ghost predicate RecoveredAs(db: Db, after: Db, j: JobId, now: Time) {
    j in db.rows && j in after.rows && after.workers == db.workers &&
    var r, next := db.rows[j], after.rows[j];
    && RowsRecoveredAs(r, next, now) && OwnLeaseEnds(db, after, j, now)
    && OwnWaitsLapse(db, after, j, !next.job.status.WaitingIntervention?, now)
    && CommandRecovered(db, after, r.job.spec, next.job, now)
  }

  predicate CommandRecovered(db: Db, after: Db, spec: JobSpec, job: Job, now: Time) {
    match job.status
    case Expired => CommandClosed(db, after, spec, Commands.CommandStatus.Expired, None, job.error, now)
    case FailedFinal => CommandClosed(db, after, spec, Commands.CommandStatus.FailedFinal, None, job.error, now)
    case _ => CommandParked(db, after, spec, Commands.CommandStatus.WaitingIntervention)
  }

  lemma ReleaseMeans(db: Db, j: JobId, now: Time)
    requires Inv(db, now) && j in db.rows
    ensures var r := db.rows[j];
            OwnLeaseEnds(db, db.(leases := ReleaseCoordination(db.leases, j, r.job.spec, r.job.generation, now)), j, now)
  {
    var r := db.rows[j];
    RowOf(db, j, now);
    var after := db.(leases := ReleaseCoordination(db.leases, j, r.job.spec, r.job.generation, now));
    forall a <- db.leases
      ensures after.leases[a] == if db.leases[a].owner == JobOwner(j) && now < db.leases[a].expires
                                 then db.leases[a].(expires := now) else db.leases[a]
    {
      assert HolderOk(a, db.leases[a], db.rows, now);
    }
  }

  lemma DroppingMeans(db: Db, ended: Db, j: JobId, next: JobRows, now: Time)
    requires Inv(db, now) && j in db.rows && ended.preemptions == db.preemptions && ended.rows == db.rows[j := next]
    ensures var after := SupersedeForPreemptor(ended, j, now); OwnWaitsLapse(db, after, j, true, now) && after.rows[j] == next
  {
    var after := SupersedeForPreemptor(ended, j, now);
    NoSelfWait(db, j, now);
    forall i <- db.rows | i != j
      ensures if Waits(db.preemptions, Pair(j, i)) && (forall k :: Waits(after.preemptions, k) ==> k.victim != i)
              then AskedNoMore(db.rows[i], after.rows[i], now) else after.rows[i] == db.rows[i]
    {
      RowOf(db, i, now);
      PendingCancelIsLast(db.rows[i]);
      NobodyElse(after.preemptions, i);
      assert Waits(db.preemptions, Pair(j, i)) <==> Pair(j, i) in WaitingForPreemptor(db.preemptions, j);
    }
  }

  lemma NoSelfWait(db: Db, j: JobId, now: Time)
    requires PreemptionsOk(db.rows, db.preemptions, now)
    ensures Pair(j, j) !in db.preemptions
  {
    assert Pair(j, j) in db.preemptions ==> PreemptionOk(db.rows, Pair(j, j), db.preemptions[Pair(j, j)], now);
  }

  lemma NobodyElse(preemptions: map<Pair, Preemption>, i: JobId)
    ensures WaitingForVictim(preemptions, i) == {} <==> forall k :: Waits(preemptions, k) ==> k.victim != i
  {
    if WaitingForVictim(preemptions, i) == {} {
      forall k | Waits(preemptions, k) ensures k.victim != i {
        assert k !in WaitingForVictim(preemptions, i);
      }
    }
  }

  lemma EndRecoveredMeans(db: Db, released: Db, j: JobId, next: JobRows, target: Commands.CommandStatus, code: Code, now: Time)
    requires Inv(db, now) && j in db.rows && released == db.(leases := released.leases)
    requires next.job.spec == db.rows[j].job.spec && (target.Expired? || target.FailedFinal?)
    requires EndRecovered(released, j, next, target, code, now).Success?
    ensures var after := EndRecovered(released, j, next, target, code, now).value;
            && j in after.rows && after.rows[j] == next && after.leases == released.leases && after.workers == db.workers
            && OwnWaitsLapse(db, after, j, true, now)
            && CommandClosed(db, after, next.job.spec, target, None, Some(code), now)
  {
    var stored := released.(rows := released.rows[j := next]);
    var plain := db.(rows := db.rows[j := next]);
    FinalizeIgnoresLeases(plain, stored, next.job.spec, target, Some(code), now);
    FinalizeMeans(db, plain, j, target, None, Some(code), now);
    var ended := FinalizeCommand(stored, next.job.spec, target, now, None, Some(code)).value;
    DroppingMeans(db, ended, j, next, now);
  }

  lemma FinalizeIgnoresLeases(db: Db, other: Db, spec: JobSpec, target: Commands.CommandStatus, error: Option<Code>, now: Time)
    requires other == db.(leases := other.leases)
    ensures var a, b := FinalizeCommand(db, spec, target, now, None, error), FinalizeCommand(other, spec, target, now, None, error);
            && (a.Success? <==> b.Success?) && (b.Success? ==> b.value == a.value.(leases := other.leases))
  {
  }

  lemma ShiftIgnoresLeases(db: Db, other: Db, spec: JobSpec, from: Commands.CommandStatus, target: Commands.CommandStatus, now: Time)
    requires other == db.(leases := other.leases)
    ensures var a, b := ShiftCommand(db, spec, from, target, now), ShiftCommand(other, spec, from, target, now);
            && (a.Success? <==> b.Success?) && (b.Success? ==> b.value == a.value.(leases := other.leases))
  {
  }

  lemma SuspensionMeans(db: Db, released: Db, j: JobId, next: JobRows, now: Time)
    requires Inv(db, now) && j in db.rows && released == db.(leases := released.leases) && db.rows[j].job.status.Running?
    requires next.job.spec == db.rows[j].job.spec
    requires ShiftCommand(released.(rows := released.rows[j := next]), next.job.spec, Commands.CommandStatus.WaitingExecution,
                          Commands.CommandStatus.WaitingIntervention, now).Success?
    ensures var after := ShiftCommand(released.(rows := released.rows[j := next]), next.job.spec,
                                      Commands.CommandStatus.WaitingExecution, Commands.CommandStatus.WaitingIntervention, now).value;
            && j in after.rows && after.rows[j] == next && after.leases == released.leases && after.workers == db.workers
            && OwnWaitsLapse(db, after, j, false, now)
            && CommandParked(db, after, next.job.spec, Commands.CommandStatus.WaitingIntervention)
  {
    var stored := released.(rows := released.rows[j := next]);
    var plain := db.(rows := db.rows[j := next]);
    assert InStep(db.rows[j].job, db.commands);
    ShiftIgnoresLeases(plain, stored, next.job.spec, Commands.CommandStatus.WaitingExecution,
                       Commands.CommandStatus.WaitingIntervention, now);
    ShiftMeans(db, plain, next.job.spec, Commands.CommandStatus.WaitingExecution, Commands.CommandStatus.WaitingIntervention, now);
  }

  /** Recovering one job does exactly that to every table. */
  lemma RecoverOneMeans(db: Db, j: JobId, now: Time)
    requires Inv(db, now) && j in db.rows && Recoverable(db.rows[j].job, now)
    ensures RecoverOne(db, j, now).Success? && RecoveredAs(db, RecoverOne(db, j, now).value, j, now)
  {
    var r := db.rows[j];
    RowOf(db, j, now);
    RecoverOneKeeps(db, j, now);
    ReleaseMeans(db, j, now);
    var released := db.(leases := ReleaseCoordination(db.leases, j, r.job.spec, r.job.generation, now));
    if r.job.spec.PastDeadline(now) {
      ExpiredRowsMean(r, now);
      EndRecoveredMeans(db, released, j, ExpiredRows(r, now), Commands.CommandStatus.Expired, JobDeadlineExpired, now);
      RecoveryAssembles(db, released, RecoverOne(db, j, now).value, j, ExpiredRows(r, now), now);
    } else if r.job.attemptCount >= r.job.spec.maxAttempts {
      ExhaustedRowsMean(r, now);
      EndRecoveredMeans(db, released, j, ExhaustedRows(r, now), Commands.CommandStatus.FailedFinal, AttemptsExhausted, now);
      RecoveryAssembles(db, released, RecoverOne(db, j, now).value, j, ExhaustedRows(r, now), now);
    } else {
      SuspendedRowsMean(r, now);
      SuspensionMeans(db, released, j, SuspendedRows(r, now), now);
      RecoveryAssembles(db, released, RecoverOne(db, j, now).value, j, SuspendedRows(r, now), now);
    }
  }

  lemma RecoveryAssembles(db: Db, released: Db, after: Db, j: JobId, next: JobRows, now: Time)
    requires j in db.rows && j in after.rows && after.rows[j] == next && after.workers == db.workers
    requires OwnLeaseEnds(db, released, j, now) && after.leases == released.leases
    requires RowsRecoveredAs(db.rows[j], next, now)
    requires OwnWaitsLapse(db, after, j, !next.job.status.WaitingIntervention?, now)
    requires CommandRecovered(db, after, db.rows[j].job.spec, next.job, now)
    ensures RecoveredAs(db, after, j, now)
  {
  }

  /** Not over, and past its deadline, out of attempts, or under a lease that ran out on an attempt nobody may repeat. */
  predicate NeedsRecovery(job: Job, now: Time) {
    var late := job.spec.deadline.Some? && job.spec.deadline.value <= now;
    var spent := job.spec.maxAttempts <= job.attemptCount;
    match job.status
    case Queued => late || spent
    case FailedRetryable => late || spent
    case WaitingIntervention => late
    case Running =>
      late || (job.lease.Some? && job.lease.value.expires <= now && (spent || job.retrySafety.ReconciliationRequired?))
    case _ => false
  }

  lemma RecoveryIsNeeded(job: Job, now: Time)
    ensures Recoverable(job, now) <==> NeedsRecovery(job, now)
  {
  }

  /** A recovery pass does that to the jobs of its batch that need it, and leaves every other job as it was. */
  lemma {:induction false} RecoveryTouches(db: Db, batch: seq<JobId>, j: JobId, now: Time)
    requires Inv(db, now) && j in db.rows
    ensures RecoverExpired(db, batch, now).Success?
    ensures var after := RecoverExpired(db, batch, now).value;
            && j in after.rows
            && if j in batch && NeedsRecovery(db.rows[j].job, now) then JobRecoveredAs(db.rows[j].job, after.rows[j].job, now)
               else after.rows[j].job == db.rows[j].job
    decreases |batch|
  {
    RecoveryIsNeeded(db.rows[j].job, now);
    RecoverExpiredKeeps(db, batch, now);
    if !Recoverable(db.rows[j].job, now) {
      RecoveryKeepsSettled(db, batch, j, now);
    } else if batch == [] {
    } else if batch[0] !in db.rows || !Recoverable(db.rows[batch[0]].job, now) {
      RecoveryTouches(db, batch[1..], j, now);
    } else {
      var next := RecoverOne(db, batch[0], now).value;
      RecoverOneKeeps(db, batch[0], now);
      if batch[0] == j {
        RecoverOneMeans(db, j, now);
        RecoveryMeans(db, j, now);
        RecoveryKeepsSettled(next, batch[1..], j, now);
      } else {
        RecoverOneElsewhere(db, batch[0], now, Pair(j, j));
        RecoveryTouches(next, batch[1..], j, now);
      }
    }
  }
}
