/** What recovery does to the jobs of a batch and to those who wait for them. */
module RecoveryOutcomes {
  import opened Prelude
  import opened WorkerJobs
  import opened Platform
  import opened JobSteps
  import opened JobInvariants
  import opened HolderProofs
  import opened JobCalls
  import opened JobHistory
  import SchedulerProofs
  import Commands

  // ----- what becomes of a job -----

  /** What recovery makes of a job, by the first reason that applies. */
  lemma RecoveryMeans(db: Db, j: JobId, now: Time)
    requires Inv(db, now) && j in db.rows && Recoverable(db.rows[j].job, now)
    ensures RecoverOne(db, j, now).Success?
    ensures var job, after := db.rows[j].job, RecoverOne(db, j, now).value;
            && j in after.rows
            && after.rows[j].job.status == (if job.spec.PastDeadline(now) then JobStatus.Expired
                                            else if job.attemptCount >= job.spec.maxAttempts then JobStatus.FailedFinal
                                            else JobStatus.WaitingIntervention)
            && (after.rows[j].job.status.WaitingIntervention? ==> job.retrySafety.ReconciliationRequired?)
            && !Recoverable(after.rows[j].job, now)
  {
    var r := db.rows[j];
    RowOf(db, j, now);
    SchedulerProofs.RecoverOneKeeps(db, j, now);
    var released := db.(leases := ReleaseCoordination(db.leases, j, r.job.spec, r.job.generation, now));
    if r.job.spec.PastDeadline(now) {
      EndsRecovered(released, j, ExpiredRows(r, now), Commands.CommandStatus.Expired, JobDeadlineExpired, now);
    } else if r.job.attemptCount >= r.job.spec.maxAttempts {
      EndsRecovered(released, j, ExhaustedRows(r, now), Commands.CommandStatus.FailedFinal, AttemptsExhausted, now);
    } else {
      ShiftShape(released.(rows := released.rows[j := SuspendedRows(r, now)]), r.job.spec,
                 Commands.CommandStatus.WaitingExecution, Commands.CommandStatus.WaitingIntervention, now);
    }
  }

  lemma EndsRecovered(db: Db, j: JobId, next: JobRows, target: Commands.CommandStatus, code: Code, now: Time)
    requires EndRecovered(db, j, next, target, code, now).Success?
    ensures var after := EndRecovered(db, j, next, target, code, now).value;
            j in after.rows && after.rows[j].job == next.job
  {
    var stored := db.(rows := db.rows[j := next]);
    FinalizeShape(stored, next.job.spec, target, now, None, Some(code));
    var ended := FinalizeCommand(stored, next.job.spec, target, now, None, Some(code)).value;
    SupersedeForPreemptorAsks(ended, j, now);
    assert Moved(ended.rows[j], SupersedeForPreemptor(ended, j, now).rows[j], Untouched, now);
  }

  lemma SettledStays(r: JobRows, next: JobRows, now: Time)
    requires RowEvolves(r, next, Scheduler, now) && !Recoverable(r.job, now)
    ensures next.job == r.job
  {
  }

  lemma RecoveryMovesRow(db: Db, batch: seq<JobId>, j: JobId, now: Time)
    requires RecoverExpired(db, batch, now).Success? && j in db.rows
    ensures var after := RecoverExpired(db, batch, now).value;
            j in after.rows && RowEvolves(db.rows[j], after.rows[j], Scheduler, now)
  {
    RecoverEvolves(db, batch, now);
    assert CauseIn(Recovering(batch), j) == Scheduler;
  }

  lemma RecoveryKeepsSettled(db: Db, batch: seq<JobId>, j: JobId, now: Time)
    requires RecoverExpired(db, batch, now).Success? && j in db.rows && !Recoverable(db.rows[j].job, now)
    ensures var after := RecoverExpired(db, batch, now).value; j in after.rows && after.rows[j].job == db.rows[j].job
  {
    RecoveryMovesRow(db, batch, j, now);
    SettledStays(db.rows[j], RecoverExpired(db, batch, now).value.rows[j], now);
  }

  /** One recovery pass settles every job it listed: none of them is left for the next one. */
  lemma {:induction false} RecoverySettles(db: Db, batch: seq<JobId>, j: JobId, now: Time)
    requires Inv(db, now) && j in batch && j in db.rows
    ensures RecoverExpired(db, batch, now).Success?
    ensures var after := RecoverExpired(db, batch, now).value; j in after.rows && !Recoverable(after.rows[j].job, now)
    decreases |batch|
  {
    var first, rest := batch[0], batch[1..];
    SchedulerProofs.RecoverExpiredKeeps(db, batch, now);
    if !Recoverable(db.rows[j].job, now) {
      RecoveryKeepsSettled(db, batch, j, now);
    } else if first !in db.rows || !Recoverable(db.rows[first].job, now) {
      RecoverySettles(db, rest, j, now);
    } else {
      var next := RecoverOne(db, first, now).value;
      SchedulerProofs.RecoverOneKeeps(db, first, now);
      if first == j {
        RecoveryMeans(db, j, now);
        RecoveryKeepsSettled(next, rest, j, now);
      } else {
        RecoverOneEvolves(db, first, Recovering(batch), now);
        assert j in next.rows;
        RecoverySettles(next, rest, j, now);
      }
    }
  }

  // ----- what becomes of everyone else -----

  /** Recovery ends the job instead of handing it to an operator. */
  predicate Dies(job: Job, now: Time) {
    Recoverable(job, now) && (job.spec.PastDeadline(now) || job.attemptCount >= job.spec.maxAttempts)
  }

  lemma EndRecoveredElsewhere(db: Db, j: JobId, next: JobRows, target: Commands.CommandStatus, code: Code, now: Time, k: Pair)
    requires EndRecovered(db, j, next, target, code, now).Success?
    ensures var after := EndRecovered(db, j, next, target, code, now).value;
            && (forall i <- db.rows :: i != j ==> i in after.rows && after.rows[i].job == db.rows[i].job)
            && (Waits(after.preemptions, k) <==> Waits(db.preemptions, k) && k.preemptor != j)
  {
    var stored := db.(rows := db.rows[j := next]);
    FinalizeShape(stored, next.job.spec, target, now, None, Some(code));
    var ended := FinalizeCommand(stored, next.job.spec, target, now, None, Some(code)).value;
    SupersedeForPreemptorAsks(ended, j, now);
    var after := SupersedeForPreemptor(ended, j, now);
    forall i <- db.rows | i != j ensures i in after.rows && after.rows[i].job == db.rows[i].job {
      assert Moved(ended.rows[i], after.rows[i], Untouched, now);
    }
  }

  /** Recovering a job changes no other job, and drops exactly the rows by which the job itself waited, if it dies. */
  lemma RecoverOneElsewhere(db: Db, j: JobId, now: Time, k: Pair)
    requires j in db.rows && Recoverable(db.rows[j].job, now) && RecoverOne(db, j, now).Success?
    ensures var after := RecoverOne(db, j, now).value;
            && (forall i <- db.rows :: i != j ==> i in after.rows && after.rows[i].job == db.rows[i].job)
            && (Waits(after.preemptions, k) <==>
                Waits(db.preemptions, k) && !(k.preemptor == j && Dies(db.rows[j].job, now)))
  {
    var r := db.rows[j];
    var released := db.(leases := ReleaseCoordination(db.leases, j, r.job.spec, r.job.generation, now));
    if r.job.spec.PastDeadline(now) {
      EndRecoveredElsewhere(released, j, ExpiredRows(r, now), Commands.CommandStatus.Expired, JobDeadlineExpired, now, k);
    } else if r.job.attemptCount >= r.job.spec.maxAttempts {
      EndRecoveredElsewhere(released, j, ExhaustedRows(r, now), Commands.CommandStatus.FailedFinal, AttemptsExhausted, now, k);
    } else {
      ShiftShape(released.(rows := released.rows[j := SuspendedRows(r, now)]), r.job.spec,
                 Commands.CommandStatus.WaitingExecution, Commands.CommandStatus.WaitingIntervention, now);
    }
  }

  /** One pass ends exactly the jobs of its batch that are past their deadline or out of attempts. */
  lemma {:induction false} RecoveryEnds(db: Db, batch: seq<JobId>, j: JobId, now: Time)
    requires Inv(db, now) && j in db.rows
    ensures RecoverExpired(db, batch, now).Success?
    ensures var after := RecoverExpired(db, batch, now).value;
            && j in after.rows
            && (Ended(after.rows[j].job.status) <==>
                Ended(db.rows[j].job.status) || (j in batch && Dies(db.rows[j].job, now)))
    decreases |batch|
  {
    SchedulerProofs.RecoverExpiredKeeps(db, batch, now);
    if !Recoverable(db.rows[j].job, now) {
      RecoveryKeepsSettled(db, batch, j, now);
    } else if batch == [] {
    } else if batch[0] !in db.rows || !Recoverable(db.rows[batch[0]].job, now) {
      RecoveryEnds(db, batch[1..], j, now);
    } else {
      var next := RecoverOne(db, batch[0], now).value;
      SchedulerProofs.RecoverOneKeeps(db, batch[0], now);
      if batch[0] == j {
        RecoveryMeans(db, j, now);
        RecoveryKeepsSettled(next, batch[1..], j, now);
      } else {
        RecoverOneElsewhere(db, batch[0], now, Pair(j, j));
        RecoveryEnds(next, batch[1..], j, now);
      }
    }
  }

  /** One pass drops exactly the rows whose preemptor it ends. */
  lemma {:induction false} RecoveryDrops(db: Db, batch: seq<JobId>, k: Pair, now: Time)
    requires Inv(db, now) && k.preemptor in db.rows
    ensures RecoverExpired(db, batch, now).Success?
    ensures Waits(RecoverExpired(db, batch, now).value.preemptions, k) <==>
              Waits(db.preemptions, k) && !(k.preemptor in batch && Dies(db.rows[k.preemptor].job, now))
    decreases |batch|
  {
    var p := k.preemptor;
    SchedulerProofs.RecoverExpiredKeeps(db, batch, now);
    if batch == [] {
    } else if batch[0] !in db.rows || !Recoverable(db.rows[batch[0]].job, now) {
      RecoveryDrops(db, batch[1..], k, now);
    } else {
      var next := RecoverOne(db, batch[0], now).value;
      SchedulerProofs.RecoverOneKeeps(db, batch[0], now);
      RecoverOneElsewhere(db, batch[0], now, k);
      if batch[0] == p {
        RecoveryMeans(db, p, now);
      }
      RecoveryDrops(next, batch[1..], k, now);
    }
  }
}
