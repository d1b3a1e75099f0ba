/** The invariant survives operator decisions and lease-expiry recovery. */
module SchedulerProofs {
  import opened Prelude
  import opened WorkerJobs
  import opened Platform
  import opened JobSteps
  import opened JobInvariants
  import opened JobProofs
  import opened HolderProofs
  import Commands

  /** A job that does not run needs no fence. */
  lemma IdleKeepsFences(rows: map<JobId, JobRows>, leases: map<AccountId, AccountLease>, j: JobId, next: JobRows,
                        now: Time)
    requires FencesOk(rows, leases, now) && j in rows && !rows[j].job.status.Running? && !next.job.status.Running?
    ensures FencesOk(rows[j := next], leases, now)
  {
    var rows' := rows[j := next];
    forall i <- rows' ensures FenceOk(i, rows'[i].job, leases, now) {
      assert i != j ==> FenceOk(i, rows[i].job, leases, now);
    }
    forall a <- leases ensures HolderOk(a, leases[a], rows', now) {
      assert HolderOk(a, leases[a], rows, now);
    }
  }

  /** The parts of the invariant that a job leaving the workers keeps, Command included; preemptions aside. */
  lemma LeavingKeeps(db: Db, j: JobId, next: JobRows, after: Db, now: Time)
    requires Inv(db, now) && j in db.rows
    requires RowsOk(next, now) && !next.job.status.Running? && SameJob(db.rows[j], next)
    requires Followed(db.(leases := after.leases), j, next, after)
    requires FencesOk(db.rows[j := next], after.leases, now)
    ensures LocalOk(after.rows, now) && BindingOk(after.rows) && TokensOk(after.rows)
    ensures FencesOk(after.rows, after.leases, now) && OneBrowserPerAccount(after.rows)
    ensures after.rows == db.rows[j := next] && after.preemptions == db.preemptions
  {
    RowKeepsBinding(db.rows, j, next);
    RowKeepsTokens(db.rows, j, next);
    RowKeepsOneBrowser(db.rows, j, next);
    forall i <- after.rows ensures RowsOk(after.rows[i], now) {
      assert i != j ==> RowsOk(db.rows[i], now);
    }
  }

  /** A started job moves to or from an operator. */
  lemma ShiftedKeeps(db: Db, j: JobId, next: JobRows, after: Db, now: Time)
    requires Inv(db, now) && j in db.rows
    requires RowsOk(next, now) && !next.job.status.Running? && SameJob(db.rows[j], next)
    requires next.job.attemptCount == db.rows[j].job.attemptCount >= 1
    requires Followed(db.(leases := after.leases), j, next, after)
    requires FencesOk(db.rows[j := next], after.leases, now)
    ensures Inv(after, now)
  {
    LeavingKeeps(db, j, next, after, now);
    StartedKeepsPreemptions(db.rows, db.preemptions, j, next, now);
  }

  /** A job ends without its holder: the preemptions it waited for go, the ones that wait for it stay. */
  lemma EndedKeeps(db: Db, j: JobId, next: JobRows, after: Db, now: Time)
    requires Inv(db, now) && j in db.rows
    requires RowsOk(next, now) && Ended(next.job.status) && SameJob(db.rows[j], next)
    requires next.job.attemptCount == db.rows[j].job.attemptCount
    requires Followed(db.(leases := after.leases), j, next, after)
    requires FencesOk(db.rows[j := next], after.leases, now)
    ensures Inv(SupersedeForPreemptor(after, j, now), now)
  {
    LeavingKeeps(db, j, next, after, now);
    EndedKeepsPreemptions(db.rows, db.preemptions, j, next, now);
    SupersedeForPreemptorShape(after, j, now);
    var e := SupersedeForPreemptor(after, j, now);
    EndedKeepsOneVictim(db, j, next, e.preemptions, now);
    var mid := after.(preemptions := e.preemptions);
    assert Inv(mid, now);
    CancelsChangeKeeps(mid, e.rows, now);
    assert mid.(rows := e.rows) == e;
  }

  lemma EndedKeepsOneVictim(db: Db, j: JobId, next: JobRows, after: map<Pair, Preemption>, now: Time)
    requires OneVictimPerAccount(db.rows, db.preemptions) && j in db.rows && !next.job.status.Running?
    requires after == SupersedeAll(db.preemptions, WaitingForPreemptor(db.preemptions, j), now)
    ensures OneVictimPerAccount(db.rows[j := next], after)
  {
    FewerWaitersKeepOneVictim(db.rows, db.preemptions, db.rows[j := next], after);
  }

  // ----- resolve -----

  lemma ResolvedRowsOk(r: JobRows, i: nat, requeue: bool, confirmed: bool, now: Time)
    requires RowsOk(r, now)
    ensures match ResolvedRows(r, i, requeue, confirmed, now)
            case Failure(e) => !Defect(e)
            case Success(next) =>
              && RowsOk(next, now) && SameJob(r, next) && next.job.attemptCount == r.job.attemptCount >= 1
              && r.job.status.WaitingIntervention?
              && (if requeue then next.job.status.Queued? else next.job.status.FailedFinal?)
  {
    OpenInterventionIsLast(r);
  }

  lemma RequeuedKeeps(db: Db, j: JobId, next: JobRows, now: Time)
    requires Inv(db, now) && j in db.rows && db.rows[j].job.status.WaitingIntervention?
    requires RowsOk(next, now) && SameJob(db.rows[j], next) && next.job.status.Queued?
    requires next.job.attemptCount == db.rows[j].job.attemptCount >= 1
    ensures var f := ShiftCommand(db.(rows := db.rows[j := next]), next.job.spec, Commands.CommandStatus.WaitingIntervention,
                                  Commands.CommandStatus.WaitingExecution, now);
            f.Success? && Inv(f.value, now)
  {
    ShiftKeeps(db, j, next, Commands.CommandStatus.WaitingIntervention, Commands.CommandStatus.WaitingExecution, now);
    IdleKeepsFences(db.rows, db.leases, j, next, now);
    var after := ShiftCommand(db.(rows := db.rows[j := next]), next.job.spec, Commands.CommandStatus.WaitingIntervention,
                              Commands.CommandStatus.WaitingExecution, now);
    assert db.(leases := after.value.leases) == db;
    ShiftedKeeps(db, j, next, after.value, now);
  }

  /** Any end reached without the holder: the Command is finalised and the job's own waiting rows are dropped. */
  lemma EndKeeps(db: Db, leases: map<AccountId, AccountLease>, j: JobId, next: JobRows, target: Commands.CommandStatus,
                 now: Time, error: Option<Code>)
    requires Inv(db, now) && j in db.rows && !Ended(db.rows[j].job.status)
    requires RowsOk(next, now) && SameJob(db.rows[j], next) && next.job.attemptCount == db.rows[j].job.attemptCount
    requires Ended(next.job.status) && target == CommandFor(next.job.status) && (target.FailedFinal? || target.Expired?)
    requires FencesOk(db.rows[j := next], leases, now)
    ensures var f := FinalizeCommand(db.(leases := leases, rows := db.rows[j := next]), next.job.spec, target, now, None, error);
            f.Success? && Inv(SupersedeForPreemptor(f.value, j, now), now)
  {
    var base := db.(leases := leases);
    FinalizeKeeps(base, j, next, target, now, None, error);
    var after := FinalizeCommand(base.(rows := base.rows[j := next]), next.job.spec, target, now, None, error);
    assert base.(rows := base.rows[j := next]) == db.(leases := leases, rows := db.rows[j := next]);
    EndedKeeps(db, j, next, after.value, now);
  }

  lemma ResolveInterventionKeeps(db: Db, j: JobId, i: nat, requeue: bool, confirmed: bool, now: Time)
    requires Inv(db, now)
    ensures Sound(ResolveIntervention(db, j, i, requeue, confirmed, now), now)
  {
    if j in db.rows {
      RowOf(db, j, now);
      ResolvedRowsOk(db.rows[j], i, requeue, confirmed, now);
      var n := ResolvedRows(db.rows[j], i, requeue, confirmed, now);
      if n.Success? {
        if requeue {
          RequeuedKeeps(db, j, n.value, now);
        } else {
          IdleKeepsFences(db.rows, db.leases, j, n.value, now);
          EndKeeps(db, db.leases, j, n.value, Commands.CommandStatus.FailedFinal, now, n.value.job.error);
          assert db.(leases := db.leases, rows := db.rows[j := n.value]) == db.(rows := db.rows[j := n.value]);
        }
      }
    }
  }

  // ----- recover -----

  lemma RecoveredRowsOk(r: JobRows, job: Job, status: AttemptStatus, code: Code, now: Time)
    requires RowsOk(r, now) && !status.AttemptRunning?
    requires job.spec == r.job.spec && job.attemptCount == r.job.attemptCount && !job.status.Running?
    requires if r.job.status.Running? then Fits(job.status, status)
             else r.attempts != [] ==> Fits(job.status, r.attempts[|r.attempts| - 1].status)
    ensures var n := RecoveredRows(r, job, status, code, now);
            && n.job == job && SameJob(r, n) && AttemptsOk(n) && CancelsOk(n) && n.interventions == r.interventions
  {
    SupersedeClears(r, now, TargetAttemptEnded);
    RunningAttemptIsLast(r);
    if r.job.status.Running? {
      EndAttemptClears(SupersedePending(r, now, TargetAttemptEnded), status, now, Some(code));
    }
  }

  lemma ExpiredRowsOk(r: JobRows, now: Time)
    requires RowsOk(r, now) && !Ended(r.job.status)
    ensures var n := ExpiredRows(r, now);
            RowsOk(n, now) && SameJob(r, n) && n.job.attemptCount == r.job.attemptCount && n.job.status.Expired?
  {
    RecoveredRowsOk(r, r.job.ExpiredAt(JobDeadlineExpired), AttemptFailedFinal, JobDeadlineExpired, now);
    OpenInterventionIsLast(r);
  }

  lemma ExhaustedRowsOk(r: JobRows, now: Time)
    requires RowsOk(r, now) && r.job.status.Running?
    ensures var n := ExhaustedRows(r, now);
            RowsOk(n, now) && SameJob(r, n) && n.job.attemptCount == r.job.attemptCount && n.job.status.FailedFinal?
  {
    RecoveredRowsOk(r, r.job.FinallyFailed(AttemptsExhausted), AttemptFailedFinal, AttemptsExhausted, now);
  }

  lemma SuspendedRowsOk(r: JobRows, now: Time)
    requires RowsOk(r, now) && r.job.status.Running?
    ensures var n := SuspendedRows(r, now);
            RowsOk(n, now) && SameJob(r, n) && n.job.attemptCount == r.job.attemptCount && n.job.status.WaitingIntervention?
  {
    RecoveredRowsOk(r, r.job.Suspended(AmbiguousOutcome), AttemptWaitingIntervention, AmbiguousOutcome, now);
    var over := RecoveredRows(r, r.job.Suspended(AmbiguousOutcome), AttemptWaitingIntervention, AmbiguousOutcome, now);
    AddInterventionOpens(over, AmbiguousOutcomeSeen, if r.job.lease.Some? then Some(r.job.lease.value.worker) else r.job.spec.assignee);
  }

  lemma EndRecoveredKeeps(db: Db, j: JobId, next: JobRows, target: Commands.CommandStatus, code: Code, now: Time)
    requires Inv(db, now) && j in db.rows && !Ended(db.rows[j].job.status)
    requires RowsOk(next, now) && SameJob(db.rows[j], next) && next.job.attemptCount == db.rows[j].job.attemptCount
    requires Ended(next.job.status) && target == CommandFor(next.job.status) && (target.FailedFinal? || target.Expired?)
    ensures var leases := ReleaseCoordination(db.leases, j, db.rows[j].job.spec, db.rows[j].job.generation, now);
            var step := EndRecovered(db.(leases := leases), j, next, target, code, now);
            step.Success? && Inv(step.value, now)
  {
    var leases := ReleaseCoordination(db.leases, j, db.rows[j].job.spec, db.rows[j].job.generation, now);
    ReleaseKeepsFences(db.rows, db.leases, j, next, now);
    EndKeeps(db, leases, j, next, target, now, Some(code));
  }

  lemma SuspendedKeeps(db: Db, j: JobId, next: JobRows, now: Time)
    requires Inv(db, now) && j in db.rows && db.rows[j].job.status.Running?
    requires RowsOk(next, now) && SameJob(db.rows[j], next) && next.job.status.WaitingIntervention?
    requires next.job.attemptCount == db.rows[j].job.attemptCount >= 1
    ensures var leases := ReleaseCoordination(db.leases, j, db.rows[j].job.spec, db.rows[j].job.generation, now);
            var f := ShiftCommand(db.(leases := leases, rows := db.rows[j := next]), next.job.spec,
                                  Commands.CommandStatus.WaitingExecution, Commands.CommandStatus.WaitingIntervention, now);
            f.Success? && Inv(f.value, now)
  {
    var leases := ReleaseCoordination(db.leases, j, db.rows[j].job.spec, db.rows[j].job.generation, now);
    var base := db.(leases := leases);
    ReleaseKeepsFences(db.rows, db.leases, j, next, now);
    ShiftKeeps(base, j, next, Commands.CommandStatus.WaitingExecution, Commands.CommandStatus.WaitingIntervention, now);
    assert base.(rows := base.rows[j := next]) == db.(leases := leases, rows := db.rows[j := next]);
    var after := ShiftCommand(base.(rows := base.rows[j := next]), next.job.spec,
                              Commands.CommandStatus.WaitingExecution, Commands.CommandStatus.WaitingIntervention, now);
    ShiftedKeeps(db, j, next, after.value, now);
  }

  lemma RecoverOneKeeps(db: Db, j: JobId, now: Time)
    requires Inv(db, now) && j in db.rows && Recoverable(db.rows[j].job, now)
    ensures RecoverOne(db, j, now).Success? && Inv(RecoverOne(db, j, now).value, now)
  {
    var r := db.rows[j];
    RowOf(db, j, now);
    if r.job.spec.PastDeadline(now) {
      ExpiredRowsOk(r, now);
      EndRecoveredKeeps(db, j, ExpiredRows(r, now), Commands.CommandStatus.Expired, JobDeadlineExpired, now);
    } else if r.job.attemptCount >= r.job.spec.maxAttempts {
      ExhaustedRowsOk(r, now);
      EndRecoveredKeeps(db, j, ExhaustedRows(r, now), Commands.CommandStatus.FailedFinal, AttemptsExhausted, now);
    } else {
      SuspendedRowsOk(r, now);
      SuspendedKeeps(db, j, SuspendedRows(r, now), now);
    }
  }

  lemma {:induction false} RecoverExpiredKeeps(db: Db, batch: seq<JobId>, now: Time)
    requires Inv(db, now)
    ensures RecoverExpired(db, batch, now).Success? && Inv(RecoverExpired(db, batch, now).value, now)
    decreases |batch|
  {
    if batch == [] {
    } else if batch[0] !in db.rows || !Recoverable(db.rows[batch[0]].job, now) {
      RecoverExpiredKeeps(db, batch[1..], now);
    } else {
      RecoverOneKeeps(db, batch[0], now);
      RecoverExpiredKeeps(RecoverOne(db, batch[0], now).value, batch[1..], now);
    }
  }
}
