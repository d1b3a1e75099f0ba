/** The invariant survives every call of a lease holder. */
module HolderProofs {
  import opened Prelude
  import opened WorkerJobs
  import opened Platform
  import opened JobSteps
  import opened JobInvariants
  import opened JobProofs
  import Commands

  /** Errors that would mean the stored rows contradict each other. */
  predicate Defect(e: Error) {
    e.AttemptMissing? || e.JobCommandMissing? || e.CommandStateConflict? || e.InvalidCommandTransition?
    || e.CheckViolation?
  }

  /** From consistent tables a step ends in consistent tables or refuses for a reason the caller can see. */
  ghost predicate Sound(step: Step<Db>, now: Time) {
    match step
    case Success(db) => Inv(db, now)
    case Failure(e) => !Defect(e)
  }

  lemma RowOf(db: Db, j: JobId, now: Time)
    requires LocalOk(db.rows, now) && j in db.rows
    ensures RowsOk(db.rows[j], now)
  {
  }

  // ----- local -----

  /** A running job's rows after its attempt is over, whatever the job becomes. */
  lemma AttemptOverKeeps(r: JobRows, job: Job, status: AttemptStatus, now: Time, error: Option<Code>)
    requires RowsOk(r, now) && r.job.status.Running? && !status.AttemptRunning? && Fits(job.status, status)
    requires JobOk(job, now) && job.spec == r.job.spec && job.attemptCount == r.job.attemptCount && !job.status.Running?
    ensures var over := AttemptOver(r, job, status, now, error);
            && over.Success? && over.value.job == job && SameJob(r, over.value)
            && AttemptsOk(over.value) && CancelsOk(over.value)
            && over.value.interventions == r.interventions
  {
    SupersedeClears(r, now, TargetAttemptEnded);
    EndAttemptClears(SupersedePending(r, now, TargetAttemptEnded), status, now, error);
  }

  lemma AddInterventionOpens(r: JobRows, kind: InterventionKind, worker: Option<WorkerId>)
    requires r.job.status.WaitingIntervention?
    requires forall i :: 0 <= i < |r.interventions| ==> !r.interventions[i].status.Open?
    ensures InterventionsOk(AddIntervention(r, kind, worker))
  {
  }

  // ----- the four ways to stop -----

  /** They share this: the attempt, the pending cancel, the fence and the waiters are settled. */
  lemma StoppedKeeps(db: Db, j: JobId, next: JobRows, after: Db, how: Quiescence, now: Time)
    requires Inv(db, now) && j in db.rows && db.rows[j].job.status.Running?
    requires RowsOk(next, now) && !next.job.status.Running? && SameJob(db.rows[j], next)
    requires Followed(db, j, next, after)
    ensures Inv(Stopped(after, j, db.rows[j], how, now), now)
  {
    var r := db.rows[j];
    assert RowsOk(r, now);
    RowKeepsBinding(db.rows, j, next);
    RowKeepsTokens(db.rows, j, next);
    RowKeepsOneBrowser(db.rows, j, next);
    ReleaseKeepsFences(db.rows, db.leases, j, next, now);
    SatisfyKeeps(db.rows, db.preemptions, j, next, how, now);
    forall i <- after.rows ensures RowsOk(after.rows[i], now) {
      assert i != j ==> RowsOk(db.rows[i], now);
    }
  }

  lemma FinalizedKeeps(db: Db, j: JobId, next: JobRows, target: Commands.CommandStatus, how: Quiescence, now: Time,
                       result: Option<Document>, error: Option<Code>)
    requires Inv(db, now) && j in db.rows && db.rows[j].job.status.Running?
    requires RowsOk(next, now) && SameJob(db.rows[j], next)
    requires Ended(next.job.status) && target == CommandFor(next.job.status)
    ensures var f := FinalizeCommand(db.(rows := db.rows[j := next]), next.job.spec, target, now, result, error);
            f.Success? && Inv(Stopped(f.value, j, db.rows[j], how, now), now)
  {
    FinalizeKeeps(db, j, next, target, now, result, error);
    var after := FinalizeCommand(db.(rows := db.rows[j := next]), next.job.spec, target, now, result, error);
    StoppedKeeps(db, j, next, after.value, how, now);
  }

  lemma CompleteKeeps(db: Db, j: JobId, worker: WorkerId, token: Token, document: Document, now: Time)
    requires Inv(db, now)
    ensures Sound(Complete(db, j, worker, token, document, now), now)
  {
    if j in db.rows && db.rows[j].job.OwnsLease(worker, token, now) {
      var r := db.rows[j];
      RowOf(db, j, now);
      AttemptOverKeeps(r, r.job.Completed(document), AttemptSucceeded, now, None);
      var next := AttemptOver(r, r.job.Completed(document), AttemptSucceeded, now, None).value;
      FinalizedKeeps(db, j, next, Commands.CommandStatus.Succeeded, VictimSucceeded, now, Some(document), None);
    }
  }

  lemma AcknowledgedRowsOk(cfg: Config, r: JobRows, worker: WorkerId, token: Token, generation: int, phase: string,
                           now: Time)
    requires RowsOk(r, now)
    ensures var a := AcknowledgedRows(cfg, r, worker, token, generation, phase, now);
            match a
            case Failure(e) => !Defect(e)
            case Success(v) => RowsOk(v.0, now) && SameJob(r, v.0) && v.0.job.status.Cancelled? && r.job.status.Running?
  {
    if r.job.OwnsLease(worker, token, now) {
      RunningAttemptIsLast(r);
      PendingCancelIsLast(r);
    }
  }

  lemma AcknowledgeCancelKeeps(cfg: Config, env: Env, db: Db, j: JobId, worker: WorkerId, token: Token, generation: int,
                               phase: string, now: Time)
    requires Inv(db, now)
    ensures Sound(AcknowledgeCancel(cfg, env, db, j, worker, token, generation, phase, now), now)
  {
    if j in db.rows {
      RowOf(db, j, now);
      AcknowledgedRowsOk(cfg, db.rows[j], worker, token, generation, phase, now);
      var a := AcknowledgedRows(cfg, db.rows[j], worker, token, generation, phase, now);
      if a.Success? {
        FinalizedKeeps(db, j, a.value.0, Commands.CommandStatus.Cancelled, CancelAcknowledged, now, None, Some(a.value.1));
      }
    }
  }

  lemma AttemptOverIs(r: JobRows, job: Job, status: AttemptStatus, now: Time, error: Option<Code>)
    requires AttemptsOk(r) && CancelsOk(r) && r.job.status.Running? && !status.AttemptRunning? && job.spec == r.job.spec
    ensures var over := AttemptOver(r, job, status, now, error);
            over.Success? && over.value.job == job && SameJob(r, over.value)
  {
    SupersedeClears(r, now, TargetAttemptEnded);
    EndAttemptClears(SupersedePending(r, now, TargetAttemptEnded), status, now, error);
  }

  lemma FailedRowsOk(r: JobRows, worker: WorkerId, code: Code, retryable: bool, ambiguous: bool, retryAt: Time, now: Time)
    requires RowsOk(r, now) && r.job.status.Running?
    ensures var f := FailedRows(r, worker, code, retryable, ambiguous, retryAt, now);
            && f.Success? && SameJob(r, f.value) && f.value.job == r.job.Failed(code, retryable, ambiguous, retryAt)
            && (f.value.job.Storable() ==> RowsOk(f.value, now))
  {
    var job := r.job.Failed(code, retryable, ambiguous, retryAt);
    var status := if job.status.WaitingIntervention? then AttemptWaitingIntervention
    else if job.status.FailedRetryable? then AttemptFailedRetryable else AttemptFailedFinal;
    AttemptOverIs(r, job, status, now, Some(code));
    if job.Storable() {
      AttemptOverKeeps(r, job, status, now, Some(code));
      if job.status.WaitingIntervention? {
        AddInterventionOpens(AttemptOver(r, job, status, now, Some(code)).value,
                             if ambiguous then AmbiguousOutcomeSeen else OperatorConfirmationRequired, Some(worker));
      }
    }
  }

  lemma FailedCommandKeeps(db: Db, j: JobId, next: JobRows, code: Code, now: Time)
    requires j in db.rows && next.job.spec == db.rows[j].job.spec && db.rows[j].job.status.Running?
    requires next.job.status.WaitingIntervention? || next.job.status.FailedRetryable? || next.job.status.FailedFinal?
    requires ResultsOk(db.commands, db.results) && LockstepOk(db.rows, db.commands) && BindingOk(db.rows)
    ensures var f := FailedCommand(db.(rows := db.rows[j := next]), next.job, code, now);
            f.Success? && Followed(db, j, next, f.value)
  {
    if next.job.status.WaitingIntervention? {
      ShiftKeeps(db, j, next, Commands.CommandStatus.WaitingExecution, Commands.CommandStatus.WaitingIntervention, now);
    } else if next.job.status.FailedFinal? {
      FinalizeKeeps(db, j, next, Commands.CommandStatus.FailedFinal, now, None, Some(code));
    } else {
      SameCommandFollows(db.rows, db.commands, j, next);
    }
  }

  /** The one call whose write the table can refuse: a retry that would start at or after the deadline. */
  predicate RetryTooLate(cfg: Config, db: Db, j: JobId, retryable: bool, ambiguous: bool, now: Time) {
    j in db.rows &&
    var job := db.rows[j].job;
    && retryable && !ambiguous && job.retrySafety.SafeToRetry? && job.attemptCount < job.spec.maxAttempts
    && job.spec.PastDeadline(now + cfg.retryDelay)
  }

  lemma FailedKeeps(db: Db, j: JobId, next: JobRows, code: Code, now: Time)
    requires Inv(db, now) && j in db.rows && db.rows[j].job.status.Running?
    requires RowsOk(next, now) && SameJob(db.rows[j], next)
    requires next.job.status.WaitingIntervention? || next.job.status.FailedRetryable? || next.job.status.FailedFinal?
    ensures var f := FailedCommand(db.(rows := db.rows[j := next]), next.job, code, now);
            f.Success? && Inv(Stopped(f.value, j, db.rows[j], VictimFailed, now), now)
  {
    FailedCommandKeeps(db, j, next, code, now);
    StoppedKeeps(db, j, next, FailedCommand(db.(rows := db.rows[j := next]), next.job, code, now).value, VictimFailed, now);
  }

  predicate MayFail(db: Db, j: JobId, worker: WorkerId, token: Token, code: string, now: Time) {
    && j in db.rows && db.rows[j].job.OwnsLease(worker, token, now)
    && CoordinationHeld(db.leases, j, db.rows[j].job, now) && !Blank(code)
  }

  lemma FailUnfolds(cfg: Config, db: Db, j: JobId, worker: WorkerId, token: Token, code: string, retryable: bool,
                    ambiguous: bool, next: JobRows, now: Time)
    requires MayFail(db, j, worker, token, code, now)
    requires FailedRows(db.rows[j], worker, Reported(code), retryable, ambiguous, now + cfg.retryDelay, now) == Success(next)
    ensures Fail(cfg, db, j, worker, token, code, retryable, ambiguous, now)
            == if !next.job.Storable() then Failure(CheckViolation)
               else match FailedCommand(db.(rows := db.rows[j := next]), next.job, Reported(code), now)
                    case Success(moved) => Success(Stopped(moved, j, db.rows[j], VictimFailed, now))
                    case Failure(e) => Failure(e)
  {
  }

  lemma FailRefused(cfg: Config, db: Db, j: JobId, worker: WorkerId, token: Token, code: string, retryable: bool,
                    ambiguous: bool, now: Time)
    requires !MayFail(db, j, worker, token, code, now)
    ensures var step := Fail(cfg, db, j, worker, token, code, retryable, ambiguous, now);
            step.Failure? && !Defect(step.error)
  {
  }

  lemma FailKeeps(cfg: Config, db: Db, j: JobId, worker: WorkerId, token: Token, code: string, retryable: bool,
                  ambiguous: bool, now: Time)
    requires Inv(db, now)
    ensures match Fail(cfg, db, j, worker, token, code, retryable, ambiguous, now)
            case Success(next) => Inv(next, now) && !RetryTooLate(cfg, db, j, retryable, ambiguous, now)
            case Failure(e) => Defect(e) ==> e.CheckViolation? && RetryTooLate(cfg, db, j, retryable, ambiguous, now)
    ensures Fail(cfg, db, j, worker, token, code, retryable, ambiguous, now) == Failure(CheckViolation)
            <==> MayFail(db, j, worker, token, code, now) && RetryTooLate(cfg, db, j, retryable, ambiguous, now)
  {
    if MayFail(db, j, worker, token, code, now) {
      var r := db.rows[j];
      RowOf(db, j, now);
      var next := FailedRowsFit(cfg, r, worker, Reported(code), retryable, ambiguous, now);
      FailUnfolds(cfg, db, j, worker, token, code, retryable, ambiguous, next, now);
      if next.job.Storable() {
        FailedKeeps(db, j, next, Reported(code), now);
      }
    } else {
      FailRefused(cfg, db, j, worker, token, code, retryable, ambiguous, now);
    }
  }

  lemma FailedRowsFit(cfg: Config, r: JobRows, worker: WorkerId, code: Code, retryable: bool, ambiguous: bool, now: Time)
    returns (next: JobRows)
    requires RowsOk(r, now) && r.job.status.Running?
    ensures FailedRows(r, worker, code, retryable, ambiguous, now + cfg.retryDelay, now) == Success(next)
    ensures SameJob(r, next) && (next.job.Storable() ==> RowsOk(next, now))
    ensures next.job.status.WaitingIntervention? || next.job.status.FailedRetryable? || next.job.status.FailedFinal?
    ensures next.job.Storable() <==>
              !(retryable && !ambiguous && r.job.retrySafety.SafeToRetry? && r.job.attemptCount < r.job.spec.maxAttempts
                && r.job.spec.PastDeadline(now + cfg.retryDelay))
  {
    FailedRowsOk(r, worker, code, retryable, ambiguous, now + cfg.retryDelay, now);
    FailKeepsScheduleBeforeDeadline(r.job, code, retryable, ambiguous, now + cfg.retryDelay);
    next := FailedRows(r, worker, code, retryable, ambiguous, now + cfg.retryDelay, now).value;
  }

  lemma IntervenedRowsOk(r: JobRows, worker: WorkerId, kind: InterventionKind, detail: string, now: Time)
    requires RowsOk(r, now) && r.job.status.Running?
    ensures var n := IntervenedRows(r, worker, kind, detail, now);
            n.Success? && RowsOk(n.value, now) && SameJob(r, n.value) && n.value.job.status.WaitingIntervention?
  {
    var job := if kind.AmbiguousOutcomeSeen? then r.job.Intervened().(retrySafety := ReconciliationRequired)
    else r.job.Intervened();
    AttemptOverKeeps(r, job, AttemptWaitingIntervention, now, Some(Reported(detail)));
    AddInterventionOpens(AttemptOver(r, job, AttemptWaitingIntervention, now, Some(Reported(detail))).value, kind, Some(worker));
  }

  lemma IntervenedKeeps(db: Db, j: JobId, next: JobRows, now: Time)
    requires Inv(db, now) && j in db.rows && db.rows[j].job.status.Running?
    requires RowsOk(next, now) && SameJob(db.rows[j], next) && next.job.status.WaitingIntervention?
    ensures var f := ShiftCommand(db.(rows := db.rows[j := next]), next.job.spec, Commands.CommandStatus.WaitingExecution,
                                  Commands.CommandStatus.WaitingIntervention, now);
            f.Success? && Inv(Stopped(f.value, j, db.rows[j], InterventionRequested, now), now)
  {
    ShiftKeeps(db, j, next, Commands.CommandStatus.WaitingExecution, Commands.CommandStatus.WaitingIntervention, now);
    var after := ShiftCommand(db.(rows := db.rows[j := next]), next.job.spec, Commands.CommandStatus.WaitingExecution,
                              Commands.CommandStatus.WaitingIntervention, now);
    StoppedKeeps(db, j, next, after.value, InterventionRequested, now);
  }

  lemma RequestInterventionKeeps(db: Db, j: JobId, worker: WorkerId, token: Token, kind: InterventionKind,
                                 detail: string, now: Time)
    requires Inv(db, now)
    ensures Sound(RequestIntervention(db, j, worker, token, kind, detail, now), now)
  {
    if j in db.rows && db.rows[j].job.OwnsLease(worker, token, now) {
      RowOf(db, j, now);
      IntervenedRowsOk(db.rows[j], worker, kind, detail, now);
      IntervenedKeeps(db, j, IntervenedRows(db.rows[j], worker, kind, detail, now).value, now);
    }
  }

  // ----- renew and checkpoint -----

  /** A holder that keeps running: only its lease expiry or its checkpoint moves. */
  lemma StillRunningKeeps(db: Db, j: JobId, next: JobRows, leases: map<AccountId, AccountLease>, now: Time)
    requires Inv(db, now) && j in db.rows && db.rows[j].job.status.Running? && next.job.status.Running?
    requires RowsOk(next, now) && SameJob(db.rows[j], next)
    requires FencesOk(db.rows[j := next], leases, now)
    ensures Inv(db.(rows := db.rows[j := next], leases := leases), now)
  {
    assert RowsOk(db.rows[j], now);
    RowKeepsBinding(db.rows, j, next);
    RowKeepsTokens(db.rows, j, next);
    RowKeepsOneBrowser(db.rows, j, next);
    StartedKeepsPreemptions(db.rows, db.preemptions, j, next, now);
    SameCommandFollows(db.rows, db.commands, j, next);
    var rows' := db.rows[j := next];
    forall i <- rows' ensures RowsOk(rows'[i], now) {
      assert i != j ==> RowsOk(db.rows[i], now);
    }
  }

  /** Job lease and account lease are extended together. */
  lemma RenewKeepsFences(rows: map<JobId, JobRows>, leases: map<AccountId, AccountLease>, j: JobId, next: JobRows,
                         now: Time, expires: Time)
    requires FencesOk(rows, leases, now) && j in rows && rows[j].job.status.Running? && rows[j].job.lease.Some?
    requires next.job == rows[j].job.Renewed(expires) && CoordinationHeld(leases, j, rows[j].job, now)
    requires rows[j].job.spec.Exclusive() ==> rows[j].job.generation.Some?
    ensures FencesOk(rows[j := next], RenewedLeases(leases, j, rows[j].job, now, expires), now)
  {
    var after := RenewedLeases(leases, j, rows[j].job, now, expires);
    var rows' := rows[j := next];
    forall i <- rows' ensures FenceOk(i, rows'[i].job, after, now) {
      assert FenceOk(i, rows[i].job, leases, now);
    }
    forall a <- after ensures HolderOk(a, after[a], rows', now) {
      assert HolderOk(a, leases[a], rows, now);
    }
  }

  function RenewedLeases(leases: map<AccountId, AccountLease>, j: JobId, job: Job, now: Time, expires: Time)
    : map<AccountId, AccountLease>
    requires job.spec.Exclusive() ==> job.generation.Some?
  {
    if job.spec.Exclusive()
    then SetExpiry(leases, job.spec.account.value, JobOwner(j), job.generation.value, now, expires)
    else leases
  }

  lemma RenewedKeeps(db: Db, j: JobId, now: Time, expires: Time)
    requires Inv(db, now) && j in db.rows && db.rows[j].job.status.Running? && db.rows[j].job.lease.Some?
    requires CoordinationHeld(db.leases, j, db.rows[j].job, now)
    requires RowsOk(db.rows[j], now)
    ensures Inv(db.(rows := db.rows[j := db.rows[j].(job := db.rows[j].job.Renewed(expires))],
                    leases := RenewedLeases(db.leases, j, db.rows[j].job, now, expires)), now)
  {
    var next := db.rows[j].(job := db.rows[j].job.Renewed(expires));
    RenewKeepsFences(db.rows, db.leases, j, next, now, expires);
    StillRunningKeeps(db, j, next, RenewedLeases(db.leases, j, db.rows[j].job, now, expires), now);
  }

  lemma RenewIs(cfg: Config, db: Db, j: JobId, worker: WorkerId, token: Token, now: Time)
    requires j in db.rows && db.rows[j].job.Storable()
    ensures var r := db.rows[j];
            Renew(cfg, db, j, worker, token, now) ==
            if !r.job.OwnsLease(worker, token, now) then Failure(LeaseLost)
            else if !CoordinationHeld(db.leases, j, r.job, now) then Failure(AccountCoordinationLost)
            else Success(db.(rows := db.rows[j := r.(job := r.job.Renewed(now + cfg.leaseDuration))],
                         leases := RenewedLeases(db.leases, j, r.job, now, now + cfg.leaseDuration)))
  {
  }

  lemma RenewKeeps(cfg: Config, db: Db, j: JobId, worker: WorkerId, token: Token, now: Time)
    requires Inv(db, now)
    ensures Sound(Renew(cfg, db, j, worker, token, now), now)
  {
    if j in db.rows {
      RowOf(db, j, now);
      RenewIs(cfg, db, j, worker, token, now);
      if db.rows[j].job.OwnsLease(worker, token, now) && CoordinationHeld(db.leases, j, db.rows[j].job, now) {
        RenewedKeeps(db, j, now, now + cfg.leaseDuration);
      }
    }
  }

  lemma SaveCheckpointKeeps(db: Db, j: JobId, worker: WorkerId, token: Token, checkpoint: Checkpoint, now: Time)
    requires Inv(db, now)
    ensures Sound(SaveCheckpoint(db, j, worker, token, checkpoint, now), now)
  {
    if j in db.rows && db.rows[j].job.OwnsLease(worker, token, now) {
      var r := db.rows[j];
      assert RowsOk(r, now);
      var next := r.(job := r.job.(checkpoint := Some(checkpoint)));
      SameLeaseKeepsFences(db.rows, db.leases, j, next, now);
      StillRunningKeeps(db, j, next, db.leases, now);
      assert db.(rows := db.rows[j := next], leases := db.leases) == db.(rows := db.rows[j := next]);
    }
  }

  lemma SameLeaseKeepsFences(rows: map<JobId, JobRows>, leases: map<AccountId, AccountLease>, j: JobId, next: JobRows, now: Time)
    requires FencesOk(rows, leases, now) && j in rows
    requires next.job.spec == rows[j].job.spec && next.job.status == rows[j].job.status
    requires next.job.lease == rows[j].job.lease && next.job.generation == rows[j].job.generation
    ensures FencesOk(rows[j := next], leases, now)
  {
    var rows' := rows[j := next];
    forall i <- rows' ensures FenceOk(i, rows'[i].job, leases, now) {
      assert FenceOk(i, rows[i].job, leases, now);
    }
    forall a <- leases ensures HolderOk(a, leases[a], rows', now) {
      assert HolderOk(a, leases[a], rows, now);
    }
  }

  // ----- cancel requests -----

  lemma PlaceCancelOk(r: JobRows, reason: Code, now: Time)
    requires RowsOk(r, now) && r.job.status.Running?
    ensures var (next, g) := PlaceCancel(r, r.job.attemptCount, reason, now);
            OnlyCancels(r, next) && CancelsOk(next) && g == |next.cancels| && g >= 1
            && next.cancels[g - 1].status.Pending?
  {
    PendingCancelIsLast(r);
    if PendingCancel(r.cancels).None? {
      LatestGenerationIsCount(r.cancels);
    }
  }

  lemma CancelTargetSound(cfg: Config, env: Env, db: Db, r: JobRows, now: Time)
    requires RowsOk(r, now)
    ensures var t := CancelTarget(cfg, env, db, r, now); t.Failure? ==> !Defect(t.error)
  {
    RunningAttemptIsLast(r);
  }

  lemma PlacedCancelKeeps(db: Db, j: JobId, reason: Code, now: Time)
    requires Inv(db, now) && j in db.rows && db.rows[j].job.status.Running? && RowsOk(db.rows[j], now)
    ensures var rows' := db.rows[j := PlaceCancel(db.rows[j], db.rows[j].job.attemptCount, reason, now).0];
            OnlyCancelsChange(db.rows, rows') && Inv(db.(rows := rows'), now)
  {
    PlaceCancelOk(db.rows[j], reason, now);
    var rows' := db.rows[j := PlaceCancel(db.rows[j], db.rows[j].job.attemptCount, reason, now).0];
    forall i <- db.rows ensures OnlyCancels(db.rows[i], rows'[i]) {
    }
    CancelsChangeKeeps(db, rows', now);
  }

  lemma RequestCancelInTransactionKeeps(cfg: Config, env: Env, db: Db, j: JobId, reason: Code, now: Time)
    requires Inv(db, now) && j in db.rows
    ensures match RequestCancelInTransaction(cfg, env, db, j, reason, now)
            case Success(placed) => Inv(placed.0, now) && OnlyCancelsChange(db.rows, placed.0.rows)
                                    && placed.0 == db.(rows := placed.0.rows)
            case Failure(e) => !Defect(e)
  {
    RowOf(db, j, now);
    CancelTargetSound(cfg, env, db, db.rows[j], now);
    if CancelTarget(cfg, env, db, db.rows[j], now).Success? {
      PlacedCancelKeeps(db, j, reason, now);
    }
  }

  lemma RequestCancelKeeps(cfg: Config, env: Env, db: Db, j: JobId, reason: string, now: Time)
    requires Inv(db, now)
    ensures Sound(RequestCancel(cfg, env, db, j, reason, now), now)
  {
    if j in db.rows {
      RequestCancelInTransactionKeeps(cfg, env, db, j, Reported(reason), now);
    }
  }
}
