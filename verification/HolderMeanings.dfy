/** What each call of a lease holder does to the tables, field by field, and exactly when it is accepted. */
module HolderMeanings {
  import opened Prelude
  import opened WorkerJobs
  import opened Platform
  import opened JobSteps
  import opened JobInvariants
  import opened JobProofs
  import opened HolderProofs
  import Commands

  // ----- who is served -----

  /** The job runs under exactly this worker and token, and the lease has not run out. */
  predicate Holds(db: Db, j: JobId, worker: WorkerId, token: Token, now: Time) {
    j in db.rows &&
    var job := db.rows[j].job;
    && job.status.Running? && job.lease.Some? && job.lease.value.worker == worker && job.lease.value.token == token
    && now < job.lease.value.expires
  }

  /** The holder of the job also holds its account: a live exclusive job never loses its fence. */
  lemma HolderHasFence(db: Db, j: JobId, worker: WorkerId, token: Token, now: Time)
    requires Inv(db, now) && Holds(db, j, worker, token, now)
    ensures RowsOk(db.rows[j], now) && CoordinationHeld(db.leases, j, db.rows[j].job, now)
    ensures db.rows[j].job.generation.Some? <==> db.rows[j].job.spec.Exclusive()
  {
    RowOf(db, j, now);
    assert FenceOk(j, db.rows[j].job, db.leases, now);
  }

  // ----- what a call leaves alone, and what every way of stopping shares -----

  predicate OtherJobsStay(db: Db, after: Db, j: JobId) {
    j in db.rows && after.rows.Keys == db.rows.Keys && after.workers == db.workers && forall i <- db.rows :: i != j ==> after.rows[i] == db.rows[i]
  }

  /** Everyone who waited for the job is satisfied now, and nobody else's row moves. */
  predicate WaitersServed(db: Db, after: Db, j: JobId, how: Quiescence, now: Time) {
    && after.preemptions.Keys == db.preemptions.Keys
    && forall k <- db.preemptions ::
         after.preemptions[k] == if db.preemptions[k].status.WaitingForQuiescence? && k.victim == j
                                 then Preemption(db.preemptions[k].account, Satisfied(now, how), db.preemptions[k].cancelRequest)
                                 else db.preemptions[k]
  }

  /** The account lease of an exclusive job ends now, and no other lease moves. */
  predicate AccountFreed(db: Db, after: Db, spec: JobSpec, now: Time) {
    && after.leases.Keys == db.leases.Keys
    && forall a <- db.leases ::
         after.leases[a] == if spec.Exclusive() && spec.account == Some(a)
                            then AccountLease(db.leases[a].owner, db.leases[a].operation, db.leases[a].generation, now)
                            else db.leases[a]
  }

  /** The last attempt ended so, and no other attempt moved. */
  predicate LastAttemptEnded(r: JobRows, next: JobRows, status: AttemptStatus, error: Option<Code>, now: Time) {
    && |next.attempts| == |r.attempts| > 0
    && (forall i :: 0 <= i < |r.attempts| - 1 ==> next.attempts[i] == r.attempts[i])
    && var last := r.attempts[|r.attempts| - 1];
    next.attempts[|r.attempts| - 1] == Attempt(last.number, last.worker, last.token, status, Some(now), error)
  }

  predicate RequestsLapsed(r: JobRows, next: JobRows, now: Time) {
    && |next.cancels| == |r.cancels|
    && forall i :: 0 <= i < |r.cancels| ==>
         next.cancels[i] == if r.cancels[i].status.Pending?
                            then Cancel(r.cancels[i].generation, r.cancels[i].target, r.cancels[i].reason,
                                        Superseded(now, TargetAttemptEnded))
                            else r.cancels[i]
  }

  /** The bound Command ended with this outcome and has this one result event; no other Command moved. */
  predicate CommandClosed(db: Db, after: Db, spec: JobSpec, status: Commands.CommandStatus, result: Option<Document>,
                          error: Option<Code>, now: Time)
  {
    match spec.command
    case None => after.commands == db.commands && after.results == db.results
    case Some(c) =>
      && c in db.commands && c in after.commands
      && after.commands == db.commands[c := after.commands[c]]
      && after.results == db.results[c := [ResultEvent(status, error)]]
      && var old', new' := db.commands[c], after.commands[c];
      && new'.spec == old'.spec && new'.status == status && new'.error == error && new'.completedAt == Some(now)
      && new'.result == (if status.Succeeded? then result else old'.result)
      && new'.validatedAt == old'.validatedAt && new'.startedAt == old'.startedAt
  }

  /** The bound Command moved between execution and operator, without error or event. */
  predicate CommandParked(db: Db, after: Db, spec: JobSpec, status: Commands.CommandStatus) {
    && after.results == db.results
    && match spec.command
       case None => after.commands == db.commands
       case Some(c) =>
         && c in db.commands && c in after.commands
         && after.commands == db.commands[c := after.commands[c]]
         && var old', new' := db.commands[c], after.commands[c];
         && new'.spec == old'.spec && new'.status == status && new'.error.None? && new'.completedAt == old'.completedAt
         && new'.result == old'.result
  }

  lemma AttemptOverMeans(r: JobRows, job: Job, status: AttemptStatus, error: Option<Code>, now: Time)
    requires RowsOk(r, now) && r.job.status.Running? && !status.AttemptRunning?
    ensures var over := AttemptOver(r, job, status, now, error);
            && over.Success? && over.value.job == job && over.value.interventions == r.interventions
            && LastAttemptEnded(r, over.value, status, error, now) && RequestsLapsed(r, over.value, now)
  {
    RunningAttemptIsLast(r);
    PendingCancelIsLast(r);
  }

  /** The job's rows are these now; its waiters are served, its account is free, and no other job moved. */
  predicate StopsAs(db: Db, after: Db, j: JobId, next: JobRows, how: Quiescence, now: Time) {
    && OtherJobsStay(db, after, j) && after.rows[j] == next
    && WaitersServed(db, after, j, how, now) && AccountFreed(db, after, db.rows[j].job.spec, now)
  }

  lemma StoppedMeans(db: Db, moved: Db, j: JobId, next: JobRows, how: Quiescence, worker: WorkerId, token: Token, now: Time)
    requires Inv(db, now) && Holds(db, j, worker, token, now)
    requires moved == db.(rows := db.rows[j := next], commands := moved.commands, results := moved.results)
    ensures var after := Stopped(moved, j, db.rows[j], how, now);
            StopsAs(db, after, j, next, how, now) && after.commands == moved.commands && after.results == moved.results
  {
    HolderHasFence(db, j, worker, token, now);
  }

  lemma FinalizeMeans(db: Db, stored: Db, j: JobId, status: Commands.CommandStatus, result: Option<Document>,
                      error: Option<Code>, now: Time)
    requires Inv(db, now) && j in db.rows && stored == db.(rows := stored.rows)
    requires FinalizeCommand(stored, db.rows[j].job.spec, status, now, result, error).Success?
    requires Commands.Terminal(status) && (status.Succeeded? ==> result.Some?)
    ensures var after := FinalizeCommand(stored, db.rows[j].job.spec, status, now, result, error).value;
            && CommandClosed(db, after, db.rows[j].job.spec, status, result, error, now)
            && after == stored.(commands := after.commands, results := after.results)
  {
    var spec := db.rows[j].job.spec;
    if spec.command.Some? {
      assert EventsOk(db.commands, db.results, spec.command.value);
      assert [] + [ResultEvent(status, error)] == [ResultEvent(status, error)];
    }
  }

  lemma ShiftMeans(db: Db, stored: Db, spec: JobSpec, from: Commands.CommandStatus, target: Commands.CommandStatus, now: Time)
    requires stored == db.(rows := stored.rows) && ShiftCommand(stored, spec, from, target, now).Success?
    requires from != target && (spec.command.Some? && spec.command.value in db.commands ==>
                                  db.commands[spec.command.value].status == from)
    requires !Commands.Terminal(target)
    ensures var after := ShiftCommand(stored, spec, from, target, now).value;
            CommandParked(db, after, spec, target) && after == stored.(commands := after.commands)
  {
  }

  // ----- complete -----

  /** The job succeeded with the reported result, and so did its attempt and its Command. */
  predicate CompletedWith(db: Db, after: Db, j: JobId, document: Document, now: Time) {
    j in db.rows && j in after.rows &&
    var r, next := db.rows[j], after.rows[j];
    && StopsAs(db, after, j, next, VictimSucceeded, now)
    && next.job == r.job.(status := JobStatus.Succeeded, result := Some(document), lease := None, generation := None)
    && LastAttemptEnded(r, next, AttemptSucceeded, None, now) && RequestsLapsed(r, next, now)
    && next.interventions == r.interventions
    && CommandClosed(db, after, r.job.spec, Commands.CommandStatus.Succeeded, Some(document), None, now)
  }

  /** A completion is accepted exactly from the holder, and then does exactly that. */
  lemma CompleteMeans(db: Db, j: JobId, worker: WorkerId, token: Token, document: Document, now: Time)
    requires Inv(db, now)
    ensures match Complete(db, j, worker, token, document, now)
            case Failure(_) => !Holds(db, j, worker, token, now)
            case Success(after) => Holds(db, j, worker, token, now) && CompletedWith(db, after, j, document, now)
  {
    if Holds(db, j, worker, token, now) {
      HolderHasFence(db, j, worker, token, now);
      CompleteKeeps(db, j, worker, token, document, now);
      var r := db.rows[j];
      AttemptOverMeans(r, r.job.Completed(document), AttemptSucceeded, None, now);
      var next := AttemptOver(r, r.job.Completed(document), AttemptSucceeded, now, None).value;
      var stored := db.(rows := db.rows[j := next]);
      FinalizeMeans(db, stored, j, Commands.CommandStatus.Succeeded, Some(document), None, now);
      var ended := FinalizeCommand(stored, r.job.spec, Commands.CommandStatus.Succeeded, now, Some(document), None).value;
      StoppedMeans(db, ended, j, next, VictimSucceeded, worker, token, now);
    }
  }

  // ----- fail -----

  /** An operator must decide: the outcome is unknown, or the job may only be retried after reconciliation. */
  predicate NeedsOperator(job: Job, retryable: bool, ambiguous: bool) {
    ambiguous || (retryable && job.retrySafety.ReconciliationRequired?)
  }

  predicate MayRetry(job: Job, retryable: bool, ambiguous: bool) {
    retryable && !ambiguous && job.retrySafety.SafeToRetry? && job.attemptCount < job.spec.maxAttempts
  }

  /** One more intervention of this kind is open, reported by this worker. */
  predicate InterventionOpened(r: JobRows, next: JobRows, kind: InterventionKind, worker: Option<WorkerId>) {
    next.interventions == r.interventions + [Intervention(kind, worker, Open)]
  }

  /** The job, its last attempt and its interventions after a report of a failure. */
  predicate RowsFailedWith(r: JobRows, next: JobRows, worker: WorkerId, code: Code, retryable: bool, ambiguous: bool,
                           retryAt: Time, now: Time)
  {
    var gone := r.job.(error := Some(code), lease := None, generation := None);
    && RequestsLapsed(r, next, now)
    && if NeedsOperator(r.job, retryable, ambiguous) then
         && next.job == gone.(status := JobStatus.WaitingIntervention,
                              retrySafety := if ambiguous then ReconciliationRequired else r.job.retrySafety)
         && LastAttemptEnded(r, next, AttemptWaitingIntervention, Some(code), now)
         && InterventionOpened(r, next, if ambiguous then AmbiguousOutcomeSeen else OperatorConfirmationRequired, Some(worker))
       else if MayRetry(r.job, retryable, ambiguous) then
         && next.job == gone.(status := JobStatus.FailedRetryable, scheduledAt := retryAt)
         && LastAttemptEnded(r, next, AttemptFailedRetryable, Some(code), now) && next.interventions == r.interventions
       else
         && next.job == gone.(status := JobStatus.FailedFinal)
         && LastAttemptEnded(r, next, AttemptFailedFinal, Some(code), now) && next.interventions == r.interventions
  }

  /** The Command waits for the operator, is not touched while the job is retried, or failed with the code. */
  predicate CommandFollows(db: Db, after: Db, job: Job, code: Code, now: Time) {
    if job.status.WaitingIntervention? then CommandParked(db, after, job.spec, Commands.CommandStatus.WaitingIntervention)
    else if job.status.FailedFinal? then
      CommandClosed(db, after, job.spec, Commands.CommandStatus.FailedFinal, None, Some(code), now)
    else after.commands == db.commands && after.results == db.results
  }

  predicate FailedWith(db: Db, after: Db, j: JobId, worker: WorkerId, code: Code, retryable: bool, ambiguous: bool,
                       retryAt: Time, now: Time)
  {
    && j in db.rows && j in after.rows && StopsAs(db, after, j, after.rows[j], VictimFailed, now)
    && RowsFailedWith(db.rows[j], after.rows[j], worker, code, retryable, ambiguous, retryAt, now)
    && CommandFollows(db, after, after.rows[j].job, code, now)
  }

  lemma FailedRowsMean(r: JobRows, worker: WorkerId, code: Code, retryable: bool, ambiguous: bool, retryAt: Time, now: Time)
    requires RowsOk(r, now) && r.job.status.Running?
    ensures var f := FailedRows(r, worker, code, retryable, ambiguous, retryAt, now);
            f.Success? && RowsFailedWith(r, f.value, worker, code, retryable, ambiguous, retryAt, now)
  {
    var job := r.job.Failed(code, retryable, ambiguous, retryAt);
    var status := if job.status.WaitingIntervention? then AttemptWaitingIntervention
    else if job.status.FailedRetryable? then AttemptFailedRetryable else AttemptFailedFinal;
    AttemptOverMeans(r, job, status, Some(code), now);
    OpenInterventionIsLast(r);
  }

  lemma FailedCommandMeans(db: Db, j: JobId, next: JobRows, code: Code, now: Time)
    requires Inv(db, now) && j in db.rows && db.rows[j].job.status.Running? && next.job.spec == db.rows[j].job.spec
    requires FailedCommand(db.(rows := db.rows[j := next]), next.job, code, now).Success?
    ensures var after := FailedCommand(db.(rows := db.rows[j := next]), next.job, code, now).value;
            && after == db.(rows := db.rows[j := next], commands := after.commands, results := after.results)
            && CommandFollows(db, after, next.job, code, now)
  {
    var stored := db.(rows := db.rows[j := next]);
    if next.job.status.WaitingIntervention? {
      assert InStep(db.rows[j].job, db.commands);
      ShiftMeans(db, stored, next.job.spec, Commands.CommandStatus.WaitingExecution,
                 Commands.CommandStatus.WaitingIntervention, now);
    } else if next.job.status.FailedFinal? {
      FinalizeMeans(db, stored, j, Commands.CommandStatus.FailedFinal, None, Some(code), now);
    }
  }

  /** The holder reports, with a code that says something, and a retry would not start at or past the deadline. */
  predicate ReportAccepted(cfg: Config, db: Db, j: JobId, worker: WorkerId, token: Token, code: string, retryable: bool,
                           ambiguous: bool, now: Time)
  {
    && Holds(db, j, worker, token, now) && (exists c <- code :: !(c == ' ' || '\t' <= c <= '\r'))
    && var job := db.rows[j].job;
    !(MayRetry(job, retryable, ambiguous) && job.spec.deadline.Some? && job.spec.deadline.value <= now + cfg.retryDelay)
  }

  /** A report of a failure is accepted exactly then. */
  lemma FailAccepted(cfg: Config, db: Db, j: JobId, worker: WorkerId, token: Token, code: string, retryable: bool,
                     ambiguous: bool, now: Time)
    requires Inv(db, now)
    ensures Fail(cfg, db, j, worker, token, code, retryable, ambiguous, now).Success?
            <==> ReportAccepted(cfg, db, j, worker, token, code, retryable, ambiguous, now)
  {
    FailKeeps(cfg, db, j, worker, token, code, retryable, ambiguous, now);
    if Holds(db, j, worker, token, now) {
      HolderHasFence(db, j, worker, token, now);
      if MayFail(db, j, worker, token, code, now) {
        var next := FailedRowsFit(cfg, db.rows[j], worker, Reported(code), retryable, ambiguous, now);
        FailUnfolds(cfg, db, j, worker, token, code, retryable, ambiguous, next, now);
        if next.job.Storable() {
          FailedKeeps(db, j, next, Reported(code), now);
        }
      }
    }
  }

  /** And then it does exactly this. */
  lemma FailMeans(cfg: Config, db: Db, j: JobId, worker: WorkerId, token: Token, code: string, retryable: bool,
                  ambiguous: bool, now: Time)
    requires Inv(db, now) && Fail(cfg, db, j, worker, token, code, retryable, ambiguous, now).Success?
    ensures FailedWith(db, Fail(cfg, db, j, worker, token, code, retryable, ambiguous, now).value, j, worker, Reported(code),
                       retryable, ambiguous, now + cfg.retryDelay, now)
  {
    HolderHasFence(db, j, worker, token, now);
    var r, retryAt := db.rows[j], now + cfg.retryDelay;
    FailedRowsMean(r, worker, Reported(code), retryable, ambiguous, retryAt, now);
    var next := FailedRows(r, worker, Reported(code), retryable, ambiguous, retryAt, now).value;
    FailUnfolds(cfg, db, j, worker, token, code, retryable, ambiguous, next, now);
    FailedCommandMeans(db, j, next, Reported(code), now);
    var moved := FailedCommand(db.(rows := db.rows[j := next]), next.job, Reported(code), now).value;
    StoppedMeans(db, moved, j, next, VictimFailed, worker, token, now);
    FailureAssembles(db, moved, Stopped(moved, j, r, VictimFailed, now), j, next, worker, Reported(code), retryable, ambiguous,
                     retryAt, now);
  }

  lemma FailureAssembles(db: Db, moved: Db, after: Db, j: JobId, next: JobRows, worker: WorkerId, code: Code, retryable: bool,
                         ambiguous: bool, retryAt: Time, now: Time)
    requires StopsAs(db, after, j, next, VictimFailed, now)
    requires RowsFailedWith(db.rows[j], next, worker, code, retryable, ambiguous, retryAt, now)
    requires CommandFollows(db, moved, next.job, code, now) && after.commands == moved.commands && after.results == moved.results
    ensures FailedWith(db, after, j, worker, code, retryable, ambiguous, retryAt, now)
  {
  }

  // ----- hand over to an operator -----

  predicate InterruptedWith(db: Db, after: Db, j: JobId, worker: WorkerId, kind: InterventionKind, detail: string, now: Time) {
    j in db.rows && j in after.rows &&
    var r, next := db.rows[j], after.rows[j];
    && StopsAs(db, after, j, next, InterventionRequested, now)
    && next.job == r.job.(status := JobStatus.WaitingIntervention, lease := None, generation := None,
                          retrySafety := if kind.AmbiguousOutcomeSeen? then ReconciliationRequired else r.job.retrySafety)
    && LastAttemptEnded(r, next, AttemptWaitingIntervention, Some(Reported(detail)), now) && RequestsLapsed(r, next, now)
    && InterventionOpened(r, next, kind, Some(worker))
    && CommandParked(db, after, r.job.spec, Commands.CommandStatus.WaitingIntervention)
  }

  lemma IntervenedRowsMean(r: JobRows, worker: WorkerId, kind: InterventionKind, detail: string, now: Time)
    requires RowsOk(r, now) && r.job.status.Running?
    ensures var n := IntervenedRows(r, worker, kind, detail, now);
            && n.Success? && RequestsLapsed(r, n.value, now)
            && n.value.job == r.job.(status := JobStatus.WaitingIntervention, lease := None, generation := None,
                                     retrySafety := if kind.AmbiguousOutcomeSeen? then ReconciliationRequired else r.job.retrySafety)
            && LastAttemptEnded(r, n.value, AttemptWaitingIntervention, Some(Reported(detail)), now)
            && InterventionOpened(r, n.value, kind, Some(worker))
  {
    var job := if kind.AmbiguousOutcomeSeen? then r.job.Intervened().(retrySafety := ReconciliationRequired)
    else r.job.Intervened();
    AttemptOverMeans(r, job, AttemptWaitingIntervention, Some(Reported(detail)), now);
    OpenInterventionIsLast(r);
  }

  /** Handing over is accepted exactly from the holder, for a known kind, and then does exactly that. */
  lemma RequestInterventionMeans(db: Db, j: JobId, worker: WorkerId, token: Token, kind: InterventionKind, detail: string,
                                 now: Time)
    requires Inv(db, now)
    ensures match RequestIntervention(db, j, worker, token, kind, detail, now)
            case Failure(_) => kind.UnknownKind? || !Holds(db, j, worker, token, now)
            case Success(after) =>
              && !kind.UnknownKind? && Holds(db, j, worker, token, now)
              && InterruptedWith(db, after, j, worker, kind, detail, now)
  {
    if Holds(db, j, worker, token, now) && !kind.UnknownKind? {
      HolderHasFence(db, j, worker, token, now);
      RequestInterventionKeeps(db, j, worker, token, kind, detail, now);
      var r := db.rows[j];
      IntervenedRowsMean(r, worker, kind, detail, now);
      var next := IntervenedRows(r, worker, kind, detail, now).value;
      var stored := db.(rows := db.rows[j := next]);
      assert InStep(r.job, db.commands);
      ShiftMeans(db, stored, r.job.spec, Commands.CommandStatus.WaitingExecution, Commands.CommandStatus.WaitingIntervention, now);
      var moved := ShiftCommand(stored, r.job.spec, Commands.CommandStatus.WaitingExecution,
                                Commands.CommandStatus.WaitingIntervention, now).value;
      StoppedMeans(db, moved, j, next, InterventionRequested, worker, token, now);
    }
  }

  // ----- renew and checkpoint -----

  /** Job lease and account lease end exactly one duration from now, and nothing else moves. */
  predicate RenewedUntil(db: Db, after: Db, j: JobId, expires: Time) {
    OtherJobsStay(db, after, j) &&
    var r, next := db.rows[j], after.rows[j];
    && r.job.lease.Some?
    && next == r.(job := r.job.(lease := Some(Lease(r.job.lease.value.worker, r.job.lease.value.token, expires))))
    && after == db.(rows := after.rows, leases := after.leases) && after.leases.Keys == db.leases.Keys
    && forall a <- db.leases ::
         after.leases[a] == if r.job.spec.Exclusive() && r.job.spec.account == Some(a)
                            then AccountLease(db.leases[a].owner, db.leases[a].operation, db.leases[a].generation, expires)
                            else db.leases[a]
  }

  lemma RenewMeans(cfg: Config, db: Db, j: JobId, worker: WorkerId, token: Token, now: Time)
    requires Inv(db, now)
    ensures match Renew(cfg, db, j, worker, token, now)
            case Failure(_) => !Holds(db, j, worker, token, now)
            case Success(after) => Holds(db, j, worker, token, now) && RenewedUntil(db, after, j, now + cfg.leaseDuration)
  {
    if Holds(db, j, worker, token, now) {
      HolderHasFence(db, j, worker, token, now);
    }
  }

  /** The checkpoint is stored for the holder, and nothing else moves. */
  lemma SaveCheckpointMeans(db: Db, j: JobId, worker: WorkerId, token: Token, checkpoint: Checkpoint, now: Time)
    requires Inv(db, now)
    ensures match SaveCheckpoint(db, j, worker, token, checkpoint, now)
            case Failure(_) => !Holds(db, j, worker, token, now)
            case Success(after) =>
              && Holds(db, j, worker, token, now) && j in db.rows
              && after == db.(rows := db.rows[j := db.rows[j].(job := db.rows[j].job.(checkpoint := Some(checkpoint)))])
  {
    if Holds(db, j, worker, token, now) {
      HolderHasFence(db, j, worker, token, now);
    }
  }

  // ----- acknowledge a cancel request -----

  /** The job belongs to a materialised activity: same account, type and priority, and its Command awaits execution. */
  predicate OfActivity(env: Env, db: Db, spec: JobSpec) {
    spec.command.Some? && spec.command.value.ForActivity? && spec.command.value.activity in env.activities &&
    var c, a := spec.command.value, env.activities[spec.command.value.activity];
    && a == Activity(true, Some(c), a.account, spec.capability, spec.priority) && spec.account == Some(a.account)
    && c in db.commands && db.commands[c].status.WaitingExecution?
    && db.commands[c].spec.account == a.account && db.commands[c].spec.commandType == spec.capability
    && db.commands[c].spec.priority == spec.priority
  }

  /** The job may stop at this phase: it is preemptible, and its saved checkpoint is at a phase listed as safe. */
  predicate AtSafePoint(cfg: Config, job: Job, phase: string) {
    && job.spec.preemptible && job.spec.version == 1 && job.spec.operation.Read?
    && job.spec.capability in cfg.cancellable && phase in cfg.cancellable[job.spec.capability]
    && job.checkpoint.Some? && job.checkpoint.value.phase == Some(phase)
  }

  /** The newest request is pending and has this generation. */
  predicate AskedIn(r: JobRows, generation: int) {
    && r.cancels != [] && r.cancels[|r.cancels| - 1].status.Pending? && r.cancels[|r.cancels| - 1].generation == generation
  }

  predicate CancelAccepted(cfg: Config, env: Env, db: Db, j: JobId, worker: WorkerId, token: Token, generation: int,
                           phase: string, now: Time)
  {
    && Holds(db, j, worker, token, now) && AtSafePoint(cfg, db.rows[j].job, phase) && AskedIn(db.rows[j], generation)
    && OfActivity(env, db, db.rows[j].job.spec)
  }

  predicate RowsCancelledWith(r: JobRows, next: JobRows, phase: string, now: Time) {
    r.cancels != [] && |next.cancels| == |r.cancels| &&
    var last := r.cancels[|r.cancels| - 1];
    && next.job == r.job.(status := JobStatus.Cancelled, error := Some(last.reason), lease := None, generation := None)
    && LastAttemptEnded(r, next, AttemptCancelled, Some(last.reason), now)
    && (forall i :: 0 <= i < |r.cancels| - 1 ==> next.cancels[i] == r.cancels[i])
    && next.cancels[|r.cancels| - 1] == Cancel(last.generation, last.target, last.reason, Acknowledged(now, phase))
    && next.interventions == r.interventions
  }

  predicate CancelledWith(db: Db, after: Db, j: JobId, phase: string, now: Time) {
    && j in db.rows && j in after.rows && StopsAs(db, after, j, after.rows[j], CancelAcknowledged, now)
    && RowsCancelledWith(db.rows[j], after.rows[j], phase, now)
    && CommandClosed(db, after, db.rows[j].job.spec, Commands.CommandStatus.Cancelled, None, after.rows[j].job.error, now)
  }

  lemma AcknowledgedRowsMean(cfg: Config, r: JobRows, worker: WorkerId, token: Token, generation: int, phase: string, now: Time)
    requires RowsOk(r, now) && r.job.OwnsLease(worker, token, now)
    ensures var a := AcknowledgedRows(cfg, r, worker, token, generation, phase, now);
            && (a.Success? <==> AtSafePoint(cfg, r.job, phase) && AskedIn(r, generation))
            && (a.Success? ==> RowsCancelledWith(r, a.value.0, phase, now) && a.value.0.job.error == Some(a.value.1))
  {
    RunningAttemptIsLast(r);
    PendingCancelIsLast(r);
  }

  lemma ActivityIs(env: Env, db: Db, spec: JobSpec)
    ensures ActivityLinked(env, db, spec) <==> OfActivity(env, db, spec)
  {
  }

  lemma AcknowledgeAccepted(cfg: Config, env: Env, db: Db, j: JobId, worker: WorkerId, token: Token, generation: int,
                            phase: string, now: Time)
    requires Inv(db, now)
    ensures AcknowledgeCancel(cfg, env, db, j, worker, token, generation, phase, now).Success?
            <==> CancelAccepted(cfg, env, db, j, worker, token, generation, phase, now)
  {
    AcknowledgeCancelKeeps(cfg, env, db, j, worker, token, generation, phase, now);
    if Holds(db, j, worker, token, now) {
      HolderHasFence(db, j, worker, token, now);
      AcknowledgedRowsMean(cfg, db.rows[j], worker, token, generation, phase, now);
      ActivityIs(env, db, db.rows[j].job.spec);
    }
  }

  /**
   * An acknowledgement is accepted exactly from the holder, for the pending request of that generation, at the saved safe
   * phase of an activity's job; then job, attempt and Command are cancelled for the reason that was given.
   */
  lemma AcknowledgeMeans(cfg: Config, env: Env, db: Db, j: JobId, worker: WorkerId, token: Token, generation: int,
                         phase: string, now: Time)
    requires Inv(db, now)
    ensures match AcknowledgeCancel(cfg, env, db, j, worker, token, generation, phase, now)
            case Failure(_) => !CancelAccepted(cfg, env, db, j, worker, token, generation, phase, now)
            case Success(after) =>
              CancelAccepted(cfg, env, db, j, worker, token, generation, phase, now) && CancelledWith(db, after, j, phase, now)
  {
    AcknowledgeAccepted(cfg, env, db, j, worker, token, generation, phase, now);
    if AcknowledgeCancel(cfg, env, db, j, worker, token, generation, phase, now).Success? {
      HolderHasFence(db, j, worker, token, now);
      var r := db.rows[j];
      AcknowledgedRowsMean(cfg, r, worker, token, generation, phase, now);
      var a := AcknowledgedRows(cfg, r, worker, token, generation, phase, now).value;
      var stored := db.(rows := db.rows[j := a.0]);
      FinalizeMeans(db, stored, j, Commands.CommandStatus.Cancelled, None, Some(a.1), now);
      var ended := FinalizeCommand(stored, r.job.spec, Commands.CommandStatus.Cancelled, now, None, Some(a.1)).value;
      StoppedMeans(db, ended, j, a.0, CancelAcknowledged, worker, token, now);
    }
  }

  // ----- ask a holder to stop -----

  /** The job can be asked to stop: it runs on an unexpired lease, is preemptible, and is an activity's job of a kind that can. */
  predicate CanBeAsked(cfg: Config, env: Env, db: Db, j: JobId, now: Time) {
    j in db.rows &&
    var job := db.rows[j].job;
    && job.status.Running? && job.lease.Some? && now < job.lease.value.expires && job.spec.preemptible
    && job.spec.version == 1 && job.spec.operation.Read?
    && job.spec.capability in cfg.cancellable && cfg.cancellable[job.spec.capability] != {}
    && OfActivity(env, db, job.spec)
  }

  /** One pending request for the running attempt: the one that was there, or a new one of the next generation. */
  predicate AskedFor(r: JobRows, next: JobRows, reason: Code) {
    && next.job == r.job && next.attempts == r.attempts && next.interventions == r.interventions
    && if r.cancels != [] && r.cancels[|r.cancels| - 1].status.Pending? then next.cancels == r.cancels
       else next.cancels == r.cancels + [Cancel(|r.cancels| + 1, r.job.attemptCount, reason, Pending)]
  }

  lemma PlaceCancelMeans(r: JobRows, reason: Code, now: Time)
    requires RowsOk(r, now) && r.job.status.Running?
    ensures AskedFor(r, PlaceCancel(r, r.job.attemptCount, reason, now).0, reason)
  {
    PendingCancelIsLast(r);
    if PendingCancel(r.cancels).None? {
      LatestGenerationIsCount(r.cancels);
    }
  }

  lemma CancelTargetMeans(cfg: Config, env: Env, db: Db, j: JobId, now: Time)
    requires Inv(db, now) && j in db.rows
    ensures CancelTarget(cfg, env, db, db.rows[j], now).Success? <==> CanBeAsked(cfg, env, db, j, now)
  {
    RowOf(db, j, now);
    RunningAttemptIsLast(db.rows[j]);
    ActivityIs(env, db, db.rows[j].job.spec);
  }

  /** A request to stop is accepted exactly for a job that can be asked, with a reason code, and only adds that request. */
  lemma RequestCancelMeans(cfg: Config, env: Env, db: Db, j: JobId, reason: string, now: Time)
    requires Inv(db, now)
    ensures var accepted := && CanBeAsked(cfg, env, db, j, now) && 1 <= |reason| <= 120
                            && forall c <- reason :: 'A' <= c <= 'Z' || '0' <= c <= '9' || c == '_';
            match RequestCancel(cfg, env, db, j, reason, now)
            case Failure(_) => !accepted
            case Success(after) =>
              && accepted && after == db.(rows := after.rows) && OtherJobsStay(db, after, j)
              && AskedFor(db.rows[j], after.rows[j], Reported(reason))
  {
    if j in db.rows {
      RowOf(db, j, now);
      CancelTargetMeans(cfg, env, db, j, now);
      if db.rows[j].job.status.Running? {
        PlaceCancelMeans(db.rows[j], Reported(reason), now);
      }
    }
  }
}
