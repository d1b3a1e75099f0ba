/**
 * The WorkerJob service as it is written: every method works on a private copy of the tables, updates job and
 * Command objects in place, runs its loops, and commits only at the end (application/worker_jobs.py).
 */
module JobService {
  import opened Prelude
  import opened WorkerJobs
  import opened Platform
  import opened JobSteps
  import Commands

  // ----- sets of rows at once are loops over rows -----

  function SatisfyAll(ps: map<Pair, Preemption>, s: set<Pair>, now: Time, how: Quiescence): map<Pair, Preemption> {
    map k | k in ps :: if k in s then ps[k].(status := Satisfied(now, how)) else ps[k]
  }

  /** `_satisfy_preemptions_for_victim`. */
  method SatisfyPreemptions(ps: map<Pair, Preemption>, victim: JobId, now: Time, how: Quiescence)
    returns (next: map<Pair, Preemption>)
    ensures next == SatisfyForVictim(ps, victim, now, how)
  {
    var waiting := WaitingForVictim(ps, victim);
    var todo := waiting;
    next := ps;
    while todo != {}
      invariant todo <= waiting && next == SatisfyAll(ps, waiting - todo, now, how)
      decreases |todo|
    {
      var k :| k in todo;
      next := next[k := next[k].(status := Satisfied(now, how))];
      todo := todo - {k};
      assert next == SatisfyAll(ps, waiting - todo, now, how);
    }
    assert waiting - {} == waiting;
  }

  /** `_supersede_preemptions_for_preemptor`, first loop. */
  method SupersedeWaiting(ps: map<Pair, Preemption>, s: set<Pair>, now: Time) returns (next: map<Pair, Preemption>)
    requires forall k <- s :: k in ps
    ensures next == SupersedeAll(ps, s, now)
  {
    var todo := s;
    next := ps;
    while todo != {}
      invariant todo <= s && next == SupersedeAll(ps, s - todo, now)
      decreases |todo|
    {
      var k :| k in todo;
      next := next[k := next[k].(status := PreemptorEnded(now))];
      todo := todo - {k};
      assert next == SupersedeAll(ps, s - todo, now);
    }
    assert s - {} == s;
  }

  /** The rows once the victims in `s` with no other waiter lost their pending request. */
  function Relieved(rows: map<JobId, JobRows>, ps: map<Pair, Preemption>, s: set<JobId>, now: Time): map<JobId, JobRows> {
    map j | j in rows ::
      if j in s && WaitingForVictim(ps, j) == {} then SupersedePending(rows[j], now, PreemptionNoLongerPending) else rows[j]
  }

  lemma RelieveOne(rows: map<JobId, JobRows>, ps: map<Pair, Preemption>, s: set<JobId>, v: JobId, now: Time)
    requires v !in s
    ensures var before := Relieved(rows, ps, s, now);
            Relieved(rows, ps, s + {v}, now)
            == if v in before && WaitingForVictim(ps, v) == {}
               then before[v := SupersedePending(before[v], now, PreemptionNoLongerPending)] else before
  {
  }

  method RelieveVictims(rows: map<JobId, JobRows>, ps: map<Pair, Preemption>, victims: set<JobId>, now: Time)
    returns (next: map<JobId, JobRows>)
    ensures next == Relieved(rows, ps, victims, now)
  {
    var todo := victims;
    next := rows;
    assert victims - todo == {};
    assert next == Relieved(rows, ps, {}, now);
    while todo != {}
      invariant todo <= victims && next == Relieved(rows, ps, victims - todo, now)
      decreases |todo|
    {
      var v :| v in todo;
      RelieveOne(rows, ps, victims - todo, v, now);
      assert victims - (todo - {v}) == (victims - todo) + {v};
      if v in next && WaitingForVictim(ps, v) == {} {
        next := next[v := SupersedePending(next[v], now, PreemptionNoLongerPending)];
      }
      todo := todo - {v};
    }
    assert victims - {} == victims;
  }

  lemma RelievedByPairs(db: Db, preemptor: JobId, ps: map<Pair, Preemption>, dropped: set<Pair>, victims: set<JobId>, now: Time)
    requires dropped == WaitingForPreemptor(db.preemptions, preemptor) && ps == SupersedeAll(db.preemptions, dropped, now)
    requires forall j :: j in victims <==> Pair(preemptor, j) in dropped
    ensures db.(preemptions := ps, rows := Relieved(db.rows, ps, victims, now)) == SupersedeForPreemptor(db, preemptor, now)
  {
    assert Relieved(db.rows, ps, victims, now) == SupersedeForPreemptor(db, preemptor, now).rows;
  }

  /** `_supersede_preemptions_for_preemptor`. */
  method SupersedePreemptions(db: Db, preemptor: JobId, now: Time) returns (next: Db)
    ensures next == SupersedeForPreemptor(db, preemptor, now)
  {
    var dropped := WaitingForPreemptor(db.preemptions, preemptor);
    var ps := SupersedeWaiting(db.preemptions, dropped, now);
    var victims := set k | k in dropped :: k.victim;
    var rows := RelieveVictims(db.rows, ps, victims, now);
    forall j ensures j in victims <==> Pair(preemptor, j) in dropped {
      if Pair(preemptor, j) in dropped {
        assert Pair(preemptor, j).victim == j;
      }
    }
    RelievedByPairs(db, preemptor, ps, dropped, victims, now);
    next := db.(preemptions := ps, rows := rows);
  }

  // ----- Commands -----

  /** Loads a Command, moves it and writes it back. */
  method TransitionCommand(commands: CommandTable, c: CommandId, target: Commands.CommandStatus, now: Time,
                           error: Option<Code>, result: Option<Document>)
    returns (r: Step<CommandTable>)
    requires c in commands
    ensures r == MoveCommand(commands, c, target, now, error, result)
  {
    var command := new Commands.Command.Load(commands[c]);
    var refused := command.Transition(target, now, error, result, None);
    r := if refused.Some? then Failure(InvalidCommandTransition) else Success(commands[c := command.Row()]);
  }

  method FinishRow(commands: CommandTable, results: Outbox, c: CommandId, target: Commands.CommandStatus, now: Time,
                   result: Option<Document>, error: Option<Code>)
    returns (r: Step<(CommandTable, Outbox)>)
    ensures r == EndCommand(commands, results, c, target, now, result, error)
  {
    if c !in commands {
      return Failure(JobCommandMissing);
    }
    if !(commands[c].status.WaitingExecution? || commands[c].status.WaitingIntervention?) {
      return Failure(CommandStateConflict);
    }
    var moved := TransitionCommand(commands, c, target, now, error, result);
    if moved.Failure? {
      return Failure(moved.error);
    }
    var sent := if c in results then results[c] else [];
    r := Success((moved.value, results[c := sent + [ResultEvent(target, error)]]));
  }

  /** `_finalize_command`: one transition and one result event. */
  method FinishCommand(db: Db, spec: JobSpec, target: Commands.CommandStatus, now: Time, result: Option<Document>,
                       error: Option<Code>)
    returns (r: Step<Db>)
    ensures r == FinalizeCommand(db, spec, target, now, result, error)
  {
    if spec.command.None? {
      return Success(db);
    }
    var ended := FinishRow(db.commands, db.results, spec.command.value, target, now, result, error);
    r := if ended.Success? then Success(db.(commands := ended.value.0, results := ended.value.1)) else Failure(ended.error);
  }

  method ShiftRow(commands: CommandTable, c: CommandId, from: Commands.CommandStatus, target: Commands.CommandStatus, now: Time)
    returns (r: Step<CommandTable>)
    ensures r == ShiftedCommands(commands, c, from, target, now)
  {
    if c !in commands {
      return Failure(JobCommandMissing);
    }
    if commands[c].status == from {
      r := TransitionCommand(commands, c, target, now, None, None);
    } else {
      r := if commands[c].status == target then Success(commands) else Failure(CommandStateConflict);
    }
  }

  /** `_set_command_waiting_intervention` and `_set_command_waiting_execution`. */
  method MoveCommandBetween(db: Db, spec: JobSpec, from: Commands.CommandStatus, target: Commands.CommandStatus, now: Time)
    returns (r: Step<Db>)
    ensures r == ShiftCommand(db, spec, from, target, now)
  {
    if spec.command.None? {
      return Success(db);
    }
    var shifted := ShiftRow(db.commands, spec.command.value, from, target, now);
    r := if shifted.Success? then Success(db.(commands := shifted.value)) else Failure(shifted.error);
  }

  /** A call either commits exactly what its step says, or leaves the tables alone and reports the step's error. */
  ghost predicate Did(step: Step<Db>, before: Db, after: Db, r: Result<(), Error>) {
    match step
    case Success(next) => r.Success? && after == next
    case Failure(e) => r == Failure(e) && after == before
  }

  class WorkerJobService {
    const cfg: Config
    var db: Db

    constructor (cfg: Config)
      ensures this.cfg == cfg && db == EMPTY_DB
    {
      this.cfg := cfg;
      db := EMPTY_DB;
    }

    method Renew(j: JobId, worker: WorkerId, token: Token, now: Time) returns (r: Result<(), Error>)
      modifies this
      ensures Did(JobSteps.Renew(cfg, old(db), j, worker, token, now), old(db), db, r)
    {
      if j !in db.rows {
        return Failure(WorkerJobNotFound);
      }
      var job := new WorkerJob.Load(db.rows[j].job);
      if !job.Row().OwnsLease(worker, token, now) {
        return Failure(LeaseLost);
      }
      if !CoordinationHeld(db.leases, j, job.Row(), now) {
        return Failure(AccountCoordinationLost);
      }
      var tx, expires := db, now + cfg.leaseDuration;
      if job.spec.Exclusive() {
        tx := tx.(leases := SetExpiry(tx.leases, job.spec.account.value, JobOwner(j), job.generation.value, now, expires));
      }
      var _ := job.Renew(worker, token, now, expires);
      if !job.Row().Storable() {
        return Failure(CheckViolation);
      }
      db := tx.(rows := tx.rows[j := tx.rows[j].(job := job.Row())]);
      r := Success(());
    }

    method SaveCheckpoint(j: JobId, worker: WorkerId, token: Token, checkpoint: Checkpoint, now: Time)
      returns (r: Result<(), Error>)
      modifies this
      ensures Did(JobSteps.SaveCheckpoint(old(db), j, worker, token, checkpoint, now), old(db), db, r)
    {
      if j !in db.rows {
        return Failure(WorkerJobNotFound);
      }
      var job := new WorkerJob.Load(db.rows[j].job);
      if !job.Row().OwnsLease(worker, token, now) {
        return Failure(LeaseLost);
      }
      if !CoordinationHeld(db.leases, j, job.Row(), now) {
        return Failure(AccountCoordinationLost);
      }
      var _ := job.SaveCheckpoint(worker, token, now, checkpoint);
      if !job.Row().Storable() {
        return Failure(CheckViolation);
      }
      db := db.(rows := db.rows[j := db.rows[j].(job := job.Row())]);
      r := Success(());
    }

    /** What every way to stop ends with. */
    method Stop(tx: Db, j: JobId, before: JobRows, how: Quiescence, now: Time) returns (next: Db)
      ensures next == Stopped(tx, j, before, how, now)
    {
      var ps := SatisfyPreemptions(tx.preemptions, j, now, how);
      next := tx.(preemptions := ps, leases := ReleaseCoordination(tx.leases, j, before.job.spec, before.job.generation, now));
    }

    method Complete(j: JobId, worker: WorkerId, token: Token, document: Document, now: Time) returns (r: Result<(), Error>)
      modifies this
      ensures Did(JobSteps.Complete(old(db), j, worker, token, document, now), old(db), db, r)
    {
      if j !in db.rows {
        return Failure(WorkerJobNotFound);
      }
      var rows := db.rows[j];
      var job := new WorkerJob.Load(rows.job);
      if !CoordinationHeld(db.leases, j, job.Row(), now) {
        return Failure(AccountCoordinationLost);
      }
      var owned := job.Complete(worker, token, now, document);
      if !owned {
        return Failure(LeaseLost);
      }
      var next := AttemptOver(rows, job.Row(), AttemptSucceeded, now, None);
      if next.Failure? {
        return Failure(next.error);
      }
      if !job.Row().Storable() {
        return Failure(CheckViolation);
      }
      var tx := db.(rows := db.rows[j := next.value]);
      var ended := FinishCommand(tx, rows.job.spec, Commands.CommandStatus.Succeeded, now, Some(document), None);
      if ended.Failure? {
        return Failure(ended.error);
      }
      db := Stop(ended.value, j, rows, VictimSucceeded, now);
      r := Success(());
    }

    /** The rows of a job that its holder may report on, or why not. */
    method HeldRows(j: JobId, worker: WorkerId, token: Token, now: Time) returns (r: Step<JobRows>)
      ensures r == if j !in db.rows then Failure(WorkerJobNotFound)
                   else if !CoordinationHeld(db.leases, j, db.rows[j].job, now) then Failure(AccountCoordinationLost)
                   else if !db.rows[j].job.OwnsLease(worker, token, now) then Failure(LeaseLost)
                   else Success(db.rows[j])
    {
      if j !in db.rows {
        return Failure(WorkerJobNotFound);
      }
      if !CoordinationHeld(db.leases, j, db.rows[j].job, now) {
        return Failure(AccountCoordinationLost);
      }
      if !db.rows[j].job.OwnsLease(worker, token, now) {
        return Failure(LeaseLost);
      }
      r := Success(db.rows[j]);
    }

    method Fail(j: JobId, worker: WorkerId, token: Token, code: string, retryable: bool, ambiguous: bool, now: Time)
      returns (r: Result<(), Error>)
      modifies this
      ensures Did(JobSteps.Fail(cfg, old(db), j, worker, token, code, retryable, ambiguous, now), old(db), db, r)
    {
      var held := HeldRows(j, worker, token, now);
      if held.Failure? {
        return Failure(held.error);
      }
      if Blank(code) {
        return Failure(InvalidErrorCode);
      }
      var rows := held.value;
      var job := new WorkerJob.Load(rows.job);
      var next := FailRows(rows, job, worker, token, Reported(code), retryable, ambiguous, now);
      if next.Failure? {
        return Failure(next.error);
      }
      var stored := StoreFailure(j, rows, next.value, Reported(code), now);
      if stored.Failure? {
        return Failure(stored.error);
      }
      db := stored.value;
      r := Success(());
    }

    method StoreFailure(j: JobId, rows: JobRows, next: JobRows, code: Code, now: Time) returns (r: Step<Db>)
      ensures r == FailStored(db, j, rows, next, code, now)
    {
      if !next.job.Storable() {
        return Failure(CheckViolation);
      }
      var moved := FollowFailure(db.(rows := db.rows[j := next]), next.job, code, now);
      if moved.Failure? {
        return Failure(moved.error);
      }
      var stopped := Stop(moved.value, j, rows, VictimFailed, now);
      r := Success(stopped);
    }

    /** The job, its attempt and its intervention after a reported failure. */
    method FailRows(rows: JobRows, job: WorkerJob, worker: WorkerId, token: Token, code: Code, retryable: bool, ambiguous: bool,
                    now: Time)
      returns (r: Step<JobRows>)
      requires job.Row() == rows.job && rows.job.OwnsLease(worker, token, now)
      modifies job
      ensures r == FailedRows(rows, worker, code, retryable, ambiguous, now + cfg.retryDelay, now)
    {
      var _ := job.Fail(worker, token, now, code, retryable, ambiguous, now + cfg.retryDelay);
      var end := if job.status.WaitingIntervention? then AttemptWaitingIntervention
      else if job.status.FailedRetryable? then AttemptFailedRetryable else AttemptFailedFinal;
      r := AttemptOver(rows, job.Row(), end, now, Some(code));
      if r.Success? && job.status.WaitingIntervention? {
        r := Success(AddIntervention(r.value, if ambiguous then AmbiguousOutcomeSeen else OperatorConfirmationRequired,
                                     Some(worker)));
      }
    }

    method FollowFailure(tx: Db, job: Job, code: Code, now: Time) returns (r: Step<Db>)
      ensures r == FailedCommand(tx, job, code, now)
    {
      if job.status.WaitingIntervention? {
        r := MoveCommandBetween(tx, job.spec, Commands.CommandStatus.WaitingExecution,
                                Commands.CommandStatus.WaitingIntervention, now);
      } else if job.status.FailedFinal? {
        r := FinishCommand(tx, job.spec, Commands.CommandStatus.FailedFinal, now, None, Some(code));
      } else {
        r := Success(tx);
      }
    }

    method RequestIntervention(j: JobId, worker: WorkerId, token: Token, kind: InterventionKind, detail: string, now: Time)
      returns (r: Result<(), Error>)
      modifies this
      ensures Did(JobSteps.RequestIntervention(old(db), j, worker, token, kind, detail, now), old(db), db, r)
    {
      if kind.UnknownKind? {
        return Failure(InterventionTypeUnsupported);
      }
      if j !in db.rows {
        return Failure(WorkerJobNotFound);
      }
      var rows := db.rows[j];
      var job := new WorkerJob.Load(rows.job);
      if !CoordinationHeld(db.leases, j, job.Row(), now) {
        return Failure(AccountCoordinationLost);
      }
      var owned := job.RequireIntervention(worker, token, now);
      if !owned {
        return Failure(LeaseLost);
      }
      if kind.AmbiguousOutcomeSeen? {
        job.retrySafety := ReconciliationRequired;
      }
      var over := AttemptOver(rows, job.Row(), AttemptWaitingIntervention, now, Some(Reported(detail)));
      if over.Failure? {
        return Failure(over.error);
      }
      if !job.Row().Storable() {
        return Failure(CheckViolation);
      }
      var tx := db.(rows := db.rows[j := AddIntervention(over.value, kind, Some(worker))]);
      var moved := MoveCommandBetween(tx, job.spec, Commands.CommandStatus.WaitingExecution,
                                      Commands.CommandStatus.WaitingIntervention, now);
      if moved.Failure? {
        return Failure(moved.error);
      }
      db := Stop(moved.value, j, rows, InterventionRequested, now);
      r := Success(());
    }

    method AcknowledgeCancel(env: Env, j: JobId, worker: WorkerId, token: Token, generation: int, phase: string, now: Time)
      returns (r: Result<(), Error>)
      modifies this
      ensures Did(JobSteps.AcknowledgeCancel(cfg, env, old(db), j, worker, token, generation, phase, now), old(db), db, r)
    {
      if j !in db.rows {
        return Failure(WorkerJobNotFound);
      }
      var rows := db.rows[j];
      var acknowledged := AcknowledgedRows(cfg, rows, worker, token, generation, phase, now);
      if acknowledged.Failure? {
        return Failure(acknowledged.error);
      }
      if !ActivityLinked(env, db, rows.job.spec) {
        return Failure(NotMaterializedActivity);
      }
      var job := new WorkerJob.Load(rows.job);
      var cancelled := job.Cancel(worker, token, now, acknowledged.value.1);
      assert cancelled && acknowledged.value.0.job == job.Row();
      if !job.Row().Storable() {
        return Failure(CheckViolation);
      }
      var tx := db.(rows := db.rows[j := acknowledged.value.0.(job := job.Row())]);
      var ended := FinishCommand(tx, rows.job.spec, Commands.CommandStatus.Cancelled, now, None, Some(acknowledged.value.1));
      if ended.Failure? {
        return Failure(ended.error);
      }
      db := Stop(ended.value, j, rows, CancelAcknowledged, now);
      r := Success(());
    }

    method RequestCancel(env: Env, j: JobId, reason: string, now: Time) returns (r: Result<(), Error>)
      modifies this
      ensures Did(JobSteps.RequestCancel(cfg, env, old(db), j, reason, now), old(db), db, r)
    {
      if !ReasonCode(reason) {
        return Failure(CancelReasonInvalid);
      }
      if j !in db.rows {
        return Failure(WorkerJobNotFound);
      }
      var rows := db.rows[j];
      var target := CancelTarget(cfg, env, db, rows, now);
      if target.Failure? {
        return Failure(target.error);
      }
      var pending := PendingCancel(rows.cancels);
      if pending.Some? {
        if rows.cancels[pending.value].target == target.value {
          assert db.rows[j := rows] == db.rows;
          return Success(());
        }
        rows := SupersedePending(rows, now, TargetAttemptEnded);
      }
      var request := Cancel(LatestGeneration(rows.cancels) + 1, target.value, Reported(reason), Pending);
      db := db.(rows := db.rows[j := rows.(cancels := rows.cancels + [request])]);
      r := Success(());
    }

    method ResolveIntervention(j: JobId, i: nat, requeue: bool, confirmed: bool, now: Time) returns (r: Result<(), Error>)
      modifies this
      ensures Did(JobSteps.ResolveIntervention(old(db), j, i, requeue, confirmed, now), old(db), db, r)
    {
      if j !in db.rows || i >= |db.rows[j].interventions| {
        return Failure(InterventionNotFound);
      }
      var rows := db.rows[j];
      if !rows.interventions[i].status.Open? {
        return Failure(InterventionAlreadyResolved);
      }
      var job := new WorkerJob.Load(rows.job);
      var resolved := job.ResolveIntervention(now, requeue, confirmed);
      if !resolved {
        return Failure(RequeueNotSafe);
      }
      if !job.Row().Storable() {
        return Failure(CheckViolation);
      }
      var tx := db.(rows := db.rows[j := CloseIntervention(rows, i, Resolved).(job := job.Row())]);
      if requeue {
        var moved := MoveCommandBetween(tx, job.spec, Commands.CommandStatus.WaitingIntervention,
                                        Commands.CommandStatus.WaitingExecution, now);
        if moved.Failure? {
          return Failure(moved.error);
        }
        db := moved.value;
      } else {
        var ended := FinishCommand(tx, job.spec, Commands.CommandStatus.FailedFinal, now, None, job.error);
        if ended.Failure? {
          return Failure(ended.error);
        }
        db := SupersedePreemptions(ended.value, j, now);
      }
      r := Success(());
    }

    /** One row of the recovery loop. */
    method Recover(tx: Db, j: JobId, now: Time) returns (r: Step<Db>)
      requires j in tx.rows
      ensures r == RecoverOne(tx, j, now)
    {
      var rows := tx.rows[j];
      var job := new WorkerJob.Load(rows.job);
      var released := tx.(leases := ReleaseCoordination(tx.leases, j, job.spec, job.generation, now));
      if job.spec.PastDeadline(now) {
        job.Expire(JobDeadlineExpired);
        var over := RecoveredRows(rows, job.Row(), AttemptFailedFinal, JobDeadlineExpired, now);
        var open := OpenIntervention(over.interventions);
        if open.Some? {
          over := CloseIntervention(over, open.value, InterventionCancelled);
        }
        r := EndJob(released, j, over, Commands.CommandStatus.Expired, JobDeadlineExpired, now);
      } else if job.attemptCount >= job.spec.maxAttempts {
        job.FinalizeFailure(AttemptsExhausted);
        var over := RecoveredRows(rows, job.Row(), AttemptFailedFinal, AttemptsExhausted, now);
        r := EndJob(released, j, over, Commands.CommandStatus.FailedFinal, AttemptsExhausted, now);
      } else if job.status.Running? && job.retrySafety.ReconciliationRequired? {
        var owner := if job.lease.Some? then Some(job.lease.value.worker) else job.spec.assignee;
        var _ := job.Suspend(AmbiguousOutcome);
        var over := RecoveredRows(rows, job.Row(), AttemptWaitingIntervention, AmbiguousOutcome, now);
        if !job.Row().Storable() {
          return Failure(CheckViolation);
        }
        r := MoveCommandBetween(released.(rows := released.rows[j := AddIntervention(over, AmbiguousOutcomeSeen, owner)]),
                                job.spec, Commands.CommandStatus.WaitingExecution,
                                Commands.CommandStatus.WaitingIntervention, now);
      } else {
        r := Success(tx.(rows := tx.rows[j := SupersedePending(rows, now, TargetAttemptEnded)]));
      }
    }

    method EndJob(tx: Db, j: JobId, next: JobRows, target: Commands.CommandStatus, code: Code, now: Time) returns (r: Step<Db>)
      ensures r == EndRecovered(tx, j, next, target, code, now)
    {
      if !next.job.Storable() {
        return Failure(CheckViolation);
      }
      var ended := FinishCommand(tx.(rows := tx.rows[j := next]), next.job.spec, target, now, None, Some(code));
      if ended.Failure? {
        return Failure(ended.error);
      }
      var relieved := SupersedePreemptions(ended.value, j, now);
      r := Success(relieved);
    }

    /** The recovery loop; the first error rolls the whole batch back. */
    method RecoverExpired(batch: seq<JobId>, now: Time) returns (r: Result<(), Error>)
      modifies this
      ensures Did(JobSteps.RecoverExpired(old(db), batch, now), old(db), db, r)
    {
      var tx := db;
      for i := 0 to |batch|
        invariant db == old(db)
        invariant JobSteps.RecoverExpired(db, batch, now) == JobSteps.RecoverExpired(tx, batch[i..], now)
      {
        var j := batch[i];
        assert batch[i..][0] == j && batch[i..][1..] == batch[i + 1..];
        if j in tx.rows && Recoverable(tx.rows[j].job, now) {
          var next := Recover(tx, j, now);
          if next.Failure? {
            return Failure(next.error);
          }
          tx := next.value;
        }
      }
      db := tx;
      r := Success(());
    }

    // ----- enqueue -----

    /** The new row and its Command's first move. */
    method AddRow(env: Env, j: JobId, q: EnqueueRequest, now: Time) returns (r: Step<Db>)
      ensures r == AddJob(env, db, j, q, now)
    {
      var job := NewJob(env, db, q, now);
      if job.Failure? {
        return Failure(job.error);
      }
      var commands := db.commands;
      if q.command.Some? && commands[q.command.value].status.Validated? {
        var moved := TransitionCommand(commands, q.command.value, Commands.CommandStatus.WaitingExecution, now, None, None);
        if moved.Failure? {
          return Failure(moved.error);
        }
        commands := moved.value;
      }
      if j in db.rows || (q.command.Some? && CommandTaken(db.rows, q.command.value)) {
        return Failure(UniqueViolation);
      }
      r := Success(db.(commands := commands, rows := db.rows[j := JobRows(job.value, [], [], [])]));
    }

    /** `_arbitrate_high_priority_job`: the loop over the running browser jobs of the account. */
    method ArbitrateRunning(env: Env, before: Db, p: JobId, account: AccountId, now: Time) returns (tx: Db)
      requires p in before.rows
      ensures tx == Arbitrate(cfg, env, before, p, account, RunningBrowser(before.rows, account), now)
    {
      var todo := RunningBrowser(before.rows, account);
      tx := before;
      while todo != {}
        invariant p in tx.rows
        invariant Arbitrate(cfg, env, before, p, account, RunningBrowser(before.rows, account), now)
                  == Arbitrate(cfg, env, tx, p, account, todo, now)
        decreases |todo|
      {
        ArbitrateUnfolds(cfg, env, tx, p, account, todo, now);
        var v := Least(todo);
        tx := ArbitrateOne(cfg, env, tx, p, account, v, now);
        todo := todo - {v};
      }
    }

    method Enqueue(env: Env, j: JobId, q: EnqueueRequest, now: Time) returns (r: Result<(), Error>)
      modifies this
      ensures Did(JobSteps.Enqueue(cfg, env, old(db), j, q, now), old(db), db, r)
    {
      if Blocked(cfg, q.capability) {
        return Failure(CapabilityBlocked);
      }
      var added := AddRow(env, j, q, now);
      if added.Failure? {
        return Failure(added.error);
      }
      var done := PrioritizeRow(env, added.value, j, now);
      if done.Failure? {
        return Failure(done.error);
      }
      db := done.value;
      r := Success(());
    }

    method PrioritizeRow(env: Env, tx: Db, j: JobId, now: Time) returns (r: Step<Db>)
      requires j in tx.rows
      ensures r == Prioritize(cfg, env, tx, j, now)
    {
      var spec := tx.rows[j].job.spec;
      if spec.command.None? || spec.command.value !in tx.commands
         || tx.commands[spec.command.value].spec.priority != HIGH_PRIORITY {
        return Success(tx);
      }
      if !RouteTrusted(env, tx, spec) {
        return Failure(RouteNotTrusted);
      }
      if !(spec.account.Some? && spec.affinity) {
        return Failure(HighPriorityAffinityRequired);
      }
      if !BrowserJob(spec) {
        return Success(tx);
      }
      if spec.account.value !in env.accounts {
        return Failure(AccountNotFound);
      }
      var arbitrated := ArbitrateRunning(env, tx, j, spec.account.value, now);
      r := Success(arbitrated);
    }

    // ----- claim -----

    /** `list_claimable`: the ordered, limited listing. */
    method ListClaimable(env: Env, worker: WorkerId, w: WorkerNode, now: Time) returns (list: seq<JobId>)
      ensures list == Candidates(db, env, worker, w, now)
    {
      var all := Claimable(db, env, worker, w, now);
      var rest := all;
      list := [];
      while rest != {} && |list| < CLAIM_LIMIT
        invariant rest <= db.rows.Keys && |list| <= CLAIM_LIMIT
        invariant Ordered(db.rows, all) == list + Ordered(db.rows, rest)
        decreases |rest|
      {
        LeaderExists(db.rows, rest);
        var m :| Leads(db.rows, rest, m);
        LeaderComesFirst(db.rows, rest, m, list);
        list := list + [m];
        rest := rest - {m};
      }
      ListingIsPrefix(db.rows, all, list, rest);
    }

    /** One candidate of the claim loop. */
    method TryClaim(env: Env, tx: Db, c: JobId, worker: WorkerId, w: WorkerNode, now: Time, token: Token) returns (r: Claim)
      requires c in tx.rows
      ensures r == ClaimOne(cfg, env, tx, c, worker, w, now, token)
    {
      var spec := tx.rows[c].job.spec;
      if !PolicyAllowsClaim(cfg, env, tx, spec, worker) || !BrowserGate(env, tx, c, worker, w, now) {
        return Skipped(tx);
      }
      var leases := tx.leases;
      if spec.Exclusive() {
        var won := TryAcquire(leases, spec.account.value, JobOwner(c), spec.operation, now, now + cfg.leaseDuration);
        if won.None? {
          return Skipped(tx);
        }
        leases := won.value;
      }
      r := TakeJob(env, tx, c, leases, worker, now, token);
    }

    method TakeJob(env: Env, tx: Db, c: JobId, leases: map<AccountId, AccountLease>, worker: WorkerId, now: Time, token: Token)
      returns (r: Claim)
      requires c in tx.rows
      ensures r == Take(cfg, env, tx, c, leases, worker, now, token)
    {
      var rows := tx.rows[c];
      var fence := FenceIn(leases, rows.job.spec);
      var next := ClaimRows(rows, fence, worker, now, token);
      if next.None? {
        return Skipped(tx.(rows := tx.rows[c := Lapsed(rows, now)],
                       leases := ReleaseCoordination(leases, c, rows.job.spec, fence, now)));
      }
      if !next.value.job.Storable() {
        return Aborted(CheckViolation);
      }
      if TokenUsed(tx.rows, token) || (exists a <- rows.attempts :: a.number == next.value.job.attemptCount) {
        return Aborted(UniqueViolation);
      }
      r := Taken(RequestCancelForWaiting(cfg, env, tx.(leases := leases, rows := tx.rows[c := next.value]), c, now));
    }

    /** The claim of the job object and its new attempt; the pending request of an expired lease lapses first. */
    method ClaimRows(rows: JobRows, fence: Option<int>, worker: WorkerId, now: Time, token: Token) returns (r: Option<JobRows>)
      ensures r == TakenRows(cfg, rows, fence, worker, now, token)
    {
      var lapsed := Lapsed(rows, now);
      var job := new WorkerJob.Load(lapsed.job);
      var claimed := job.Claim(worker, now, now + cfg.leaseDuration, token, fence);
      r := if claimed then Some(ClaimedRows(lapsed, job.Row(), worker, token, now)) else None;
    }

    /** The candidate loop, left at the first job taken. */
    method ClaimNext(env: Env, worker: WorkerId, now: Time, token: Token) returns (r: Result<Option<JobId>, Error>)
      modifies this
      ensures match JobSteps.ClaimNext(cfg, env, old(db), worker, now, token)
              case Success(v) => r == Success(v.1) && db == v.0
              case Failure(e) => r == Failure(e) && db == old(db)
    {
      if worker !in db.workers {
        return Failure(WorkerNotFound);
      }
      var w := db.workers[worker];
      if !Eligible(w, now) {
        return Failure(WorkerNotEligible);
      }
      var list := ListClaimable(env, worker, w, now);
      var tx := db;
      for i := 0 to |list|
        invariant db == old(db)
        invariant ClaimLoop(cfg, env, db, list, worker, w, now, token)
                  == ClaimLoop(cfg, env, tx, list[i..], worker, w, now, token)
      {
        var c := list[i];
        assert list[i..][0] == c && list[i..][1..] == list[i + 1..];
        if c in tx.rows {
          var claim := TryClaim(env, tx, c, worker, w, now, token);
          match claim {
            case Aborted(e) => return Failure(e);
            case Taken(next) =>
              db := next;
              return Success(Some(c));
            case Skipped(next) => tx := next;
          }
        }
      }
      db := tx;
      r := Success(None);
    }
  }

  lemma ArbitrateUnfolds(cfg: Config, env: Env, db: Db, p: JobId, account: AccountId, victims: set<JobId>, now: Time)
    requires p in db.rows && victims != {}
    ensures var next := ArbitrateOne(cfg, env, db, p, account, Least(victims), now);
            && p in next.rows
            && Arbitrate(cfg, env, db, p, account, victims, now)
               == Arbitrate(cfg, env, next, p, account, victims - {Least(victims)}, now)
  {
  }

  lemma OneLeader(rows: map<JobId, JobRows>, s: set<JobId>, m: JobId)
    requires s <= rows.Keys && Leads(rows, s, m)
    ensures Leader(rows, s) == m
  {
  }

  lemma LeaderComesFirst(rows: map<JobId, JobRows>, s: set<JobId>, m: JobId, list: seq<JobId>)
    requires s <= rows.Keys && Leads(rows, s, m)
    ensures list + Ordered(rows, s) == list + [m] + Ordered(rows, s - {m})
  {
    OneLeader(rows, s, m);
    assert Ordered(rows, s) == [m] + Ordered(rows, s - {m});
  }

  lemma ListingIsPrefix(rows: map<JobId, JobRows>, all: set<JobId>, list: seq<JobId>, rest: set<JobId>)
    requires all <= rows.Keys && rest <= rows.Keys && Ordered(rows, all) == list + Ordered(rows, rest)
    requires |list| <= CLAIM_LIMIT && (rest == {} || |list| == CLAIM_LIMIT)
    ensures list == if |Ordered(rows, all)| <= CLAIM_LIMIT then Ordered(rows, all) else Ordered(rows, all)[..CLAIM_LIMIT]
  {
    if rest == {} {
      assert Ordered(rows, rest) == [];
    }
  }
}
