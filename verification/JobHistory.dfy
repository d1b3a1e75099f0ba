/** What one call can do to the past: every row keeps its history, and each change has a named cause. */
module JobHistory {
  import opened Prelude
  import opened WorkerJobs
  import opened Platform
  import opened JobSteps
  import opened WorkerControl
  import opened JobInvariants
  import opened JobProofs
  import opened HolderProofs
  import opened JobCalls
  import ClaimProofs
  import SchedulerProofs
  import Commands

  predicate AttemptsGrow(a: seq<Attempt>, b: seq<Attempt>) {
    && |a| <= |b|
    && (forall i :: 0 <= i < |a| ==> b[i].number == a[i].number && b[i].worker == a[i].worker && b[i].token == a[i].token)
    && (forall i :: 0 <= i < |a| && !a[i].status.AttemptRunning? ==> b[i] == a[i])
  }

  predicate CancelsGrow(a: seq<Cancel>, b: seq<Cancel>) {
    && |a| <= |b|
    && (forall i :: 0 <= i < |a| ==> b[i].generation == a[i].generation && b[i].target == a[i].target)
    && (forall i :: 0 <= i < |a| && !a[i].status.Pending? ==> b[i] == a[i])
  }

  datatype Cause =
    | Untouched
    | Holder(worker: WorkerId, token: Token)
    | Claimant(worker: WorkerId, token: Token)
    | Operator(confirmed: bool)
    | Scheduler

  predicate MayStart(job: Job) { job.attemptCount == 0 || job.retrySafety.SafeToRetry? || job.retryAuthorized }

  /** Whoever moved the job was entitled to, and moved no more than this. */
  predicate JobMoved(job: Job, next: Job, cause: Cause, now: Time) {
    match cause
    case Untouched => next == job
    case Holder(w, t) =>
      && job.OwnsLease(w, t, now)
      && next.attemptCount == job.attemptCount && next.retryAuthorized == job.retryAuthorized
      && (job.retrySafety.ReconciliationRequired? ==> next.retrySafety == job.retrySafety)
      && (next.status.Running? ==> next.lease.Some? && next.lease.value.worker == w && next.lease.value.token == t)
    case Claimant(w, t) =>
      && MayStart(job) && !Ended(job.status) && job.scheduledAt <= now
      && (job.lease.Some? ==> job.lease.value.expires <= now)
      && next.attemptCount == job.attemptCount + 1 && !next.retryAuthorized && next.retrySafety == job.retrySafety
      && next.status.Running? && next.lease.Some? && next.lease.value.worker == w && next.lease.value.token == t
    case Operator(confirmed) =>
      && job.status.WaitingIntervention? && !next.status.Running?
      && next.attemptCount == job.attemptCount && next.retrySafety == job.retrySafety
      && (next.retryAuthorized ==> job.retryAuthorized || confirmed)
    case Scheduler =>
      && Recoverable(job, now) && !next.status.Running?
      && next.attemptCount == job.attemptCount && next.retrySafety == job.retrySafety
      && next.retryAuthorized == job.retryAuthorized && next.scheduledAt == job.scheduledAt
  }

  predicate Moved(r: JobRows, next: JobRows, cause: Cause, now: Time) {
    match next
    case JobRows(job, attempts, cancels, _) =>
      && job.spec == r.job.spec
      && AttemptsGrow(r.attempts, attempts) && CancelsGrow(r.cancels, cancels)
      && |attempts| == |r.attempts| + (if cause.Claimant? then 1 else 0)
      && (cause.Untouched? ==> attempts == r.attempts)
      && JobMoved(r.job, job, cause, now)
  }

  /** Who may move job `j` in a call. */
  function CauseIn(call: Call, j: JobId): Cause {
    match call
    case Claiming(w, t) => Claimant(w, t)
    case Renewing(i, w, t) => if i == j then Holder(w, t) else Untouched
    case Checkpointing(i, w, t, _) => if i == j then Holder(w, t) else Untouched
    case Acknowledging(i, w, t, _, _) => if i == j then Holder(w, t) else Untouched
    case Completing(i, w, t, _) => if i == j then Holder(w, t) else Untouched
    case Failing(i, w, t, _, _, _) => if i == j then Holder(w, t) else Untouched
    case Intervening(i, w, t, _, _) => if i == j then Holder(w, t) else Untouched
    case Resolving(i, _, requeue, confirmed) => if i == j then Operator(requeue && confirmed) else Untouched
    case Recovering(_) => Scheduler
    case _ => Untouched
  }

  predicate RowEvolves(r: JobRows, next: JobRows, cause: Cause, now: Time) {
    Moved(r, next, Untouched, now) || Moved(r, next, cause, now)
  }

  /** A new row appears only as a fresh QUEUED job. */
  predicate Born(r: JobRows) { NeverStarted(r.job) && !r.job.retryAuthorized && r.attempts == [] }

  ghost predicate RowsEvolve(rows: map<JobId, JobRows>, rows': map<JobId, JobRows>, call: Call, now: Time) {
    && (forall j <- rows :: j in rows' && RowEvolves(rows[j], rows'[j], CauseIn(call, j), now))
    && (forall j <- rows' :: j in rows || (call.Enqueueing? && j == call.job && Born(rows'[j])))
  }

  /** The call is the victim's own holder giving up a lease that has not run out. */
  predicate ProvesStop(rows: map<JobId, JobRows>, call: Call, v: JobId, now: Time) {
    && call.Stopping() && call.job == v && v in rows
    && rows[v].job.OwnsLease(call.worker, call.token, now)
  }

  /** Rows are only added waiting; a waiting row may lapse, and is satisfied only by a proven stop. */
  predicate PreemptionMoved(p: Preemption, next: Preemption, proven: bool) {
    && next.account == p.account
    && (|| next.status == p.status
        || (p.status.WaitingForQuiescence? && (next.status.PreemptorEnded? || (next.status.Satisfied? && proven))))
  }

  ghost predicate PreemptionsEvolve(rows: map<JobId, JobRows>, ps: map<Pair, Preemption>, ps': map<Pair, Preemption>,
                                    call: Call, now: Time)
  {
    && (forall k <- ps :: k in ps' && PreemptionMoved(ps[k], ps'[k], ProvesStop(rows, call, k.victim, now)))
    && (forall k <- ps' :: k in ps || !ps'[k].status.Satisfied?)
  }

  /** Commands keep their spec, a terminal Command is frozen, and result events are only appended. */
  ghost predicate CommandsEvolve(cs: CommandTable, rs: Outbox, cs': CommandTable, rs': Outbox) {
    && (forall c <- cs :: c in cs' && cs'[c].spec == cs[c].spec && (Commands.Terminal(cs[c].status) ==> cs'[c] == cs[c]))
    && (forall c <- cs :: Sent(rs, c) <= Sent(rs', c))
  }

  ghost predicate LeasesEvolve(ls: map<AccountId, AccountLease>, ls': map<AccountId, AccountLease>) {
    forall a <- ls :: a in ls' && ls'[a].generation >= ls[a].generation
  }

  ghost predicate Evolves(db: Db, after: Db, call: Call, now: Time) {
    match after
    case Db(rows, preemptions, commands, results, leases, workers) =>
      && (call.Controlling? || workers == db.workers)
      && RowsEvolve(db.rows, rows, call, now)
      && PreemptionsEvolve(db.rows, db.preemptions, preemptions, call, now)
      && CommandsEvolve(db.commands, db.results, commands, results)
      && LeasesEvolve(db.leases, leases)
  }

  // ----- rows of one job -----

  lemma SupersedeMoves(r: JobRows, reason: CancelEnd, now: Time)
    ensures Moved(r, SupersedePending(r, now, reason), Untouched, now)
  {
  }

  lemma PlaceMoves(r: JobRows, target: int, reason: Code, now: Time)
    ensures Moved(r, PlaceCancel(r, target, reason, now).0, Untouched, now)
  {
    SupersedeMoves(r, TargetAttemptEnded, now);
  }

  lemma AttemptOverMoves(r: JobRows, job: Job, status: AttemptStatus, cause: Cause, error: Option<Code>, now: Time)
    requires job.spec == r.job.spec && JobMoved(r.job, job, cause, now) && !cause.Claimant? && !cause.Untouched?
    ensures var over := AttemptOver(r, job, status, now, error);
            over.Success? ==> over.value.job == job && Moved(r, over.value, cause, now)
  {
    SupersedeMoves(r, TargetAttemptEnded, now);
  }

  lemma FailedMoves(r: JobRows, w: WorkerId, t: Token, code: Code, retryable: bool, ambiguous: bool, retryAt: Time, now: Time)
    requires r.job.OwnsLease(w, t, now)
    ensures var f := FailedRows(r, w, code, retryable, ambiguous, retryAt, now);
            f.Success? ==> Moved(r, f.value, Holder(w, t), now) && f.value.job.spec == r.job.spec
  {
    var job := r.job.Failed(code, retryable, ambiguous, retryAt);
    var status := if job.status.WaitingIntervention? then AttemptWaitingIntervention
    else if job.status.FailedRetryable? then AttemptFailedRetryable else AttemptFailedFinal;
    AttemptOverMoves(r, job, status, Holder(w, t), Some(code), now);
  }

  lemma IntervenedMoves(r: JobRows, w: WorkerId, t: Token, kind: InterventionKind, detail: string, now: Time)
    requires r.job.OwnsLease(w, t, now)
    ensures var n := IntervenedRows(r, w, kind, detail, now);
            n.Success? ==> Moved(r, n.value, Holder(w, t), now) && n.value.job.spec == r.job.spec
  {
    var job := r.job.Intervened();
    var marked := if kind.AmbiguousOutcomeSeen? then job.(retrySafety := ReconciliationRequired) else job;
    AttemptOverMoves(r, marked, AttemptWaitingIntervention, Holder(w, t), Some(Reported(detail)), now);
  }

  lemma AcknowledgedMoves(cfg: Config, r: JobRows, w: WorkerId, t: Token, g: int, phase: string, now: Time)
    ensures var a := AcknowledgedRows(cfg, r, w, t, g, phase, now);
            a.Success? ==> Moved(r, a.value.0, Holder(w, t), now) && a.value.0.job.spec == r.job.spec
                           && r.job.OwnsLease(w, t, now)
  {
  }

  lemma RecoveredMoves(r: JobRows, job: Job, status: AttemptStatus, code: Code, now: Time)
    requires job.spec == r.job.spec && JobMoved(r.job, job, Scheduler, now)
    ensures Moved(r, RecoveredRows(r, job, status, code, now), Scheduler, now)
  {
    SupersedeMoves(r, TargetAttemptEnded, now);
  }

  /** Several scheduler moves in one batch are a scheduler move. */
  lemma MovesCompose(r: JobRows, m: JobRows, n: JobRows, now: Time)
    requires RowEvolves(r, m, Scheduler, now) && RowEvolves(m, n, Scheduler, now)
    ensures RowEvolves(r, n, Scheduler, now)
  {
    assert AttemptsGrow(r.attempts, n.attempts);
    assert CancelsGrow(r.cancels, n.cancels);
  }

  lemma UntouchedAndThen(r: JobRows, m: JobRows, n: JobRows, cause: Cause, now: Time)
    requires Moved(r, m, cause, now) && Moved(m, n, Untouched, now)
    ensures Moved(r, n, cause, now)
  {
    assert AttemptsGrow(r.attempts, n.attempts);
    assert CancelsGrow(r.cancels, n.cancels);
  }

  lemma StillMoves(r: JobRows, now: Time)
    ensures Moved(r, r, Untouched, now)
  {
  }

  // ----- tables -----

  lemma OneRowEvolves(rows: map<JobId, JobRows>, j: JobId, next: JobRows, call: Call, now: Time)
    requires j in rows && RowEvolves(rows[j], next, CauseIn(call, j), now)
    ensures RowsEvolve(rows, rows[j := next], call, now)
  {
    var rows' := rows[j := next];
    forall i <- rows ensures i in rows' && RowEvolves(rows[i], rows'[i], CauseIn(call, i), now) {
      StillMoves(rows[i], now);
    }
  }

  lemma SameRowsEvolve(rows: map<JobId, JobRows>, call: Call, now: Time)
    ensures RowsEvolve(rows, rows, call, now)
  {
    forall i <- rows ensures RowEvolves(rows[i], rows[i], CauseIn(call, i), now) {
      StillMoves(rows[i], now);
    }
  }

  lemma ReleaseEvolves(leases: map<AccountId, AccountLease>, j: JobId, spec: JobSpec, generation: Option<int>, now: Time)
    ensures LeasesEvolve(leases, ReleaseCoordination(leases, j, spec, generation, now))
  {
  }

  ghost predicate CommandOnly(db: Db, after: Db) {
    after == db.(commands := after.commands, results := after.results)
    && CommandsEvolve(db.commands, db.results, after.commands, after.results)
  }

  lemma MoveCommandEvolves(commands: CommandTable, c: CommandId, target: Commands.CommandStatus, now: Time,
                           error: Option<Code>, result: Option<Document>)
    requires c in commands && !Commands.Terminal(commands[c].status)
    ensures var m := MoveCommand(commands, c, target, now, error, result);
            m.Success? ==> c in m.value && m.value[c].spec == commands[c].spec && m.value == commands[c := m.value[c]]
  {
  }

  lemma CommandTableEvolves(cs: CommandTable, rs: Outbox, c: CommandId, row: Commands.CommandRow, sent: seq<ResultEvent>)
    requires c in cs && row.spec == cs[c].spec && !Commands.Terminal(cs[c].status) && Sent(rs, c) <= sent
    ensures CommandsEvolve(cs, rs, cs[c := row], rs[c := sent]) && CommandsEvolve(cs, rs, cs[c := row], rs)
  {
  }

  lemma FinalizeShape(db: Db, spec: JobSpec, target: Commands.CommandStatus, now: Time, result: Option<Document>,
                      error: Option<Code>)
    ensures var f := FinalizeCommand(db, spec, target, now, result, error); f.Success? ==> CommandOnly(db, f.value)
  {
    if spec.command.Some? && EndCommand(db.commands, db.results, spec.command.value, target, now, result, error).Success? {
      var c := spec.command.value;
      MoveCommandEvolves(db.commands, c, target, now, error, result);
      var moved := MoveCommand(db.commands, c, target, now, error, result).value;
      CommandTableEvolves(db.commands, db.results, c, moved[c], Sent(db.results, c) + [ResultEvent(target, error)]);
    }
  }

  lemma NoCommandEvolves(cs: CommandTable, rs: Outbox)
    ensures CommandsEvolve(cs, rs, cs, rs)
  {
  }

  lemma ShiftedEvolves(cs: CommandTable, rs: Outbox, c: CommandId, from: Commands.CommandStatus,
                       target: Commands.CommandStatus, now: Time)
    requires !Commands.Terminal(from)
    ensures var s := ShiftedCommands(cs, c, from, target, now); s.Success? ==> CommandsEvolve(cs, rs, s.value, rs)
  {
    if c in cs && cs[c].status == from {
      MoveCommandEvolves(cs, c, target, now, None, None);
      var moved := MoveCommand(cs, c, target, now, None, None);
      if moved.Success? {
        CommandTableEvolves(cs, rs, c, moved.value[c], Sent(rs, c));
      }
    } else {
      NoCommandEvolves(cs, rs);
    }
  }

  lemma ShiftShape(db: Db, spec: JobSpec, from: Commands.CommandStatus, target: Commands.CommandStatus, now: Time)
    requires !Commands.Terminal(from)
    ensures var f := ShiftCommand(db, spec, from, target, now); f.Success? ==> CommandOnly(db, f.value)
  {
    NoCommandEvolves(db.commands, db.results);
    if spec.command.Some? {
      ShiftedEvolves(db.commands, db.results, spec.command.value, from, target, now);
    }
  }

  lemma FailedCommandShape(db: Db, job: Job, code: Code, now: Time)
    ensures var f := FailedCommand(db, job, code, now); f.Success? ==> CommandOnly(db, f.value)
  {
    FinalizeShape(db, job.spec, Commands.CommandStatus.FailedFinal, now, None, Some(code));
    ShiftShape(db, job.spec, Commands.CommandStatus.WaitingExecution, Commands.CommandStatus.WaitingIntervention, now);
  }

  /** A step that moves no job and satisfies no waiter: it only asks holders to stop and drops waiting rows. */
  ghost predicate AsksOnly(db: Db, after: Db, now: Time) {
    match after
    case Db(rows, preemptions, _, _, _, _) =>
      && rows.Keys == db.rows.Keys
      && (forall j <- db.rows :: Moved(db.rows[j], rows[j], Untouched, now))
      && (forall k <- db.preemptions :: k in preemptions && PreemptionMoved(db.preemptions[k], preemptions[k], false))
      && (forall k <- preemptions :: k in db.preemptions || !preemptions[k].status.Satisfied?)
      && after == db.(rows := rows, preemptions := preemptions)
  }

  lemma AsksNothing(db: Db, now: Time)
    ensures AsksOnly(db, db, now)
  {
    forall j <- db.rows ensures Moved(db.rows[j], db.rows[j], Untouched, now) {
      StillMoves(db.rows[j], now);
    }
  }

  lemma AsksCompose(db: Db, mid: Db, after: Db, now: Time)
    requires AsksOnly(db, mid, now) && AsksOnly(mid, after, now)
    ensures AsksOnly(db, after, now)
  {
    forall j <- db.rows ensures Moved(db.rows[j], after.rows[j], Untouched, now) {
      UntouchedAndThen(db.rows[j], mid.rows[j], after.rows[j], Untouched, now);
    }
    forall k <- db.preemptions ensures PreemptionMoved(db.preemptions[k], after.preemptions[k], false) {
      assert PreemptionMoved(db.preemptions[k], mid.preemptions[k], false);
      assert PreemptionMoved(mid.preemptions[k], after.preemptions[k], false);
    }
  }

  lemma ThenAsks(db: Db, mid: Db, after: Db, call: Call, now: Time)
    requires Evolves(db, mid, call, now) && AsksOnly(mid, after, now)
    ensures Evolves(db, after, call, now)
  {
    forall j <- db.rows ensures RowEvolves(db.rows[j], after.rows[j], CauseIn(call, j), now) {
      assert RowEvolves(db.rows[j], mid.rows[j], CauseIn(call, j), now);
      var cause := if Moved(db.rows[j], mid.rows[j], Untouched, now) then Untouched else CauseIn(call, j);
      UntouchedAndThen(db.rows[j], mid.rows[j], after.rows[j], cause, now);
    }
    forall j <- after.rows ensures j in db.rows || (call.Enqueueing? && j == call.job && Born(after.rows[j])) {
      assert Moved(mid.rows[j], after.rows[j], Untouched, now);
    }
    forall k <- db.preemptions
      ensures PreemptionMoved(db.preemptions[k], after.preemptions[k], ProvesStop(db.rows, call, k.victim, now))
    {
      assert PreemptionMoved(mid.preemptions[k], after.preemptions[k], false);
    }
  }

  // ----- asking a holder to stop -----

  lemma RequestCancelAsks(cfg: Config, env: Env, db: Db, j: JobId, reason: Code, now: Time)
    requires j in db.rows
    ensures var s := RequestCancelInTransaction(cfg, env, db, j, reason, now);
            s.Success? ==> AsksOnly(db, s.value.0, now)
  {
    var r := db.rows[j];
    var t := CancelTarget(cfg, env, db, r, now);
    if t.Success? {
      PlaceMoves(r, t.value, reason, now);
      AsksNothing(db, now);
    }
  }

  lemma PointedAsks(db: Db, s: set<Pair>, generation: int, now: Time)
    ensures AsksOnly(db, Pointed(db, s, generation), now)
  {
    AsksNothing(db, now);
  }

  lemma AskToStopAsks(cfg: Config, env: Env, db: Db, v: JobId, s: set<Pair>, now: Time)
    requires v in db.rows
    ensures AsksOnly(db, AskToStop(cfg, env, db, v, s, now), now)
  {
    AsksNothing(db, now);
    RequestCancelAsks(cfg, env, db, v, HighPriorityPreemption, now);
    var placed := RequestCancelInTransaction(cfg, env, db, v, HighPriorityPreemption, now);
    if placed.Success? {
      PointedAsks(placed.value.0, s, placed.value.1, now);
      AsksCompose(db, placed.value.0, Pointed(placed.value.0, s, placed.value.1), now);
    }
  }

  lemma MarkedAsks(db: Db, k: Pair, account: AccountId, now: Time)
    ensures AsksOnly(db, Marked(db, k, account), now)
  {
    AsksNothing(db, now);
  }

  lemma ArbitrateOneAsks(cfg: Config, env: Env, db: Db, p: JobId, account: AccountId, v: JobId, now: Time)
    requires p in db.rows
    ensures AsksOnly(db, ArbitrateOne(cfg, env, db, p, account, v, now), now)
  {
    AsksNothing(db, now);
    if v in db.rows {
      var marked := Marked(db, Pair(p, v), account);
      MarkedAsks(db, Pair(p, v), account, now);
      AskToStopAsks(cfg, env, marked, v, {Pair(p, v)}, now);
      AsksCompose(db, marked, AskToStop(cfg, env, marked, v, {Pair(p, v)}, now), now);
    }
  }

  lemma {:induction false} ArbitrateAsks(cfg: Config, env: Env, db: Db, p: JobId, account: AccountId, victims: set<JobId>,
                                         now: Time)
    requires p in db.rows
    ensures AsksOnly(db, Arbitrate(cfg, env, db, p, account, victims, now), now)
    decreases |victims|
  {
    AsksNothing(db, now);
    if victims != {} {
      var v := Least(victims);
      var next := ArbitrateOne(cfg, env, db, p, account, v, now);
      ArbitrateOneAsks(cfg, env, db, p, account, v, now);
      ArbitrateAsks(cfg, env, next, p, account, victims - {v}, now);
      AsksCompose(db, next, Arbitrate(cfg, env, next, p, account, victims - {v}, now), now);
    }
  }

  lemma SupersedeForPreemptorAsks(db: Db, p: JobId, now: Time)
    ensures AsksOnly(db, SupersedeForPreemptor(db, p, now), now)
  {
    var after := SupersedeForPreemptor(db, p, now);
    forall j <- db.rows ensures Moved(db.rows[j], after.rows[j], Untouched, now) {
      StillMoves(db.rows[j], now);
      SupersedeMoves(db.rows[j], PreemptionNoLongerPending, now);
    }
  }

  lemma RequestCancelForWaitingAsks(cfg: Config, env: Env, db: Db, j: JobId, now: Time)
    requires j in db.rows
    ensures AsksOnly(db, RequestCancelForWaiting(cfg, env, db, j, now), now)
  {
    AsksNothing(db, now);
    var dropped := DropNonViable(db, j, now);
    assert AsksOnly(db, dropped, now);
    AskToStopAsks(cfg, env, dropped, j, ViableFor(db, j, now), now);
    AsksCompose(db, dropped, AskToStop(cfg, env, dropped, j, ViableFor(db, j, now), now), now);
  }

  // ----- the holder's calls -----

  lemma StopEvolves(db: Db, j: JobId, next: JobRows, after: Db, how: Quiescence, call: Call, now: Time)
    requires ProvesStop(db.rows, call, j, now)
    requires RowEvolves(db.rows[j], next, CauseIn(call, j), now)
    requires CommandOnly(db.(rows := db.rows[j := next]), after)
    ensures Evolves(db, Stopped(after, j, db.rows[j], how, now), call, now)
  {
    OneRowEvolves(db.rows, j, next, call, now);
    ReleaseEvolves(db.leases, j, db.rows[j].job.spec, db.rows[j].job.generation, now);
  }

  lemma CompleteEvolves(db: Db, call: Call, now: Time)
    requires call.Completing?
    ensures var s := Complete(db, call.job, call.worker, call.token, call.document, now);
            s.Success? ==> Evolves(db, s.value, call, now)
  {
    var j := call.job;
    if j in db.rows && db.rows[j].job.OwnsLease(call.worker, call.token, now) {
      var r, job := db.rows[j], db.rows[j].job.Completed(call.document);
      AttemptOverMoves(r, job, AttemptSucceeded, CauseIn(call, j), None, now);
      var next := AttemptOver(r, job, AttemptSucceeded, now, None);
      if next.Success? {
        var stored := db.(rows := db.rows[j := next.value]);
        FinalizeShape(stored, r.job.spec, Commands.CommandStatus.Succeeded, now, Some(call.document), None);
        var ended := FinalizeCommand(stored, r.job.spec, Commands.CommandStatus.Succeeded, now, Some(call.document), None);
        if ended.Success? {
          StopEvolves(db, j, next.value, ended.value, VictimSucceeded, call, now);
        }
      }
    }
  }

  lemma AcknowledgeEvolves(cfg: Config, env: Env, db: Db, call: Call, now: Time)
    requires call.Acknowledging?
    ensures var s := AcknowledgeCancel(cfg, env, db, call.job, call.worker, call.token, call.cancel, call.phase, now);
            s.Success? ==> Evolves(db, s.value, call, now)
  {
    var j := call.job;
    if j in db.rows {
      AcknowledgedMoves(cfg, db.rows[j], call.worker, call.token, call.cancel, call.phase, now);
      var a := AcknowledgedRows(cfg, db.rows[j], call.worker, call.token, call.cancel, call.phase, now);
      if a.Success? {
        var stored, spec := db.(rows := db.rows[j := a.value.0]), db.rows[j].job.spec;
        FinalizeShape(stored, spec, Commands.CommandStatus.Cancelled, now, None, Some(a.value.1));
        var ended := FinalizeCommand(stored, spec, Commands.CommandStatus.Cancelled, now, None, Some(a.value.1));
        if ended.Success? {
          StopEvolves(db, j, a.value.0, ended.value, CancelAcknowledged, call, now);
        }
      }
    }
  }

  lemma FailedStopEvolves(db: Db, j: JobId, next: JobRows, code: Code, after: Db, call: Call, now: Time)
    requires ProvesStop(db.rows, call, j, now)
    requires RowEvolves(db.rows[j], next, CauseIn(call, j), now)
    requires FailedCommand(db.(rows := db.rows[j := next]), next.job, code, now) == Success(after)
    ensures Evolves(db, Stopped(after, j, db.rows[j], VictimFailed, now), call, now)
  {
    FailedCommandShape(db.(rows := db.rows[j := next]), next.job, code, now);
    StopEvolves(db, j, next, after, VictimFailed, call, now);
  }

  lemma FailShape(cfg: Config, db: Db, j: JobId, w: WorkerId, t: Token, code: string, retryable: bool, ambiguous: bool, now: Time)
    returns (next: JobRows, moved: Db)
    requires Fail(cfg, db, j, w, t, code, retryable, ambiguous, now).Success?
    ensures j in db.rows && db.rows[j].job.OwnsLease(w, t, now)
    ensures FailedRows(db.rows[j], w, Reported(code), retryable, ambiguous, now + cfg.retryDelay, now) == Success(next)
    ensures FailedCommand(db.(rows := db.rows[j := next]), next.job, Reported(code), now) == Success(moved)
    ensures Fail(cfg, db, j, w, t, code, retryable, ambiguous, now) == Success(Stopped(moved, j, db.rows[j], VictimFailed, now))
  {
    next := FailedRows(db.rows[j], w, Reported(code), retryable, ambiguous, now + cfg.retryDelay, now).value;
    moved := FailedCommand(db.(rows := db.rows[j := next]), next.job, Reported(code), now).value;
  }

  lemma FailHeldEvolves(db: Db, retryAt: Time, next: JobRows, moved: Db, call: Call, now: Time)
    requires call.Failing? && call.job in db.rows && db.rows[call.job].job.OwnsLease(call.worker, call.token, now)
    requires FailedRows(db.rows[call.job], call.worker, Reported(call.code), call.retryable, call.ambiguous, retryAt, now)
             == Success(next)
    requires FailedCommand(db.(rows := db.rows[call.job := next]), next.job, Reported(call.code), now) == Success(moved)
    ensures Evolves(db, Stopped(moved, call.job, db.rows[call.job], VictimFailed, now), call, now)
  {
    FailedMoves(db.rows[call.job], call.worker, call.token, Reported(call.code), call.retryable, call.ambiguous, retryAt, now);
    FailedStopEvolves(db, call.job, next, Reported(call.code), moved, call, now);
  }

  lemma FailEvolves(cfg: Config, db: Db, call: Call, now: Time)
    requires call.Failing?
    ensures var s := Fail(cfg, db, call.job, call.worker, call.token, call.code, call.retryable, call.ambiguous, now);
            s.Success? ==> Evolves(db, s.value, call, now)
  {
    if Fail(cfg, db, call.job, call.worker, call.token, call.code, call.retryable, call.ambiguous, now).Success? {
      var next, moved := FailShape(cfg, db, call.job, call.worker, call.token, call.code, call.retryable, call.ambiguous, now);
      FailHeldEvolves(db, now + cfg.retryDelay, next, moved, call, now);
    }
  }

  lemma InterveneEvolves(db: Db, call: Call, now: Time)
    requires call.Intervening?
    ensures var s := RequestIntervention(db, call.job, call.worker, call.token, call.kind, call.detail, now);
            s.Success? ==> Evolves(db, s.value, call, now)
  {
    var j := call.job;
    if j in db.rows && db.rows[j].job.OwnsLease(call.worker, call.token, now) {
      var r := db.rows[j];
      IntervenedMoves(r, call.worker, call.token, call.kind, call.detail, now);
      var next := IntervenedRows(r, call.worker, call.kind, call.detail, now);
      if next.Success? {
        var stored := db.(rows := db.rows[j := next.value]);
        var from, target := Commands.CommandStatus.WaitingExecution, Commands.CommandStatus.WaitingIntervention;
        ShiftShape(stored, r.job.spec, from, target, now);
        var moved := ShiftCommand(stored, r.job.spec, from, target, now);
        if moved.Success? {
          StopEvolves(db, j, next.value, moved.value, InterventionRequested, call, now);
        }
      }
    }
  }

  lemma RenewEvolves(cfg: Config, db: Db, call: Call, now: Time)
    requires call.Renewing?
    ensures var s := Renew(cfg, db, call.job, call.worker, call.token, now); s.Success? ==> Evolves(db, s.value, call, now)
  {
    var s := Renew(cfg, db, call.job, call.worker, call.token, now);
    if s.Success? {
      RenewShape(cfg, db, call.job, call.worker, call.token, now);
      LeaveEvolves(db, call.job, s.value.rows[call.job], s.value.leases, call, now);
    }
  }

  lemma RenewShape(cfg: Config, db: Db, j: JobId, w: WorkerId, t: Token, now: Time)
    requires Renew(cfg, db, j, w, t, now).Success?
    ensures var after := Renew(cfg, db, j, w, t, now).value;
            && j in db.rows && j in after.rows && Moved(db.rows[j], after.rows[j], Holder(w, t), now)
            && LeasesEvolve(db.leases, after.leases)
            && after == db.(rows := db.rows[j := after.rows[j]], leases := after.leases)
  {
    assert Renew(cfg, db, j, w, t, now).value.rows[j] == db.rows[j].(job := db.rows[j].job.Renewed(now + cfg.leaseDuration));
  }

  lemma CheckpointEvolves(db: Db, call: Call, now: Time)
    requires call.Checkpointing?
    ensures var s := SaveCheckpoint(db, call.job, call.worker, call.token, call.checkpoint, now);
            s.Success? ==> Evolves(db, s.value, call, now)
  {
    var s := SaveCheckpoint(db, call.job, call.worker, call.token, call.checkpoint, now);
    if s.Success? {
      var r := db.rows[call.job];
      OneRowEvolves(db.rows, call.job, r.(job := r.job.(checkpoint := Some(call.checkpoint))), call, now);
    }
  }

  // ----- operator and scheduler calls -----

  lemma ResolveEvolves(db: Db, call: Call, now: Time)
    requires call.Resolving?
    ensures var s := ResolveIntervention(db, call.job, call.intervention, call.requeue, call.confirmed, now);
            s.Success? ==> Evolves(db, s.value, call, now)
  {
    var j := call.job;
    if j in db.rows {
      var next := ResolvedRows(db.rows[j], call.intervention, call.requeue, call.confirmed, now);
      if next.Success? {
        ResolvedMoves(db.rows[j], call.intervention, call.requeue, call.confirmed, now);
        LeaveEvolves(db, j, next.value, db.leases, call, now);
        var stored, spec := db.(rows := db.rows[j := next.value]), next.value.job.spec;
        if call.requeue {
          RequeueEvolves(db, stored, spec, call, now);
        } else {
          EndEvolves(db, stored, spec, j, Commands.CommandStatus.FailedFinal, next.value.job.error, call, now);
        }
      }
    }
  }

  lemma ResolvedMoves(r: JobRows, i: nat, requeue: bool, confirmed: bool, now: Time)
    ensures var n := ResolvedRows(r, i, requeue, confirmed, now);
            n.Success? ==> Moved(r, n.value, Operator(requeue && confirmed), now)
  {
  }

  lemma RequeueEvolves(db: Db, stored: Db, spec: JobSpec, call: Call, now: Time)
    requires Evolves(db, stored, call, now)
    ensures var s := ShiftCommand(stored, spec, Commands.CommandStatus.WaitingIntervention,
                                  Commands.CommandStatus.WaitingExecution, now);
            s.Success? ==> Evolves(db, s.value, call, now)
  {
    var from, target := Commands.CommandStatus.WaitingIntervention, Commands.CommandStatus.WaitingExecution;
    ShiftShape(stored, spec, from, target, now);
    var s := ShiftCommand(stored, spec, from, target, now);
    if s.Success? {
      CommandAfter(db, stored, s.value, call, now);
    }
  }

  lemma LeaveEvolves(db: Db, j: JobId, next: JobRows, leases: map<AccountId, AccountLease>, call: Call, now: Time)
    requires j in db.rows && RowEvolves(db.rows[j], next, CauseIn(call, j), now) && LeasesEvolve(db.leases, leases)
    ensures Evolves(db, db.(rows := db.rows[j := next], leases := leases), call, now)
  {
    OneRowEvolves(db.rows, j, next, call, now);
  }

  lemma CommandAfter(db: Db, stored: Db, after: Db, call: Call, now: Time)
    requires Evolves(db, stored, call, now) && CommandOnly(stored, after)
    ensures Evolves(db, after, call, now)
  {
    forall c <- db.commands ensures Sent(db.results, c) <= Sent(after.results, c) {
      assert Sent(db.results, c) <= Sent(stored.results, c) <= Sent(after.results, c);
    }
  }

  lemma EndEvolves(db: Db, stored: Db, spec: JobSpec, j: JobId, target: Commands.CommandStatus, error: Option<Code>,
                   call: Call, now: Time)
    requires Evolves(db, stored, call, now)
    ensures var f := FinalizeCommand(stored, spec, target, now, None, error);
            f.Success? ==> Evolves(db, SupersedeForPreemptor(f.value, j, now), call, now)
  {
    FinalizeShape(stored, spec, target, now, None, error);
    var f := FinalizeCommand(stored, spec, target, now, None, error);
    if f.Success? {
      CommandAfter(db, stored, f.value, call, now);
      SupersedeForPreemptorAsks(f.value, j, now);
      ThenAsks(db, f.value, SupersedeForPreemptor(f.value, j, now), call, now);
    }
  }

  lemma ExpiredMoves(r: JobRows, now: Time)
    requires Recoverable(r.job, now)
    ensures Moved(r, ExpiredRows(r, now), Scheduler, now) && Moved(r, ExhaustedRows(r, now), Scheduler, now)
    ensures Moved(r, SuspendedRows(r, now), Scheduler, now)
  {
    RecoveredMoves(r, r.job.ExpiredAt(JobDeadlineExpired), AttemptFailedFinal, JobDeadlineExpired, now);
    RecoveredMoves(r, r.job.FinallyFailed(AttemptsExhausted), AttemptFailedFinal, AttemptsExhausted, now);
    RecoveredMoves(r, r.job.Suspended(AmbiguousOutcome), AttemptWaitingIntervention, AmbiguousOutcome, now);
  }

  lemma RecoverOneEvolves(db: Db, j: JobId, call: Call, now: Time)
    requires call.Recovering? && j in db.rows && Recoverable(db.rows[j].job, now)
    ensures var s := RecoverOne(db, j, now); s.Success? ==> Evolves(db, s.value, call, now)
  {
    var r := db.rows[j];
    var leases := ReleaseCoordination(db.leases, j, r.job.spec, r.job.generation, now);
    ReleaseEvolves(db.leases, j, r.job.spec, r.job.generation, now);
    ExpiredMoves(r, now);
    SupersedeMoves(r, TargetAttemptEnded, now);
    if r.job.spec.PastDeadline(now) {
      RecoveredEvolves(db, j, ExpiredRows(r, now), leases, Commands.CommandStatus.Expired, JobDeadlineExpired, call, now);
    } else if r.job.attemptCount >= r.job.spec.maxAttempts {
      RecoveredEvolves(db, j, ExhaustedRows(r, now), leases, Commands.CommandStatus.FailedFinal, AttemptsExhausted, call, now);
    } else if r.job.status.Running? && r.job.retrySafety.ReconciliationRequired? {
      SuspendedEvolves(db, j, SuspendedRows(r, now), leases, call, now);
    } else {
      OneRowEvolves(db.rows, j, SupersedePending(r, now, TargetAttemptEnded), call, now);
    }
  }

  lemma RecoveredEvolves(db: Db, j: JobId, next: JobRows, leases: map<AccountId, AccountLease>,
                         target: Commands.CommandStatus, code: Code, call: Call, now: Time)
    requires j in db.rows && RowEvolves(db.rows[j], next, CauseIn(call, j), now) && LeasesEvolve(db.leases, leases)
    ensures var s := EndRecovered(db.(leases := leases), j, next, target, code, now);
            s.Success? ==> Evolves(db, s.value, call, now)
  {
    LeaveEvolves(db, j, next, leases, call, now);
    EndEvolves(db, db.(rows := db.rows[j := next], leases := leases), next.job.spec, j, target, Some(code), call, now);
  }

  lemma SuspendedEvolves(db: Db, j: JobId, next: JobRows, leases: map<AccountId, AccountLease>, call: Call, now: Time)
    requires j in db.rows && RowEvolves(db.rows[j], next, CauseIn(call, j), now) && LeasesEvolve(db.leases, leases)
    ensures var s := ShiftCommand(db.(rows := db.rows[j := next], leases := leases), db.rows[j].job.spec,
                                  Commands.CommandStatus.WaitingExecution, Commands.CommandStatus.WaitingIntervention, now);
            s.Success? ==> Evolves(db, s.value, call, now)
  {
    var stored := db.(rows := db.rows[j := next], leases := leases);
    LeaveEvolves(db, j, next, leases, call, now);
    var from, target := Commands.CommandStatus.WaitingExecution, Commands.CommandStatus.WaitingIntervention;
    ShiftShape(stored, db.rows[j].job.spec, from, target, now);
    var s := ShiftCommand(stored, db.rows[j].job.spec, from, target, now);
    if s.Success? {
      CommandAfter(db, stored, s.value, call, now);
    }
  }

  lemma CommandsCompose(a: CommandTable, x: Outbox, b: CommandTable, y: Outbox, c: CommandTable, z: Outbox)
    requires CommandsEvolve(a, x, b, y) && CommandsEvolve(b, y, c, z)
    ensures CommandsEvolve(a, x, c, z)
  {
    forall i <- a ensures Sent(x, i) <= Sent(z, i) {
      assert Sent(x, i) <= Sent(y, i) <= Sent(z, i);
    }
  }

  lemma RecoveredRowComposes(a: map<JobId, JobRows>, b: map<JobId, JobRows>, c: map<JobId, JobRows>, call: Call, rest: Call,
                             j: JobId, now: Time)
    requires call.Recovering? && rest.Recovering? && j in a && j in b && j in c && RowEvolves(a[j], b[j], CauseIn(call, j), now)
    requires RowEvolves(b[j], c[j], CauseIn(rest, j), now)
    ensures RowEvolves(a[j], c[j], CauseIn(call, j), now)
  {
    assert j in b && CauseIn(call, j) == CauseIn(rest, j) == Scheduler;
    MovesCompose(a[j], b[j], c[j], now);
  }

  lemma RecoveredRowsCompose(a: map<JobId, JobRows>, b: map<JobId, JobRows>, c: map<JobId, JobRows>, call: Call, rest: Call,
                             now: Time)
    requires call.Recovering? && rest.Recovering? && RowsEvolve(a, b, call, now) && RowsEvolve(b, c, rest, now)
    ensures RowsEvolve(a, c, call, now)
  {
    forall j <- a ensures j in c && RowEvolves(a[j], c[j], CauseIn(call, j), now) {
      RecoveredRowComposes(a, b, c, call, rest, j, now);
    }
  }

  lemma RecoveredPreemptionsCompose(x: map<JobId, JobRows>, y: map<JobId, JobRows>, a: map<Pair, Preemption>,
                                    b: map<Pair, Preemption>, c: map<Pair, Preemption>, call: Call, rest: Call, now: Time)
    requires call.Recovering? && rest.Recovering?
    requires PreemptionsEvolve(x, a, b, call, now) && PreemptionsEvolve(y, b, c, rest, now)
    ensures PreemptionsEvolve(x, a, c, call, now)
  {
    forall k <- a ensures k in c && PreemptionMoved(a[k], c[k], false) {
      assert k in b && PreemptionMoved(a[k], b[k], ProvesStop(x, call, k.victim, now));
      assert k in c && PreemptionMoved(b[k], c[k], ProvesStop(y, rest, k.victim, now));
    }
  }

  lemma RecoveriesCompose(db: Db, mid: Db, after: Db, call: Call, rest: Call, now: Time)
    requires call.Recovering? && rest.Recovering? && Evolves(db, mid, call, now) && Evolves(mid, after, rest, now)
    ensures Evolves(db, after, call, now)
  {
    RecoveredRowsCompose(db.rows, mid.rows, after.rows, call, rest, now);
    RecoveredPreemptionsCompose(db.rows, mid.rows, db.preemptions, mid.preemptions, after.preemptions, call, rest, now);
    CommandsCompose(db.commands, db.results, mid.commands, mid.results, after.commands, after.results);
  }

  lemma {:induction false} RecoverEvolves(db: Db, batch: seq<JobId>, now: Time)
    ensures var s := RecoverExpired(db, batch, now); s.Success? ==> Evolves(db, s.value, Recovering(batch), now)
    decreases |batch|
  {
    if batch == [] {
      NothingEvolves(db, Recovering(batch), now);
    } else if batch[0] !in db.rows || !Recoverable(db.rows[batch[0]].job, now) {
      RecoverEvolves(db, batch[1..], now);
      if RecoverExpired(db, batch[1..], now).Success? {
        NothingEvolves(db, Recovering(batch), now);
        RecoveriesCompose(db, db, RecoverExpired(db, batch[1..], now).value, Recovering(batch), Recovering(batch[1..]), now);
      }
    } else {
      RecoverOneEvolves(db, batch[0], Recovering(batch), now);
      var next := RecoverOne(db, batch[0], now);
      if next.Success? && RecoverExpired(next.value, batch[1..], now).Success? {
        RecoverEvolves(next.value, batch[1..], now);
        RecoveriesCompose(db, next.value, RecoverExpired(next.value, batch[1..], now).value, Recovering(batch),
                          Recovering(batch[1..]), now);
      }
    }
  }

  lemma NothingEvolves(db: Db, call: Call, now: Time)
    ensures Evolves(db, db, call, now)
  {
    SameRowsEvolve(db.rows, call, now);
  }

  // ----- new jobs and claims -----

  lemma RequestCancelEvolves(cfg: Config, env: Env, db: Db, call: Call, now: Time)
    requires call.Cancelling?
    ensures var s := RequestCancel(cfg, env, db, call.job, call.reason, now); s.Success? ==> Evolves(db, s.value, call, now)
  {
    if call.job in db.rows {
      RequestCancelAsks(cfg, env, db, call.job, Reported(call.reason), now);
      NothingEvolves(db, call, now);
      var placed := RequestCancelInTransaction(cfg, env, db, call.job, Reported(call.reason), now);
      if placed.Success? {
        ThenAsks(db, db, placed.value.0, call, now);
      }
    }
  }

  lemma AddJobEvolves(env: Env, db: Db, call: Call, now: Time)
    requires call.Enqueueing?
    ensures var s := AddJob(env, db, call.job, call.request, now);
            s.Success? ==> call.job in s.value.rows && Evolves(db, s.value, call, now)
  {
    var s := AddJob(env, db, call.job, call.request, now);
    if s.Success? {
      SameRowsEvolve(db.rows, call, now);
      var n := NewJob(env, db, call.request, now).value;
      assert Born(JobRows(n, [], [], []));
      assert RowsEvolve(db.rows, s.value.rows, call, now);
    }
  }

  lemma PrioritizeAsks(cfg: Config, env: Env, db: Db, j: JobId, now: Time)
    requires j in db.rows
    ensures var s := Prioritize(cfg, env, db, j, now); s.Success? ==> AsksOnly(db, s.value, now)
  {
    AsksNothing(db, now);
    var spec := db.rows[j].job.spec;
    if BrowserJob(spec) {
      ArbitrateAsks(cfg, env, db, j, spec.account.value, RunningBrowser(db.rows, spec.account.value), now);
    }
  }

  lemma EnqueueEvolves(cfg: Config, env: Env, db: Db, call: Call, now: Time)
    requires call.Enqueueing?
    ensures var s := Enqueue(cfg, env, db, call.job, call.request, now); s.Success? ==> Evolves(db, s.value, call, now)
  {
    AddJobEvolves(env, db, call, now);
    var added := AddJob(env, db, call.job, call.request, now);
    if added.Success? {
      PrioritizeAsks(cfg, env, added.value, call.job, now);
      var p := Prioritize(cfg, env, added.value, call.job, now);
      if p.Success? {
        ThenAsks(db, added.value, p.value, call, now);
      }
    }
  }

  lemma TakenMoves(cfg: Config, env: Env, r: JobRows, fence: Option<int>, worker: WorkerId, w: WorkerNode, now: Time,
                   token: Token)
    requires Available(r.job, env, worker, w, now) && (r.job.lease.Some? ==> r.job.status.Running?)
    ensures var n := TakenRows(cfg, r, fence, worker, now, token);
            n.Some? ==> Moved(r, n.value, Claimant(worker, token), now)
  {
    SupersedeMoves(r, TargetAttemptEnded, now);
  }

  lemma TakeEvolves(cfg: Config, env: Env, db: Db, c: JobId, worker: WorkerId, w: WorkerNode, now: Time, token: Token)
    requires c in db.rows && Available(db.rows[c].job, env, worker, w, now) && RowsOk(db.rows[c], now)
    requires Acquired(cfg, db, c, now).Some?
    ensures var t := Take(cfg, env, db, c, Acquired(cfg, db, c, now).value, worker, now, token);
            t.Taken? ==> Evolves(db, t.db, Claiming(worker, token), now)
  {
    var leases := Acquired(cfg, db, c, now).value;
    var fence := FenceIn(leases, db.rows[c].job.spec);
    TakenMoves(cfg, env, db.rows[c], fence, worker, w, now, token);
    var n := TakenRows(cfg, db.rows[c], fence, worker, now, token);
    if n.Some? {
      var mid := db.(leases := leases, rows := db.rows[c := n.value]);
      assert LeasesEvolve(db.leases, leases);
      LeaveEvolves(db, c, n.value, leases, Claiming(worker, token), now);
      RequestCancelForWaitingAsks(cfg, env, mid, c, now);
      ThenAsks(db, mid, RequestCancelForWaiting(cfg, env, mid, c, now), Claiming(worker, token), now);
    }
  }

  lemma {:induction false} ClaimLoopEvolves(cfg: Config, env: Env, db: Db, list: seq<JobId>, worker: WorkerId, w: WorkerNode,
                                            now: Time, token: Token)
    requires Inv(db, now) && cfg.Valid()
    requires forall j :: j in list ==> j in db.rows && Available(db.rows[j].job, env, worker, w, now)
    ensures var s := ClaimLoop(cfg, env, db, list, worker, w, now, token);
            s.Success? ==> Evolves(db, s.value.0, Claiming(worker, token), now)
    decreases |list|
  {
    if list == [] {
      NothingEvolves(db, Claiming(worker, token), now);
    } else {
      assert list[0] in list;
      RowOf(db, list[0], now);
      ClaimProofs.ClaimOneKeeps(cfg, env, db, list[0], worker, w, now, token);
      if Acquired(cfg, db, list[0], now).Some? {
        TakeEvolves(cfg, env, db, list[0], worker, w, now, token);
      }
      assert forall j :: j in list[1..] ==> j in list;
      ClaimLoopEvolves(cfg, env, db, list[1..], worker, w, now, token);
    }
  }

  ghost predicate ClaimEvolved(db: Db, s: Step<(Db, Option<JobId>)>, call: Call, now: Time) {
    match s
    case Success(v) => Evolves(db, v.0, call, now)
    case Failure(_) => true
  }

  lemma ListingEvolves(cfg: Config, env: Env, db: Db, worker: WorkerId, w: WorkerNode, token: Token, now: Time)
    requires Inv(db, now) && cfg.Valid()
    ensures ClaimEvolved(db, ClaimLoop(cfg, env, db, Candidates(db, env, worker, w, now), worker, w, now, token),
                         Claiming(worker, token), now)
  {
    var list := Candidates(db, env, worker, w, now);
    forall j | j in list ensures j in db.rows && Available(db.rows[j].job, env, worker, w, now) {
      ClaimProofs.ListedAreAvailable(db, env, worker, w, now, j);
    }
    ClaimLoopEvolves(cfg, env, db, list, worker, w, now, token);
  }

  lemma ClaimEvolves(cfg: Config, env: Env, db: Db, worker: WorkerId, token: Token, now: Time)
    requires Inv(db, now) && cfg.Valid()
    ensures ClaimEvolved(db, ClaimNext(cfg, env, db, worker, now, token), Claiming(worker, token), now)
  {
    if worker in db.workers {
      ListingEvolves(cfg, env, db, worker, db.workers[worker], token, now);
    }
  }

  // ----- calls of other services -----

  lemma MoveOutsideShape(db: Db, act: RuntimeAct, now: Time)
    requires act.CommandMoved?
    ensures var s := MoveOutside(db, act.command, act.target, act.error, act.result, act.retryAt, now);
            s.Success? ==> CommandOnly(db, s.value)
  {
    if act.command in db.commands {
      MoveKeepsSpec(db.commands[act.command], act, now);
      var row := Commands.Transitioned(db.commands[act.command], act.target, now, act.error, act.result, act.retryAt);
      if row.Success? {
        CommandTableEvolves(db.commands, db.results, act.command, row.value,
                            Sent(db.results, act.command) + [ResultEvent(act.target, act.error)]);
      }
    }
  }

  lemma MoveKeepsSpec(row: Commands.CommandRow, act: RuntimeAct, now: Time)
    requires act.CommandMoved?
    ensures var next := Commands.Transitioned(row, act.target, now, act.error, act.result, act.retryAt);
            next.Success? ==> next.value.spec == row.spec && !Commands.Terminal(row.status)
  {
  }

  lemma RuntimeEvolves(db: Db, act: RuntimeAct, call: Call, now: Time)
    ensures var s := ApplyRuntime(db, act, now); s.Success? ==> Evolves(db, s.value, call, now)
  {
    NothingEvolves(db, call, now);
    if act.CommandMoved? {
      MoveOutsideShape(db, act, now);
    }
  }

  lemma ControlShape(cfg: Config, db: Db, op: ControlOp, now: Time)
    ensures var s := ApplyControl(cfg, db, op, now); s.Success? ==> s.value == db.(workers := s.value.workers)
  {
  }

  lemma ControlEvolves(cfg: Config, db: Db, op: ControlOp, call: Call, now: Time)
    requires call.Controlling?
    ensures var s := ApplyControl(cfg, db, op, now); s.Success? ==> Evolves(db, s.value, call, now)
  {
    NothingEvolves(db, call, now);
    ControlShape(cfg, db, op, now);
  }

  lemma HolderEvolves(cfg: Config, env: Env, db: Db, call: Call, now: Time)
    requires call.Held()
    ensures var s := Apply(cfg, env, db, call, now); s.Success? ==> Evolves(db, s.value, call, now)
  {
    match call
    case Renewing(_, _, _) => RenewEvolves(cfg, db, call, now);
    case Checkpointing(_, _, _, _) => CheckpointEvolves(db, call, now);
    case Acknowledging(_, _, _, _, _) => AcknowledgeEvolves(cfg, env, db, call, now);
    case Completing(_, _, _, _) => CompleteEvolves(db, call, now);
    case Failing(_, _, _, _, _, _) => FailEvolves(cfg, db, call, now);
    case Intervening(_, _, _, _, _) => InterveneEvolves(db, call, now);
  }

  lemma AcceptedEvolves(cfg: Config, env: Env, db: Db, call: Call, now: Time)
    requires Inv(db, now) && cfg.Valid()
    ensures var s := Apply(cfg, env, db, call, now); s.Success? ==> Evolves(db, s.value, call, now)
  {
    match call
    case Enqueueing(_, _) => EnqueueEvolves(cfg, env, db, call, now);
    case Claiming(w, t) => ClaimEvolves(cfg, env, db, w, t, now);
    case Cancelling(_, _) => RequestCancelEvolves(cfg, env, db, call, now);
    case Resolving(_, _, _, _) => ResolveEvolves(db, call, now);
    case Recovering(batch) => RecoverEvolves(db, batch, now);
    case Controlling(op) => ControlEvolves(cfg, db, op, call, now);
    case FromRuntime(act) => RuntimeEvolves(db, act, call, now);
    case _ => HolderEvolves(cfg, env, db, call, now);
  }

  /** Every accepted call, and trivially every refused one, only adds to the history. */
  lemma StepEvolves(cfg: Config, env: Env, db: Db, call: Call, now: Time)
    requires Inv(db, now) && cfg.Valid()
    ensures Evolves(db, After(cfg, env, db, call, now), call, now)
  {
    AcceptedEvolves(cfg, env, db, call, now);
    NothingEvolves(db, call, now);
  }
}
