/** The inductive invariant of the tables, one named part per concern. */
module JobInvariants {
  import opened Prelude
  import opened WorkerJobs
  import opened Platform
  import Commands

  // ----- the rows of one job -----

  predicate JobOk(job: Job, clock: Time) {
    && job.Storable()
    && (job.attemptCount == 0 ==> job.status.Queued? || job.status.Expired?)
    && (job.status.Running? ==> job.scheduledAt <= clock)
    && (job.status.Queued? ==> job.attemptCount < job.spec.maxAttempts)
    && (job.status.Queued? && job.attemptCount > 0 && job.retrySafety.ReconciliationRequired? ==> job.retryAuthorized)
    && (job.status.FailedRetryable? ==> job.attemptCount < job.spec.maxAttempts && job.retrySafety.SafeToRetry?)
    && (job.retryAuthorized ==>
          job.retrySafety.ReconciliationRequired? && job.attemptCount > 0 && (job.status.Queued? || job.status.Expired?))
  }

  /** How the last attempt of a job ended, given what became of the job. */
  predicate Fits(job: JobStatus, attempt: AttemptStatus) {
    match job
    case Queued => attempt.AttemptWaitingIntervention?
    case Running => attempt.AttemptRunning?
    case WaitingIntervention => attempt.AttemptWaitingIntervention?
    case Succeeded => attempt.AttemptSucceeded?
    case FailedRetryable => attempt.AttemptFailedRetryable?
    case FailedFinal => attempt.AttemptFailedFinal? || attempt.AttemptWaitingIntervention?
    case Cancelled => attempt.AttemptCancelled?
    case Expired => attempt.AttemptFailedFinal? || attempt.AttemptWaitingIntervention? || attempt.AttemptFailedRetryable?
  }

  /**
   * Attempts are numbered 1, 2, ...; exactly the last one runs, exactly while the job does, under the job's lease;
   * all others are finished, and the last one ended the way the job's status says.
   */
  predicate AttemptsOk(r: JobRows) {
    && |r.attempts| == r.job.attemptCount
    && (forall i :: 0 <= i < |r.attempts| ==> r.attempts[i].number == i + 1)
    && (forall i :: 0 <= i < |r.attempts| ==>
                      (r.attempts[i].status.AttemptRunning? <==> r.job.status.Running? && i == |r.attempts| - 1))
    && (forall i :: 0 <= i < |r.attempts| ==> (r.attempts[i].finishedAt.None? <==> r.attempts[i].status.AttemptRunning?))
    && (r.attempts != [] ==> Fits(r.job.status, r.attempts[|r.attempts| - 1].status))
    && (r.job.status.Running? ==>
          && r.attempts != [] && r.job.lease.Some?
          && r.attempts[|r.attempts| - 1].worker == r.job.lease.value.worker
          && r.attempts[|r.attempts| - 1].token == r.job.lease.value.token)
  }

  /** Generations are 1, 2, ...; only the last may be pending, only for the attempt that is running now. */
  predicate CancelsOk(r: JobRows) {
    && (forall i :: 0 <= i < |r.cancels| ==> r.cancels[i].generation == i + 1)
    && (forall i :: 0 <= i < |r.cancels| && r.cancels[i].status.Pending? ==>
                      i == |r.cancels| - 1 && r.job.status.Running? && r.cancels[i].target == r.job.attemptCount)
  }

  /** Exactly the last intervention is open, exactly while the job waits for one. */
  predicate InterventionsOk(r: JobRows) {
    && (r.job.status.WaitingIntervention? ==> r.interventions != [])
    && (forall i :: 0 <= i < |r.interventions| ==>
                      (r.interventions[i].status.Open? <==>
                       r.job.status.WaitingIntervention? && i == |r.interventions| - 1))
  }

  predicate RowsOk(r: JobRows, clock: Time) {
    JobOk(r.job, clock) && AttemptsOk(r) && CancelsOk(r) && InterventionsOk(r)
  }

  ghost predicate LocalOk(rows: map<JobId, JobRows>, clock: Time) {
    forall j {:trigger RowsOk(rows[j], clock)} | j in rows :: RowsOk(rows[j], clock)
  }

  // ----- Commands and their result events -----

  function CommandFor(s: JobStatus): Commands.CommandStatus {
    match s
    case Queued => Commands.CommandStatus.WaitingExecution
    case Running => Commands.CommandStatus.WaitingExecution
    case FailedRetryable => Commands.CommandStatus.WaitingExecution
    case WaitingIntervention => Commands.CommandStatus.WaitingIntervention
    case Succeeded => Commands.CommandStatus.Succeeded
    case FailedFinal => Commands.CommandStatus.FailedFinal
    case Cancelled => Commands.CommandStatus.Cancelled
    case Expired => Commands.CommandStatus.Expired
  }

  function Sent(results: map<CommandId, seq<ResultEvent>>, c: CommandId): seq<ResultEvent> {
    if c in results then results[c] else []
  }

  predicate EventsOk(commands: map<CommandId, Commands.CommandRow>, results: map<CommandId, seq<ResultEvent>>,
                     c: CommandId)
    requires c in commands
  {
    if Commands.Terminal(commands[c].status)
    then |Sent(results, c)| == 1 && Sent(results, c)[0] == ResultEvent(commands[c].status, commands[c].error)
    else Sent(results, c) == []
  }

  /** Every Command has exactly one result event once it is terminal, carrying its status, and none before. */
  ghost predicate ResultsOk(commands: map<CommandId, Commands.CommandRow>, results: map<CommandId, seq<ResultEvent>>) {
    && (forall c <- results :: c in commands)
    && (forall c {:trigger EventsOk(commands, results, c)} | c in commands :: EventsOk(commands, results, c))
  }

  predicate InStep(job: Job, commands: map<CommandId, Commands.CommandRow>) {
    job.spec.command.Some? ==>
      job.spec.command.value in commands && commands[job.spec.command.value].status == CommandFor(job.status)
  }

  ghost predicate LockstepOk(rows: map<JobId, JobRows>, commands: map<CommandId, Commands.CommandRow>) {
    forall j {:trigger InStep(rows[j].job, commands)} | j in rows :: InStep(rows[j].job, commands)
  }

  predicate BoundTo(rows: map<JobId, JobRows>, j: JobId, c: CommandId) {
    j in rows && rows[j].job.spec.command == Some(c)
  }

  /** uq_worker_jobs_command_id. */
  ghost predicate BindingOk(rows: map<JobId, JobRows>) {
    forall i, j, c :: BoundTo(rows, i, c) && BoundTo(rows, j, c) ==> i == j
  }

  // ----- leases -----

  predicate Issued(rows: map<JobId, JobRows>, j: JobId, x: int, token: Token) {
    j in rows && 0 <= x < |rows[j].attempts| && rows[j].attempts[x].token == token
  }

  /** uq_worker_job_attempt_lease_token. */
  ghost predicate TokensOk(rows: map<JobId, JobRows>) {
    forall i, j, x, y, token :: Issued(rows, i, x, token) && Issued(rows, j, y, token) ==> i == j && x == y
  }

  /**
   * A running exclusive job's fence: while it is the newest, the account lease is the job's own and ends with
   * the job's lease; once it is not, the job's lease has run out.
   */
  predicate FenceOk(j: JobId, job: Job, leases: map<AccountId, AccountLease>, clock: Time) {
    job.status.Running? && job.spec.Exclusive() && job.generation.Some? && job.lease.Some? ==>
      && job.spec.account.value in leases
      && var l := leases[job.spec.account.value];
      && l.generation >= job.generation.value
      && (l.generation == job.generation.value ==> l.owner == JobOwner(j) && l.expires == job.lease.value.expires)
      && (l.generation > job.generation.value ==> job.lease.value.expires <= clock)
  }

  /** An unexpired account lease in a job's name is the fence of that very job, which is running. */
  predicate HolderOk(a: AccountId, l: AccountLease, rows: map<JobId, JobRows>, clock: Time) {
    l.owner.JobOwner? && l.expires > clock ==>
      && l.owner.job in rows
      && var job := rows[l.owner.job].job;
      && job.status.Running? && job.spec.Exclusive() && job.spec.account == Some(a) && job.generation == Some(l.generation)
  }

  ghost predicate FencesOk(rows: map<JobId, JobRows>, leases: map<AccountId, AccountLease>, clock: Time) {
    && (forall j {:trigger FenceOk(j, rows[j].job, leases, clock)} | j in rows :: FenceOk(j, rows[j].job, leases, clock))
    && (forall a <- leases :: leases[a].generation >= 1)
    && (forall a {:trigger HolderOk(a, leases[a], rows, clock)} | a in leases :: HolderOk(a, leases[a], rows, clock))
  }

  // ----- browser profiles and preemptions -----

  predicate RunsBrowser(job: Job, account: AccountId) {
    job.status.Running? && BrowserJob(job.spec) && job.spec.account == Some(account)
  }

  ghost predicate OneBrowserPerAccount(rows: map<JobId, JobRows>) {
    forall i, j, a :: i in rows && j in rows && RunsBrowser(rows[i].job, a) && RunsBrowser(rows[j].job, a) ==> i == j
  }

  predicate NeverStarted(job: Job) { job.status.Queued? && job.attemptCount == 0 }

  predicate CanNoLongerStart(job: Job, clock: Time) {
    job.attemptCount == 0 && (Ended(job.status) || job.spec.PastDeadline(clock))
  }

  predicate PreemptionOk(rows: map<JobId, JobRows>, k: Pair, p: Preemption, clock: Time) {
    && k.preemptor in rows && k.victim in rows
    && var preemptor, victim := rows[k.preemptor].job, rows[k.victim].job;
    && BrowserJob(preemptor.spec) && preemptor.spec.account == Some(p.account)
    && BrowserJob(victim.spec) && victim.spec.account == Some(p.account)
    && preemptor.spec.priority == HIGH_PRIORITY && victim.spec.priority < HIGH_PRIORITY
    && victim.attemptCount >= 1
    && (p.status.WaitingForQuiescence? ==> NeverStarted(preemptor))
    && (p.status.PreemptorEnded? ==> CanNoLongerStart(preemptor, clock))
  }

  ghost predicate PreemptionsOk(rows: map<JobId, JobRows>, preemptions: map<Pair, Preemption>, clock: Time) {
    forall k {:trigger PreemptionOk(rows, k, preemptions[k], clock)} | k in preemptions ::
      PreemptionOk(rows, k, preemptions[k], clock)
  }

  /** All waiting preemptions of an account name one victim, and no other browser job of the account runs. */
  ghost predicate OneVictimPerAccount(rows: map<JobId, JobRows>, preemptions: map<Pair, Preemption>) {
    && (forall k, l ::
          (Waits(preemptions, k) && Waits(preemptions, l) && preemptions[k].account == preemptions[l].account)
          ==> k.victim == l.victim)
    && (forall k, j ::
          (Waits(preemptions, k) && j in rows && RunsBrowser(rows[j].job, preemptions[k].account)) ==> j == k.victim)
  }

  // ----- everything -----

  ghost predicate Inv(db: Db, clock: Time) {
    match db
    case Db(rows, preemptions, commands, results, leases, _) =>
      && LocalOk(rows, clock)
      && ResultsOk(commands, results)
      && LockstepOk(rows, commands)
      && BindingOk(rows)
      && TokensOk(rows)
      && FencesOk(rows, leases, clock)
      && OneBrowserPerAccount(rows)
      && PreemptionsOk(rows, preemptions, clock)
      && OneVictimPerAccount(rows, preemptions)
  }

  lemma InvInitially(clock: Time)
    ensures Inv(EMPTY_DB, clock)
  {
  }

  lemma TimePasses(db: Db, clock: Time, now: Time)
    requires Inv(db, clock) && clock <= now
    ensures Inv(db, now)
  {
    forall j <- db.rows ensures RowsOk(db.rows[j], now) {
      assert RowsOk(db.rows[j], clock);
    }
    forall j <- db.rows ensures FenceOk(j, db.rows[j].job, db.leases, now) {
      assert FenceOk(j, db.rows[j].job, db.leases, clock);
    }
    forall a <- db.leases ensures HolderOk(a, db.leases[a], db.rows, now) {
      assert HolderOk(a, db.leases[a], db.rows, clock);
    }
    forall k <- db.preemptions ensures PreemptionOk(db.rows, k, db.preemptions[k], now) {
      assert PreemptionOk(db.rows, k, db.preemptions[k], clock);
    }
  }
}
