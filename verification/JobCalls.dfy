/** Everything that may happen to the tables next, as one datatype. */
module JobCalls {
  import opened Prelude
  import opened WorkerJobs
  import opened Platform
  import opened JobSteps
  import opened WorkerControl
  import Commands

  /** Presence and drain of one worker, and the presence sweep. */
  datatype ControlOp =
    | Greeted(worker: WorkerId, greeting: Greeting, ttl: int)
    | Heartbeating(worker: WorkerId, active: Option<int>, healthy: bool, ttl: int)
    | DrainRequested(worker: WorkerId, reason: string)
    | DrainCompleted(worker: WorkerId)
    | DrainAborted(worker: WorkerId)
    | PresenceSwept(workers: seq<WorkerId>)
    | Enrolled(worker: WorkerId, maxJobs: int, maxSessions: int)

  /** What the Command runtime does; it never touches a Command that a job is bound to. */
  datatype RuntimeAct =
    | CommandReceived(command: CommandId, terms: Commands.CommandSpec)
    | CommandMoved(command: CommandId, target: Commands.CommandStatus, error: Option<Code>, result: Option<Document>,
                   retryAt: Option<Time>)
    | AccountTaken(account: AccountId, attempt: nat, operation: OperationClass, expires: Time)
    | AccountKept(account: AccountId, attempt: nat, generation: int, expires: Time)

  datatype Call =
    | Enqueueing(job: JobId, request: EnqueueRequest)
    | Claiming(worker: WorkerId, token: Token)
    | Renewing(job: JobId, worker: WorkerId, token: Token)
    | Checkpointing(job: JobId, worker: WorkerId, token: Token, checkpoint: Checkpoint)
    | Cancelling(job: JobId, reason: string)
    | Acknowledging(job: JobId, worker: WorkerId, token: Token, cancel: int, phase: string)
    | Completing(job: JobId, worker: WorkerId, token: Token, document: Document)
    | Failing(job: JobId, worker: WorkerId, token: Token, code: string, retryable: bool, ambiguous: bool)
    | Intervening(job: JobId, worker: WorkerId, token: Token, kind: InterventionKind, detail: string)
    | Resolving(job: JobId, intervention: nat, requeue: bool, confirmed: bool)
    | Recovering(batch: seq<JobId>)
    | Controlling(op: ControlOp)
    | FromRuntime(act: RuntimeAct)
  {
    /** The calls that only the holder of a lease can make. */
    predicate Held() {
      Renewing? || Checkpointing? || Acknowledging? || Completing? || Failing? || Intervening?
    }

    /** The holder's calls by which it gives up its lease. */
    predicate Stopping() { Acknowledging? || Completing? || Failing? || Intervening? }
  }

  function ReceiveCommand(db: Db, c: CommandId, spec: Commands.CommandSpec): Step<Db> {
    if c in db.commands then Failure(UniqueViolation)
    else
      Success(db.(commands := db.commands[c := Commands.ReceivedCommand(spec)]))
  }

  /** A Command the runtime executes itself; a terminal move enqueues the result event. */
  function MoveOutside(db: Db, c: CommandId, target: Commands.CommandStatus, error: Option<Code>, result: Option<Document>,
                       retryAt: Option<Time>, now: Time)
    : Step<Db>
  {
    if c !in db.commands then Failure(CommandNotFound)
    else
      :- Need(!CommandTaken(db.rows, c), CommandNotReady);
      match Commands.Transitioned(db.commands[c], target, now, error, result, retryAt)
      case Failure(_) => Failure(InvalidCommandTransition)
      case Success(row) =>
        var sent := if c in db.results then db.results[c] else [];
        Success(db.(commands := db.commands[c := row],
                results := if Commands.Terminal(target) then db.results[c := sent + [ResultEvent(target, error)]] else db.results))
  }

  function TakeAccount(db: Db, a: AccountId, attempt: nat, op: OperationClass, expires: Time, now: Time): Step<Db> {
    match TryAcquire(db.leases, a, CommandOwner(attempt), op, now, expires)
    case None => Failure(AccountCoordinationLost)
    case Some(leases) => Success(db.(leases := leases))
  }

  function ApplyControl(cfg: Config, db: Db, op: ControlOp, now: Time): Step<Db> {
    match op
    case Greeted(w, g, ttl) => SayHello(cfg, db, w, g, ttl, now)
    case Heartbeating(w, active, healthy, ttl) => Heartbeat(db, w, active, healthy, ttl, now)
    case DrainRequested(w, reason) => RequestDrain(db, w, reason)
    case DrainCompleted(w) => CompleteDrain(db, w)
    case DrainAborted(w) => AbortDrain(db, w)
    case PresenceSwept(ws) => Success(db.(workers := ExpirePresence(db.workers, ws, now)))
    case Enrolled(w, maxJobs, maxSessions) => Enrol(db, w, maxJobs, maxSessions)
  }

  function ApplyRuntime(db: Db, act: RuntimeAct, now: Time): Step<Db> {
    match act
    case CommandReceived(c, spec) => ReceiveCommand(db, c, spec)
    case CommandMoved(c, target, error, result, retryAt) => MoveOutside(db, c, target, error, result, retryAt, now)
    case AccountTaken(a, attempt, op, expires) => TakeAccount(db, a, attempt, op, expires, now)
    case AccountKept(a, attempt, generation, expires) =>
      Success(db.(leases := SetExpiry(db.leases, a, CommandOwner(attempt), generation, now, expires)))
  }

  ghost function Apply(cfg: Config, env: Env, db: Db, call: Call, now: Time): Step<Db> {
    match call
    case Enqueueing(j, q) => Enqueue(cfg, env, db, j, q, now)
    case Claiming(w, t) =>
      (match ClaimNext(cfg, env, db, w, now, t)
       case Success(v) => Success(v.0)
       case Failure(e) => Failure(e))
    case Renewing(j, w, t) => Renew(cfg, db, j, w, t, now)
    case Checkpointing(j, w, t, c) => SaveCheckpoint(db, j, w, t, c, now)
    case Cancelling(j, reason) => RequestCancel(cfg, env, db, j, reason, now)
    case Acknowledging(j, w, t, g, phase) => AcknowledgeCancel(cfg, env, db, j, w, t, g, phase, now)
    case Completing(j, w, t, d) => Complete(db, j, w, t, d, now)
    case Failing(j, w, t, code, retryable, ambiguous) => Fail(cfg, db, j, w, t, code, retryable, ambiguous, now)
    case Intervening(j, w, t, kind, detail) => RequestIntervention(db, j, w, t, kind, detail, now)
    case Resolving(j, i, requeue, confirmed) => ResolveIntervention(db, j, i, requeue, confirmed, now)
    case Recovering(batch) => RecoverExpired(db, batch, now)
    case Controlling(op) => ApplyControl(cfg, db, op, now)
    case FromRuntime(act) => ApplyRuntime(db, act, now)
  }

  /** A refused call rolls its transaction back. */
  ghost function After(cfg: Config, env: Env, db: Db, call: Call, now: Time): Db {
    match Apply(cfg, env, db, call, now)
    case Success(next) => next
    case Failure(_) => db
  }
}
