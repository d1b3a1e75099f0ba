/**
 * Every public method of the WorkerJob service as one atomic step on the tables: `Success` with the new
 * tables, or `Failure` with the error, in which case the transaction is rolled back
 * (application/worker_jobs.py).
 */
module JobSteps {
  import opened Prelude
  import opened WorkerJobs
  import opened CapabilityRouter
  import opened Platform
  import Commands

  type Step<T> = Result<T, Error>

  // ----- rows of one job -----

  function SupersedePending(r: JobRows, now: Time, reason: CancelEnd): JobRows {
    match PendingCancel(r.cancels)
    case None => r
    case Some(i) => r.(cancels := r.cancels[i := r.cancels[i].(status := Superseded(now, reason))])
  }

  function EndAttempt(r: JobRows, i: nat, status: AttemptStatus, now: Time, error: Option<Code>): JobRows
    requires i < |r.attempts|
  {
    r.(attempts := r.attempts[i := r.attempts[i].(status := status, finishedAt := Some(now), error := error)])
  }

  function AddIntervention(r: JobRows, kind: InterventionKind, worker: Option<WorkerId>): JobRows {
    if OpenIntervention(r.interventions).Some? then r
    else r.(interventions := r.interventions + [Intervention(kind, worker, Open)])
  }

  function CloseIntervention(r: JobRows, i: nat, status: InterventionStatus): JobRows
    requires i < |r.interventions|
  {
    r.(interventions := r.interventions[i := r.interventions[i].(status := status)])
  }

  // ----- tables -----

  function Locked(db: Db, j: JobId): Step<JobRows> {
    if j in db.rows then Success(db.rows[j]) else Failure(WorkerJobNotFound)
  }

  function RunningAttemptOf(r: JobRows): (i: Step<nat>)
    ensures i.Success? ==> i.value < |r.attempts|
  {
    match RunningAttempt(r.attempts)
    case Some(i) => Success(i)
    case None => Failure(AttemptMissing)
  }

  /** UPDATE of a job's rows, refused by the CHECK constraints of worker_jobs. */
  function Store(db: Db, j: JobId, r: JobRows): Step<Db> {
    if r.job.Storable() then Success(db.(rows := db.rows[j := r])) else Failure(CheckViolation)
  }

  predicate CoordinationHeld(leases: map<AccountId, AccountLease>, j: JobId, job: Job, now: Time) {
    job.spec.Exclusive() ==>
      job.generation.Some? && OwnsAccount(leases, job.spec.account.value, JobOwner(j), job.generation.value, now)
  }

  function ReleaseCoordination(leases: map<AccountId, AccountLease>, j: JobId, spec: JobSpec, generation: Option<int>,
                               now: Time)
    : map<AccountId, AccountLease>
  {
    if spec.account.None? || generation.None? then leases
    else SetExpiry(leases, spec.account.value, JobOwner(j), generation.value, now, now)
  }

  type CommandTable = map<CommandId, Commands.CommandRow>
  type Outbox = map<CommandId, seq<ResultEvent>>

  function MoveCommand(commands: CommandTable, c: CommandId, target: Commands.CommandStatus, now: Time,
                       error: Option<Code>, result: Option<Document>)
    : Step<CommandTable>
    requires c in commands
  {
    match Commands.Transitioned(commands[c], target, now, error, result, None)
    case Success(row) => Success(commands[c := row])
    case Failure(_) => Failure(InvalidCommandTransition)
  }

  /** Ends a Command and enqueues its one result event. */
  function EndCommand(commands: CommandTable, results: Outbox, c: CommandId, target: Commands.CommandStatus, now: Time,
                      result: Option<Document>, error: Option<Code>)
    : Step<(CommandTable, Outbox)>
  {
    if c !in commands then Failure(JobCommandMissing)
    else
      :- Need(commands[c].status.WaitingExecution? || commands[c].status.WaitingIntervention?, CommandStateConflict);
      var moved :- MoveCommand(commands, c, target, now, error, result);
      var sent := if c in results then results[c] else [];
      Success((moved, results[c := sent + [ResultEvent(target, error)]]))
  }

  function FinalizeCommand(db: Db, spec: JobSpec, target: Commands.CommandStatus, now: Time,
                           result: Option<Document>, error: Option<Code>)
    : Step<Db>
  {
    if spec.command.None? then Success(db)
    else
      var ended :- EndCommand(db.commands, db.results, spec.command.value, target, now, result, error);
      Success(db.(commands := ended.0, results := ended.1))
  }

  /** WAITING_EXECUTION <-> WAITING_INTERVENTION, idempotent in its target. */
  function ShiftedCommands(commands: CommandTable, c: CommandId, from: Commands.CommandStatus,
                           target: Commands.CommandStatus, now: Time)
    : Step<CommandTable>
  {
    if c !in commands then Failure(JobCommandMissing)
    else if commands[c].status == from then MoveCommand(commands, c, target, now, None, None)
    else if commands[c].status == target then Success(commands)
    else Failure(CommandStateConflict)
  }

  function ShiftCommand(db: Db, spec: JobSpec, from: Commands.CommandStatus, target: Commands.CommandStatus, now: Time)
    : Step<Db>
  {
    if spec.command.None? then Success(db)
    else
      var shifted :- ShiftedCommands(db.commands, spec.command.value, from, target, now);
      Success(db.(commands := shifted))
  }

  // ----- preemptions -----

  function SatisfyForVictim(preemptions: map<Pair, Preemption>, v: JobId, now: Time, how: Quiescence)
    : map<Pair, Preemption>
  {
    map k | k in preemptions ::
      if k in WaitingForVictim(preemptions, v) then preemptions[k].(status := Satisfied(now, how)) else preemptions[k]
  }

  function SupersedeAll(preemptions: map<Pair, Preemption>, s: set<Pair>, now: Time): map<Pair, Preemption> {
    map k | k in preemptions ::
      if k in s then preemptions[k].(status := PreemptorEnded(now)) else preemptions[k]
  }

  /** Victims that wait for no one else lose their pending cancel request. */
  function SupersedeForPreemptor(db: Db, p: JobId, now: Time): Db {
    var dropped := WaitingForPreemptor(db.preemptions, p);
    var preemptions := SupersedeAll(db.preemptions, dropped, now);
    db.(preemptions := preemptions,
    rows := map j | j in db.rows ::
      if Pair(p, j) in dropped && WaitingForVictim(preemptions, j) == {}
      then SupersedePending(db.rows[j], now, PreemptionNoLongerPending)
      else db.rows[j])
  }

  // ----- cancellation -----

  predicate Cancellable(cfg: Config, spec: JobSpec) {
    spec.version == 1 && spec.operation.Read? && spec.capability in cfg.cancellable && cfg.cancellable[spec.capability] != {}
  }

  predicate ActivityLinked(env: Env, db: Db, spec: JobSpec) {
    && spec.command.Some? && spec.command.value.ForActivity?
    && spec.command.value.activity in env.activities
    && var a := env.activities[spec.command.value.activity];
    && a.materialized && a.command == spec.command && spec.account == Some(a.account)
    && a.activityType == spec.capability && a.priority == spec.priority
    && spec.command.value in db.commands
    && var c := db.commands[spec.command.value];
    && c.spec.commandType == spec.capability && spec.account == Some(c.spec.account)
    && c.spec.priority == spec.priority && c.status.WaitingExecution?
  }

  /** The attempt number a cancel request may target now. */
  function CancelTarget(cfg: Config, env: Env, db: Db, r: JobRows, now: Time): (n: Step<int>)
    ensures n.Success? ==> r.job.status.Running? && RunningAttempt(r.attempts).Some? && n.value == r.job.attemptCount
  {
    if !r.job.status.Running? then Failure(NotRunning)
    else
      :- Need(r.job.spec.preemptible, NotPreemptible);
      :- Need(Cancellable(cfg, r.job.spec), CancellationUnsupported);
      :- Need(r.job.lease.Some? && r.job.lease.value.expires > now, LeaseLost);
      var i :- RunningAttemptOf(r);
      var a := r.attempts[i];
      :- Need(a.number == r.job.attemptCount && a.worker == r.job.lease.value.worker && a.token == r.job.lease.value.token,
              AttemptStale);
      :- Need(ActivityLinked(env, db, r.job.spec), NotMaterializedActivity);
      Success(a.number)
  }

  /** The pending request for the current attempt, reused or newly appended. */
  function PlaceCancel(r: JobRows, target: int, reason: Code, now: Time): (JobRows, int) {
    var pending := PendingCancel(r.cancels);
    if pending.Some? && r.cancels[pending.value].target == target then (r, r.cancels[pending.value].generation)
    else
      var r1 := SupersedePending(r, now, TargetAttemptEnded);
      var g := LatestGeneration(r1.cancels) + 1;
      (r1.(cancels := r1.cancels + [Cancel(g, target, reason, Pending)]), g)
  }

  function RequestCancelInTransaction(cfg: Config, env: Env, db: Db, j: JobId, reason: Code, now: Time)
    : Step<(Db, int)>
    requires j in db.rows
  {
    var target :- CancelTarget(cfg, env, db, db.rows[j], now);
    var (r, g) := PlaceCancel(db.rows[j], target, reason, now);
    Success((db.(rows := db.rows[j := r]), g))
  }

  predicate ReasonCode(s: string) {
    1 <= |s| <= 120 && forall c <- s :: 'A' <= c <= 'Z' || '0' <= c <= '9' || c == '_'
  }

  function RequestCancel(cfg: Config, env: Env, db: Db, j: JobId, reason: string, now: Time): Step<Db> {
    if !ReasonCode(reason) then Failure(CancelReasonInvalid)
    else
      var _ :- Locked(db, j);
      var placed :- RequestCancelInTransaction(cfg, env, db, j, Reported(reason), now);
      Success(placed.0)
  }

  // ----- enqueue and arbitration -----

  datatype EnqueueRequest = EnqueueRequest(
    command: Option<CommandId>,
    account: Option<AccountId>,
    assignee: Option<WorkerId>,
    affinity: Option<bool>,
    capability: string,
    version: int,
    operation: OperationClass,
    priority: int,
    preemptible: bool,
    scheduledAt: Option<Time>,
    deadline: Option<Time>,
    maxAttempts: int,
    retrySafety: RetrySafety)

  predicate Blocked(cfg: Config, capability: string) {
    capability in cfg.policies && cfg.policies[capability].blocked.Some?
  }

  function CommandReady(db: Db, q: EnqueueRequest, now: Time): Outcome<Error> {
    match q.command
    case None => Pass
    case Some(c) =>
      if c !in db.commands then Refuse(CommandNotFound)
      else
        var row := db.commands[c];
        if !(row.status.Validated? || row.status.WaitingExecution?) then Refuse(CommandNotReady)
        else if row.spec.deadline.Some? && now >= row.spec.deadline.value then Refuse(CommandDeadlineExpired)
        else if q.priority != row.spec.priority then Refuse(PriorityMismatch)
        else if q.account.Some? && q.account.value != row.spec.account then Refuse(CommandAccountMismatch)
        else Pass
  }

  /** The new QUEUED row: account and deadline come from the Command, the worker from the assignment. */
  function NewJob(env: Env, db: Db, q: EnqueueRequest, now: Time): Step<Job> {
    var ready := CommandReady(db, q, now);
    :- ready;
    var account := if q.command.Some? then Some(db.commands[q.command.value].spec.account) else q.account;
    var deadline := if q.command.Some? && q.deadline.None? then db.commands[q.command.value].spec.deadline else q.deadline;
    var active :=
      if account.Some? && account.value in env.assignments then Some(env.assignments[account.value]) else None;
    var affinity := if q.affinity.Some? then q.affinity.value else active.Some?;
    :- Need(!affinity || active.Some?, AssignmentRequired);
    :- Need(active.None? || q.assignee.None? || q.assignee == active, AffinityMismatch);
    var assignee := if affinity then active else q.assignee;
    var scheduled := if q.scheduledAt.Some? then q.scheduledAt.value else now;
    var job := Job(
                 JobSpec(q.command, account, assignee, affinity, q.capability, q.version, q.operation, q.priority,
                         q.preemptible, deadline, q.maxAttempts, now),
                 JobStatus.Queued, scheduled, 0, q.retrySafety, false, None, None, None, None, None);
    :- Need(!Blank(q.capability) && job.Storable(), InvalidJob);
    Success(job)
  }

  predicate CommandTaken(rows: map<JobId, JobRows>, c: CommandId) {
    exists j <- rows :: rows[j].job.spec.command == Some(c)
  }

  predicate RouteTrusted(env: Env, db: Db, spec: JobSpec)
    requires spec.command.Some? && spec.command.value in db.commands
  {
    spec.command.value in env.routes &&
    var route := env.routes[spec.command.value];
    && route.target.WorkerJobTarget? && route.executor == Some(Worker)
    && route.capability == spec.capability && route.version == spec.version
    && route.account == db.commands[spec.command.value].spec.account && route.operation == spec.operation
  }

  /** The new row and its Command's move, refused by the primary key and by one-job-per-command. */
  function AddJob(env: Env, db: Db, j: JobId, q: EnqueueRequest, now: Time): Step<Db> {
    var job :- NewJob(env, db, q, now);
    var commands :-
      if q.command.Some? && db.commands[q.command.value].status.Validated?
      then MoveCommand(db.commands, q.command.value, Commands.CommandStatus.WaitingExecution, now, None, None)
      else Success(db.commands);
    :- Need(j !in db.rows && !(q.command.Some? && CommandTaken(db.rows, q.command.value)), UniqueViolation);
    Success(db.(commands := commands, rows := db.rows[j := JobRows(job, [], [], [])]))
  }

  /** A high-priority job must come from a trusted route; a browser one then arbitrates. */
  function Prioritize(cfg: Config, env: Env, db: Db, j: JobId, now: Time): Step<Db>
    requires j in db.rows
  {
    var spec := db.rows[j].job.spec;
    if spec.command.None? || spec.command.value !in db.commands
       || db.commands[spec.command.value].spec.priority != HIGH_PRIORITY then Success(db)
    else
      :- Need(RouteTrusted(env, db, spec), RouteNotTrusted);
      :- Need(spec.account.Some? && spec.affinity, HighPriorityAffinityRequired);
      if !BrowserJob(spec) then Success(db)
      else
        :- Need(spec.account.value in env.accounts, AccountNotFound);
        Success(Arbitrate(cfg, env, db, j, spec.account.value, RunningBrowser(db.rows, spec.account.value), now))
  }

  function Enqueue(cfg: Config, env: Env, db: Db, j: JobId, q: EnqueueRequest, now: Time): Step<Db> {
    if Blocked(cfg, q.capability) then Failure(CapabilityBlocked)
    else
      var added :- AddJob(env, db, j, q, now);
      if j in added.rows then Prioritize(cfg, env, added, j, now) else Success(added)
  }

  /** The given preemptions point to the cancel request made for them. */
  function Pointed(db: Db, s: set<Pair>, generation: int): Db {
    db.(preemptions := map k | k in db.preemptions ::
      if k in s then db.preemptions[k].(cancelRequest := Some(generation)) else db.preemptions[k])
  }

  /** Asks a victim's holder to stop; where that is impossible the rows stay durable blockers. */
  function AskToStop(cfg: Config, env: Env, db: Db, v: JobId, s: set<Pair>, now: Time): Db
    requires v in db.rows
  {
    match RequestCancelInTransaction(cfg, env, db, v, HighPriorityPreemption, now)
    case Failure(_) => db
    case Success(placed) => Pointed(placed.0, s, placed.1)
  }

  /** add_if_absent of a waiting row for the pair. */
  function Marked(db: Db, k: Pair, account: AccountId): (marked: Db)
    ensures k in marked.preemptions
  {
    if k in db.preemptions then db
    else db.(preemptions := db.preemptions[k := Preemption(account, WaitingForQuiescence, None)])
  }

  /** One running browser job of the account: it becomes the new job's victim and is asked to stop. */
  function ArbitrateOne(cfg: Config, env: Env, db: Db, p: JobId, account: AccountId, v: JobId, now: Time): Db
    requires p in db.rows
  {
    if v !in db.rows || v == p then db
    else
      var preemptor, victim := db.rows[p].job.spec, db.rows[v].job;
      if victim.spec.priority >= preemptor.priority || !victim.status.Running? || victim.spec.account != Some(account)
         || !victim.spec.affinity then db
      else
        var k := Pair(p, v);
        var marked := Marked(db, k, account);
        if !marked.preemptions[k].status.WaitingForQuiescence? then marked
        else AskToStop(cfg, env, marked, v, {k}, now)
  }

  /** The arbitration loop over the running browser jobs of the account, in any order. */
  function Arbitrate(cfg: Config, env: Env, db: Db, p: JobId, account: AccountId, victims: set<JobId>, now: Time): Db
    requires p in db.rows
    decreases |victims|
  {
    if victims == {} then db
    else
      var v := Least(victims);
      var next := ArbitrateOne(cfg, env, db, p, account, v, now);
      Arbitrate(cfg, env, next, p, account, victims - {v}, now)
  }

  predicate IsLeast(s: set<nat>, m: nat) { m in s && forall x <- s :: m <= x }

  function Least(s: set<nat>): (m: nat)
    requires s != {}
    ensures IsLeast(s, m)
  {
    LeastExists(s);
    var m :| IsLeast(s, m);
    m
  }

  lemma LeastExists(s: set<nat>)
    requires s != {}
    ensures exists m :: IsLeast(s, m)
    decreases |s|
  {
    var x :| x in s;
    var rest := s - {x};
    if rest == {} {
      assert s == {x};
      assert IsLeast(s, x);
    } else {
      LeastExists(rest);
      var m :| IsLeast(rest, m);
      var least := if m < x then m else x;
      forall y <- s ensures least <= y {
        assert y == x || y in rest;
      }
      assert IsLeast(s, least);
    }
  }

  // ----- claim -----

  predicate PolicyAllowsClaim(cfg: Config, env: Env, db: Db, spec: JobSpec, worker: WorkerId) {
    && !Blocked(cfg, spec.capability)
    && (spec.account.Some? ==>
          && spec.account.value in env.accounts
          && (spec.affinity ==>
                spec.account.value in env.assignments && env.assignments[spec.account.value] == worker)
          && (spec.command.Some? ==>
                && spec.command.value in db.commands
                && db.commands[spec.command.value].spec.account == spec.account.value
                && db.commands[spec.command.value].status.WaitingExecution?
                && (spec.command.value in env.routes ==>
                      var account, command := env.accounts[spec.account.value], db.commands[spec.command.value].spec;
                      && env.routes[spec.command.value].executor == Some(Worker)
                      && account.status.Active?
                      && WorkerExecutionAllowed(cfg.policies, command.commandType, account.mode)
                      && cfg.policies[command.commandType].workerCapability == Some((spec.capability, spec.version)))))
  }

  /** A browser-profile job may be claimed next to no other one, and never around a waiting preemption. */
  predicate BrowserGate(env: Env, db: Db, c: JobId, worker: WorkerId, w: WorkerNode, now: Time)
    requires c in db.rows
  {
    var job := db.rows[c].job;
    BrowserJob(job.spec) ==>
      var account := job.spec.account.value;
      var waiting := WaitingForAccount(db.preemptions, account);
      && (forall k <- waiting :: k.preemptor != c)
      && (|| ((job.status.Running? || job.status.Queued? || job.status.FailedRetryable?)
              && exists k <- waiting :: k.victim == c)
          || (var open := ClaimableBrowser(db, env, worker, w, now, account); Leads(db.rows, open, c)))
      && (forall r <- RunningBrowser(db.rows, account) :: r == c)
      && (forall k <- waiting :: k.victim == c)
  }

  datatype Claim = Skipped(db: Db) | Taken(db: Db) | Aborted(error: Error)

  predicate TokenUsed(rows: map<JobId, JobRows>, token: Token) {
    exists j <- rows :: exists a <- rows[j].attempts :: a.token == token
  }

  /** The claimed row, its previous running attempt abandoned and the new attempt appended. */
  function ClaimedRows(r: JobRows, job: Job, worker: WorkerId, token: Token, now: Time): JobRows {
    var previous := if r.job.status.Running? then RunningAttempt(r.attempts) else None;
    var r1 := if previous.Some? then EndAttempt(r, previous.value, AttemptAbandoned, now, Some(LeaseExpired)) else r;
    r1.(job := job,
    attempts := r1.attempts + [Attempt(job.attemptCount, worker, token, AttemptRunning, None, None)])
  }

  predicate Viable(rows: map<JobId, JobRows>, p: JobId, victim: JobSpec, now: Time) {
    && p in rows
    && (rows[p].job.status.Queued? || rows[p].job.status.FailedRetryable?)
    && rows[p].job.spec.priority > victim.priority
    && !rows[p].job.spec.PastDeadline(now)
  }

  function ViableFor(db: Db, j: JobId, now: Time): set<Pair>
    requires j in db.rows
  {
    set k | k in WaitingForVictim(db.preemptions, j) && Viable(db.rows, k.preemptor, db.rows[j].job.spec, now)
  }

  /** Waiting rows of this victim whose preemptor can no longer start are superseded. */
  function DropNonViable(db: Db, j: JobId, now: Time): Db
    requires j in db.rows
  {
    db.(preemptions :=
      SupersedeAll(db.preemptions, WaitingForVictim(db.preemptions, j) - ViableFor(db, j, now), now))
  }

  /** A victim that starts again is asked to stop again, on behalf of the preemptors that still matter. */
  function RequestCancelForWaiting(cfg: Config, env: Env, db: Db, j: JobId, now: Time): Db
    requires j in db.rows
  {
    var spec := db.rows[j].job.spec;
    if spec.account.None? || !spec.affinity then db
    else if ViableFor(db, j, now) == {} || spec.priority >= HIGH_PRIORITY then DropNonViable(db, j, now)
    else AskToStop(cfg, env, DropNonViable(db, j, now), j, ViableFor(db, j, now), now)
  }

  /** The pending request of an expired lease lapses before the job is claimed again. */
  function Lapsed(r: JobRows, now: Time): JobRows {
    if r.job.status.Running? && r.job.lease.Some? && r.job.lease.value.expires <= now
    then SupersedePending(r, now, TargetAttemptEnded) else r
  }

  /** The account lease an exclusive candidate must win first. */
  function Acquired(cfg: Config, db: Db, c: JobId, now: Time): Option<map<AccountId, AccountLease>>
    requires c in db.rows
  {
    var spec := db.rows[c].job.spec;
    if spec.Exclusive()
    then TryAcquire(db.leases, spec.account.value, JobOwner(c), spec.operation, now, now + cfg.leaseDuration)
    else Some(db.leases)
  }

  function FenceIn(leases: map<AccountId, AccountLease>, spec: JobSpec): Option<int> {
    if spec.Exclusive() && spec.account.value in leases then Some(leases[spec.account.value].generation) else None
  }

  /** The rows of a job after the domain `claim` and the new attempt, or `None` where `claim` raises. */
  function TakenRows(cfg: Config, r: JobRows, fence: Option<int>, worker: WorkerId, now: Time, token: Token): Option<JobRows> {
    match r.job.Claimed(worker, now, now + cfg.leaseDuration, token, fence)
    case None => None
    case Some(job) => Some(ClaimedRows(Lapsed(r, now), job, worker, token, now))
  }

  /** The claim of one candidate whose gates passed and whose account lease is won. */
  function Take(cfg: Config, env: Env, db: Db, c: JobId, leases: map<AccountId, AccountLease>, worker: WorkerId, now: Time,
                token: Token)
    : Claim
    requires c in db.rows
  {
    var r := db.rows[c];
    var fence := FenceIn(leases, r.job.spec);
    match TakenRows(cfg, r, fence, worker, now, token)
    case None =>
      Skipped(db.(rows := db.rows[c := Lapsed(r, now)], leases := ReleaseCoordination(leases, c, r.job.spec, fence, now)))
    case Some(next) =>
      if !next.job.Storable() then Aborted(CheckViolation)
      else if TokenUsed(db.rows, token) || (exists a <- r.attempts :: a.number == next.job.attemptCount) then
        Aborted(UniqueViolation)
      else Taken(RequestCancelForWaiting(cfg, env, db.(leases := leases, rows := db.rows[c := next]), c, now))
  }

  /** One candidate of the claim loop. */
  function ClaimOne(cfg: Config, env: Env, db: Db, c: JobId, worker: WorkerId, w: WorkerNode, now: Time, token: Token)
    : Claim
    requires c in db.rows
  {
    if !PolicyAllowsClaim(cfg, env, db, db.rows[c].job.spec, worker) || !BrowserGate(env, db, c, worker, w, now)
    then Skipped(db)
    else
      match Acquired(cfg, db, c, now)
      case None => Skipped(db)
      case Some(leases) => Take(cfg, env, db, c, leases, worker, now, token)
  }

  /** The claim loop: the first candidate that can be taken is taken. */
  ghost function ClaimLoop(cfg: Config, env: Env, db: Db, list: seq<JobId>, worker: WorkerId, w: WorkerNode, now: Time,
                           token: Token)
    : Step<(Db, Option<JobId>)>
    decreases |list|
  {
    if list == [] then Success((db, None))
    else if list[0] !in db.rows then ClaimLoop(cfg, env, db, list[1..], worker, w, now, token)
    else
      match ClaimOne(cfg, env, db, list[0], worker, w, now, token)
      case Skipped(next) => ClaimLoop(cfg, env, next, list[1..], worker, w, now, token)
      case Taken(next) => Success((next, Some(list[0])))
      case Aborted(e) => Failure(e)
  }

  ghost function ClaimNext(cfg: Config, env: Env, db: Db, worker: WorkerId, now: Time, token: Token)
    : Step<(Db, Option<JobId>)>
  {
    if worker !in db.workers then Failure(WorkerNotFound)
    else
      var w := db.workers[worker];
      :- Need(Eligible(w, now), WorkerNotEligible);
      ClaimLoop(cfg, env, db, Candidates(db, env, worker, w, now), worker, w, now, token)
  }

  // ----- the lease holder's calls -----

  function Renew(cfg: Config, db: Db, j: JobId, worker: WorkerId, token: Token, now: Time): Step<Db> {
    var r :- Locked(db, j);
    :- Need(r.job.OwnsLease(worker, token, now), LeaseLost);
    :- Need(CoordinationHeld(db.leases, j, r.job, now), AccountCoordinationLost);
    var expires := now + cfg.leaseDuration;
    var leases :=
      if r.job.spec.Exclusive()
      then SetExpiry(db.leases, r.job.spec.account.value, JobOwner(j), r.job.generation.value, now, expires)
      else db.leases;
    Store(db.(leases := leases), j, r.(job := r.job.Renewed(expires)))
  }

  function SaveCheckpoint(db: Db, j: JobId, worker: WorkerId, token: Token, checkpoint: Checkpoint, now: Time): Step<Db> {
    var r :- Locked(db, j);
    :- Need(r.job.OwnsLease(worker, token, now), LeaseLost);
    :- Need(CoordinationHeld(db.leases, j, r.job, now), AccountCoordinationLost);
    Store(db, j, r.(job := r.job.(checkpoint := Some(checkpoint))))
  }

  /** What the four ways for a holder to stop share: whoever waited for it may go on, and its fence is released. */
  function Stopped(db: Db, j: JobId, r: JobRows, how: Quiescence, now: Time): Db {
    db.(preemptions := SatisfyForVictim(db.preemptions, j, now, how),
    leases := ReleaseCoordination(db.leases, j, r.job.spec, r.job.generation, now))
  }

  /** The rows of a job after its running attempt ended with `status` and its pending request lapsed. */
  function AttemptOver(r: JobRows, job: Job, status: AttemptStatus, now: Time, error: Option<Code>): Step<JobRows> {
    var i :- RunningAttemptOf(r);
    Success(EndAttempt(SupersedePending(r, now, TargetAttemptEnded), i, status, now, error).(job := job))
  }

  function AcknowledgedRows(cfg: Config, r: JobRows, worker: WorkerId, token: Token, generation: int, phase: string,
                            now: Time)
    : Step<(JobRows, Code)>
  {
    var spec := r.job.spec;
    :- Need(r.job.OwnsLease(worker, token, now), LeaseLost);
    :- Need(spec.preemptible, NotPreemptible);
    :- Need(spec.version == 1 && spec.operation.Read? && spec.capability in cfg.cancellable
            && phase in cfg.cancellable[spec.capability], CheckpointNotSafe);
    :- Need(r.job.checkpoint.Some? && r.job.checkpoint.value.phase == Some(phase), CheckpointMismatch);
    var i :- RunningAttemptOf(r);
    var a := r.attempts[i];
    :- Need(a.number == r.job.attemptCount && a.worker == worker && a.token == token, AttemptStale);
    var pending := PendingCancel(r.cancels);
    :- Need(pending.Some? && r.cancels[pending.value].generation == generation
            && r.cancels[pending.value].target == a.number, CancelRequestStale);
    var request := r.cancels[pending.value];
    var r1 := EndAttempt(r, i, AttemptCancelled, now, Some(request.reason));
    Success((r1.(cancels := r.cancels[pending.value := request.(status := Acknowledged(now, phase))],
             job := r.job.CancelledBy(request.reason)), request.reason))
  }

  function AcknowledgeCancel(cfg: Config, env: Env, db: Db, j: JobId, worker: WorkerId, token: Token, generation: int,
                             phase: string, now: Time)
    : Step<Db>
  {
    var r :- Locked(db, j);
    var acknowledged :- AcknowledgedRows(cfg, r, worker, token, generation, phase, now);
    :- Need(ActivityLinked(env, db, r.job.spec), NotMaterializedActivity);
    var stored :- Store(db, j, acknowledged.0);
    var ended :- FinalizeCommand(stored, r.job.spec, Commands.CommandStatus.Cancelled, now, None, Some(acknowledged.1));
    Success(Stopped(ended, j, r, CancelAcknowledged, now))
  }

  function Complete(db: Db, j: JobId, worker: WorkerId, token: Token, document: Document, now: Time): Step<Db> {
    var r :- Locked(db, j);
    :- Need(CoordinationHeld(db.leases, j, r.job, now), AccountCoordinationLost);
    :- Need(r.job.OwnsLease(worker, token, now), LeaseLost);
    var next :- AttemptOver(r, r.job.Completed(document), AttemptSucceeded, now, None);
    var stored :- Store(db, j, next);
    var ended :- FinalizeCommand(stored, r.job.spec, Commands.CommandStatus.Succeeded, now, Some(document), None);
    Success(Stopped(ended, j, r, VictimSucceeded, now))
  }

  predicate Blank(s: string) { forall c <- s :: c == ' ' || '\t' <= c <= '\r' }

  function FailedRows(r: JobRows, worker: WorkerId, code: Code, retryable: bool, ambiguous: bool, retryAt: Time, now: Time)
    : Step<JobRows>
  {
    var job := r.job.Failed(code, retryable, ambiguous, retryAt);
    if job.status.WaitingIntervention? then
      var over :- AttemptOver(r, job, AttemptWaitingIntervention, now, Some(code));
      Success(AddIntervention(over, if ambiguous then AmbiguousOutcomeSeen else OperatorConfirmationRequired, Some(worker)))
    else
      AttemptOver(r, job, if job.status.FailedRetryable? then AttemptFailedRetryable else AttemptFailedFinal, now, Some(code))
  }

  /** The Command follows a failed job to an operator or to its end; a retry leaves it waiting for execution. */
  function FailedCommand(db: Db, job: Job, code: Code, now: Time): Step<Db> {
    if job.status.WaitingIntervention? then
      ShiftCommand(db, job.spec, Commands.CommandStatus.WaitingExecution, Commands.CommandStatus.WaitingIntervention, now)
    else if job.status.FailedFinal? then
      FinalizeCommand(db, job.spec, Commands.CommandStatus.FailedFinal, now, None, Some(code))
    else Success(db)
  }

  function Fail(cfg: Config, db: Db, j: JobId, worker: WorkerId, token: Token, code: string, retryable: bool,
                ambiguous: bool, now: Time)
    : Step<Db>
  {
    var r :- Locked(db, j);
    :- Need(CoordinationHeld(db.leases, j, r.job, now), AccountCoordinationLost);
    :- Need(r.job.OwnsLease(worker, token, now), LeaseLost);
    :- Need(!Blank(code), InvalidErrorCode);
    var next :- FailedRows(r, worker, Reported(code), retryable, ambiguous, now + cfg.retryDelay, now);
    FailStored(db, j, r, next, Reported(code), now)
  }

  /** The failed rows are written, the Command follows, and the holder has stopped. */
  function FailStored(db: Db, j: JobId, r: JobRows, next: JobRows, code: Code, now: Time): Step<Db> {
    var stored :- Store(db, j, next);
    var moved :- FailedCommand(stored, next.job, code, now);
    Success(Stopped(moved, j, r, VictimFailed, now))
  }

  function IntervenedRows(r: JobRows, worker: WorkerId, kind: InterventionKind, detail: string, now: Time): Step<JobRows> {
    var job := r.job.Intervened();
    var marked := if kind.AmbiguousOutcomeSeen? then job.(retrySafety := ReconciliationRequired) else job;
    var over :- AttemptOver(r, marked, AttemptWaitingIntervention, now, Some(Reported(detail)));
    Success(AddIntervention(over, kind, Some(worker)))
  }

  function RequestIntervention(db: Db, j: JobId, worker: WorkerId, token: Token, kind: InterventionKind, detail: string,
                               now: Time)
    : Step<Db>
  {
    if kind.UnknownKind? then Failure(InterventionTypeUnsupported)
    else
      var r :- Locked(db, j);
      :- Need(CoordinationHeld(db.leases, j, r.job, now), AccountCoordinationLost);
      :- Need(r.job.OwnsLease(worker, token, now), LeaseLost);
      var next :- IntervenedRows(r, worker, kind, detail, now);
      var stored :- Store(db, j, next);
      var moved :- ShiftCommand(stored, r.job.spec, Commands.CommandStatus.WaitingExecution,
                                Commands.CommandStatus.WaitingIntervention, now);
      Success(Stopped(moved, j, r, InterventionRequested, now))
  }

  // ----- operator and scheduler calls -----

  function ResolvedRows(r: JobRows, i: nat, requeue: bool, confirmed: bool, now: Time): Step<JobRows> {
    if i >= |r.interventions| then Failure(InterventionNotFound)
    else
      :- Need(r.interventions[i].status.Open?, InterventionAlreadyResolved);
      var resolved := r.job.Resolved(now, requeue, confirmed);
      :- Need(resolved.Some?, RequeueNotSafe);
      Success(CloseIntervention(r, i, Resolved).(job := resolved.value))
  }

  function ResolveIntervention(db: Db, j: JobId, i: nat, requeue: bool, confirmed: bool, now: Time): Step<Db> {
    if j !in db.rows then Failure(InterventionNotFound)
    else
      var next :- ResolvedRows(db.rows[j], i, requeue, confirmed, now);
      var stored :- Store(db, j, next);
      if requeue then
        ShiftCommand(stored, next.job.spec, Commands.CommandStatus.WaitingIntervention,
                     Commands.CommandStatus.WaitingExecution, now)
      else
        var ended :- FinalizeCommand(stored, next.job.spec, Commands.CommandStatus.FailedFinal, now, None, next.job.error);
        Success(SupersedeForPreemptor(ended, j, now))
  }

  /** A recovered row: its attempt ends if one is running, its pending request lapses. */
  function RecoveredRows(r: JobRows, job: Job, status: AttemptStatus, code: Code, now: Time): JobRows {
    var r1 := SupersedePending(r, now, TargetAttemptEnded);
    var running := RunningAttempt(r.attempts);
    (if running.Some? then EndAttempt(r1, running.value, status, now, Some(code)) else r1).(job := job)
  }

  function ExpiredRows(r: JobRows, now: Time): JobRows {
    var over := RecoveredRows(r, r.job.ExpiredAt(JobDeadlineExpired), AttemptFailedFinal, JobDeadlineExpired, now);
    var open := OpenIntervention(over.interventions);
    if open.Some? then CloseIntervention(over, open.value, InterventionCancelled) else over
  }

  function ExhaustedRows(r: JobRows, now: Time): JobRows {
    RecoveredRows(r, r.job.FinallyFailed(AttemptsExhausted), AttemptFailedFinal, AttemptsExhausted, now)
  }

  function SuspendedRows(r: JobRows, now: Time): JobRows {
    var owner := if r.job.lease.Some? then Some(r.job.lease.value.worker) else r.job.spec.assignee;
    var over := RecoveredRows(r, r.job.Suspended(AmbiguousOutcome), AttemptWaitingIntervention, AmbiguousOutcome, now);
    AddIntervention(over, AmbiguousOutcomeSeen, owner)
  }

  function EndRecovered(db: Db, j: JobId, next: JobRows, target: Commands.CommandStatus, code: Code, now: Time): Step<Db> {
    var stored :- Store(db, j, next);
    var ended :- FinalizeCommand(stored, next.job.spec, target, now, None, Some(code));
    Success(SupersedeForPreemptor(ended, j, now))
  }

  /** One row of the recovery loop: past its deadline, out of attempts, or of unknown outcome. */
  function RecoverOne(db: Db, j: JobId, now: Time): Step<Db>
    requires j in db.rows
  {
    var r := db.rows[j];
    var released := db.(leases := ReleaseCoordination(db.leases, j, r.job.spec, r.job.generation, now));
    if r.job.spec.PastDeadline(now) then
      EndRecovered(released, j, ExpiredRows(r, now), Commands.CommandStatus.Expired, JobDeadlineExpired, now)
    else if r.job.attemptCount >= r.job.spec.maxAttempts then
      EndRecovered(released, j, ExhaustedRows(r, now), Commands.CommandStatus.FailedFinal, AttemptsExhausted, now)
    else if r.job.status.Running? && r.job.retrySafety.ReconciliationRequired? then
      var stored :- Store(released, j, SuspendedRows(r, now));
      ShiftCommand(stored, r.job.spec, Commands.CommandStatus.WaitingExecution,
                   Commands.CommandStatus.WaitingIntervention, now)
    else
      Success(db.(rows := db.rows[j := SupersedePending(r, now, TargetAttemptEnded)]))
  }

  /** The recovery loop over a batch the query returned: any rows that qualify, in any order. */
  function RecoverExpired(db: Db, batch: seq<JobId>, now: Time): Step<Db>
    decreases |batch|
  {
    if batch == [] then Success(db)
    else if batch[0] !in db.rows || !Recoverable(db.rows[batch[0]].job, now) then RecoverExpired(db, batch[1..], now)
    else
      var next :- RecoverOne(db, batch[0], now);
      RecoverExpired(next, batch[1..], now)
  }
}
