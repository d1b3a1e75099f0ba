/** Exactly when a job is accepted into the queue, and every field of what is stored for it. */
module EnqueueMeanings {
  import opened Prelude
  import opened WorkerJobs
  import opened CapabilityRouter
  import opened Platform
  import opened JobSteps
  import opened JobInvariants
  import opened HolderMeanings
  import Commands

  // ----- what is asked for -----

  function AccountOf(db: Db, q: EnqueueRequest): Option<AccountId> {
    match q.command
    case Some(c) => if c in db.commands then Some(db.commands[c].spec.account) else None
    case None => q.account
  }

  function DeadlineOf(db: Db, q: EnqueueRequest): Option<Time> {
    if q.deadline.Some? then q.deadline
    else
      match q.command
      case Some(c) => if c in db.commands then db.commands[c].spec.deadline else None
      case None => None
  }

  /** The worker that has the account, if it has one. */
  function AssignedTo(env: Env, account: Option<AccountId>): Option<WorkerId> {
    if account.Some? && account.value in env.assignments then Some(env.assignments[account.value]) else None
  }

  predicate SticksToWorker(env: Env, db: Db, q: EnqueueRequest) {
    if q.affinity.Some? then q.affinity.value else AssignedTo(env, AccountOf(db, q)).Some?
  }

  function StartOf(q: EnqueueRequest, now: Time): Time { if q.scheduledAt.Some? then q.scheduledAt.value else now }

  /** Every field of the stored job. */
  predicate StoredAs(env: Env, db: Db, q: EnqueueRequest, now: Time, job: Job) {
    && job.spec.command == q.command && job.spec.account == AccountOf(db, q) && job.spec.deadline == DeadlineOf(db, q)
    && job.spec.affinity == SticksToWorker(env, db, q)
    && job.spec.assignee == (if job.spec.affinity then AssignedTo(env, AccountOf(db, q)) else q.assignee)
    && job.spec.capability == q.capability && job.spec.version == q.version && job.spec.operation == q.operation
    && job.spec.priority == q.priority && job.spec.preemptible == q.preemptible && job.spec.maxAttempts == q.maxAttempts
    && job.spec.createdAt == now
    && job.status.Queued? && job.scheduledAt == StartOf(q, now) && job.attemptCount == 0 && job.retrySafety == q.retrySafety
    && !job.retryAuthorized && job.lease.None? && job.generation.None? && job.checkpoint.None? && job.result.None?
    && job.error.None?
  }

  // ----- when it is accepted -----

  /** The Command is validated or already waiting, in time, and of the same priority and account. */
  predicate CommandFits(db: Db, q: EnqueueRequest, now: Time) {
    q.command.Some? ==>
      && q.command.value in db.commands
      && var row := db.commands[q.command.value];
      && (row.status.Validated? || row.status.WaitingExecution?)
      && (row.spec.deadline.Some? ==> now < row.spec.deadline.value)
      && row.spec.priority == q.priority && (q.account.Some? ==> q.account.value == row.spec.account)
  }

  predicate WorkerFits(env: Env, db: Db, q: EnqueueRequest) {
    var active := AssignedTo(env, AccountOf(db, q));
    && (SticksToWorker(env, db, q) ==> active.Some?)
    && (active.Some? && q.assignee.Some? ==> q.assignee == active)
  }

  /** The request is complete and its start lies before its deadline. */
  predicate RequestFits(db: Db, q: EnqueueRequest, now: Time) {
    && (exists c <- q.capability :: !(c == ' ' || '\t' <= c <= '\r'))
    && q.maxAttempts > 0 && q.version > 0
    && (DeadlineOf(db, q).Some? ==> StartOf(q, now) < DeadlineOf(db, q).value)
  }

  predicate Unbound(db: Db, j: JobId, q: EnqueueRequest) {
    j !in db.rows && (q.command.Some? ==> forall i <- db.rows :: db.rows[i].job.spec.command != q.command)
  }

  /** A high-priority Command comes from a worker route for exactly this work, of an account that has a worker. */
  predicate UrgencyFits(env: Env, db: Db, q: EnqueueRequest) {
    q.command.Some? && q.command.value in db.commands && db.commands[q.command.value].spec.priority == HIGH_PRIORITY ==>
      && q.command.value in env.routes
      && env.routes[q.command.value] == StoredRoute(WorkerJobTarget, Some(Worker), q.capability, q.version,
                                                    db.commands[q.command.value].spec.account, q.operation)
      && SticksToWorker(env, db, q)
      && (BROWSER_PREFIX <= q.capability ==> db.commands[q.command.value].spec.account in env.accounts)
  }

  predicate EnqueueAccepted(cfg: Config, env: Env, db: Db, j: JobId, q: EnqueueRequest, now: Time) {
    && !(q.capability in cfg.policies && cfg.policies[q.capability].blocked.Some?)
    && CommandFits(db, q, now) && WorkerFits(env, db, q) && RequestFits(db, q, now) && Unbound(db, j, q)
    && UrgencyFits(env, db, q)
  }

  lemma CommandReadyMeans(db: Db, q: EnqueueRequest, now: Time)
    ensures CommandReady(db, q, now).Pass? <==> CommandFits(db, q, now)
  {
  }

  lemma NewJobMeans(env: Env, db: Db, q: EnqueueRequest, now: Time)
    ensures NewJob(env, db, q, now).Success? <==> CommandFits(db, q, now) && WorkerFits(env, db, q) && RequestFits(db, q, now)
    ensures NewJob(env, db, q, now).Success? ==> StoredAs(env, db, q, now, NewJob(env, db, q, now).value)
  {
    CommandReadyMeans(db, q, now);
  }

  /** The Command of the job waits for execution; no other Command moves. */
  predicate CommandTakenUp(db: Db, after: Db, q: EnqueueRequest) {
    && after.results == db.results
    && match q.command
       case None => after.commands == db.commands
       case Some(c) =>
         && c in db.commands && c in after.commands && after.commands == db.commands[c := after.commands[c]]
         && after.commands[c].status.WaitingExecution? && after.commands[c].spec == db.commands[c].spec
         && (db.commands[c].status.WaitingExecution? ==> after.commands[c] == db.commands[c])
  }

  lemma AddJobMeans(env: Env, db: Db, j: JobId, q: EnqueueRequest, now: Time)
    ensures var a := AddJob(env, db, j, q, now);
            && (a.Success? <==> && CommandFits(db, q, now) && WorkerFits(env, db, q) && RequestFits(db, q, now)
                                && Unbound(db, j, q))
            && (a.Success? ==>
                  && a.value == db.(rows := a.value.rows, commands := a.value.commands)
                  && j in a.value.rows && a.value.rows == db.rows[j := a.value.rows[j]]
                  && StoredAs(env, db, q, now, a.value.rows[j].job)
                  && a.value.rows[j] == JobRows(a.value.rows[j].job, [], [], [])
                  && CommandTakenUp(db, a.value, q))
  {
    NewJobMeans(env, db, q, now);
    if CommandFits(db, q, now) && q.command.Some? {
      var c := q.command.value;
      assert db.commands[c := db.commands[c]] == db.commands;
    }
  }

  // ----- arbitration touches nothing else -----

  /** Only requests to stop are added to jobs, and only rows of the preemptor for the given victims. */
  ghost predicate OnlyAsked(db: Db, after: Db, p: JobId, victims: set<JobId>) {
    && after == db.(rows := after.rows, preemptions := after.preemptions)
    && after.rows.Keys == db.rows.Keys
    && (forall i <- db.rows ::
          && after.rows[i].job == db.rows[i].job && after.rows[i].attempts == db.rows[i].attempts
          && after.rows[i].interventions == db.rows[i].interventions
          && (i !in victims || i == p ==> after.rows[i] == db.rows[i]))
    && (forall k <- db.preemptions :: k in after.preemptions && (k.preemptor != p ==> after.preemptions[k] == db.preemptions[k]))
    && (forall k <- after.preemptions :: k in db.preemptions || (k.preemptor == p && k.victim in victims))
  }

  lemma PlaceKeepsRest(r: JobRows, target: int, reason: Code, now: Time)
    ensures var n := PlaceCancel(r, target, reason, now).0;
            n.job == r.job && n.attempts == r.attempts && n.interventions == r.interventions
  {
  }

  lemma MarkingAsks(db: Db, k: Pair, account: AccountId)
    ensures OnlyAsked(db, Marked(db, k, account), k.preemptor, {k.victim})
  {
    var marked := Marked(db, k, account);
    assert marked == db.(preemptions := marked.preemptions);
    forall i <- marked.preemptions ensures i in db.preemptions || i == k {
    }
  }

  lemma PlacingAsks(cfg: Config, env: Env, db: Db, v: JobId, p: JobId, now: Time)
    requires v in db.rows && v != p
    ensures var placed := RequestCancelInTransaction(cfg, env, db, v, HighPriorityPreemption, now);
            placed.Success? ==> OnlyAsked(db, placed.value.0, p, {v})
  {
    PlaceKeepsRest(db.rows[v], db.rows[v].job.attemptCount, HighPriorityPreemption, now);
    var placed := RequestCancelInTransaction(cfg, env, db, v, HighPriorityPreemption, now);
    if placed.Success? {
      RowAsks(db, v, PlaceCancel(db.rows[v], db.rows[v].job.attemptCount, HighPriorityPreemption, now).0, p);
    }
  }

  lemma RowAsks(db: Db, v: JobId, next: JobRows, p: JobId)
    requires v in db.rows && v != p
    requires next == db.rows[v].(cancels := next.cancels)
    ensures OnlyAsked(db, db.(rows := db.rows[v := next]), p, {v})
  {
  }

  lemma PointingAsks(db: Db, k: Pair, generation: int)
    ensures OnlyAsked(db, Pointed(db, {k}, generation), k.preemptor, {k.victim})
  {
  }

  lemma StoppingAsks(cfg: Config, env: Env, db: Db, k: Pair, now: Time)
    requires k.victim in db.rows && k.victim != k.preemptor
    ensures OnlyAsked(db, AskToStop(cfg, env, db, k.victim, {k}, now), k.preemptor, {k.victim})
  {
    var placed := RequestCancelInTransaction(cfg, env, db, k.victim, HighPriorityPreemption, now);
    if placed.Success? {
      PlacingAsks(cfg, env, db, k.victim, k.preemptor, now);
      PointingAsks(placed.value.0, k, placed.value.1);
      AskedTwice(db, placed.value.0, Pointed(placed.value.0, {k}, placed.value.1), k.preemptor, {k.victim}, {k.victim});
    }
  }

  lemma ArbitrateOneAsks(cfg: Config, env: Env, db: Db, p: JobId, account: AccountId, v: JobId, now: Time)
    requires p in db.rows
    ensures OnlyAsked(db, ArbitrateOne(cfg, env, db, p, account, v, now), p, {v})
  {
    if v in db.rows && v != p {
      var k := Pair(p, v);
      var marked := Marked(db, k, account);
      MarkingAsks(db, k, account);
      StoppingAsks(cfg, env, marked, k, now);
      AskedTwice(db, marked, AskToStop(cfg, env, marked, v, {k}, now), p, {v}, {v});
    }
  }

  lemma {:induction false} ArbitrationAsks(cfg: Config, env: Env, db: Db, p: JobId, account: AccountId, victims: set<JobId>,
                                           now: Time)
    requires p in db.rows
    ensures OnlyAsked(db, Arbitrate(cfg, env, db, p, account, victims, now), p, victims)
    decreases |victims|
  {
    if victims == {} {
    } else {
      var v := Least(victims);
      var next := ArbitrateOne(cfg, env, db, p, account, v, now);
      ArbitrateOneAsks(cfg, env, db, p, account, v, now);
      ArbitrationAsks(cfg, env, next, p, account, victims - {v}, now);
      AskedTwice(db, next, Arbitrate(cfg, env, next, p, account, victims - {v}, now), p, {v}, victims - {v});
      assert {v} + (victims - {v}) == victims;
    }
  }

  lemma AskedTwice(db: Db, next: Db, after: Db, p: JobId, first: set<JobId>, second: set<JobId>)
    requires OnlyAsked(db, next, p, first) && OnlyAsked(next, after, p, second)
    ensures OnlyAsked(db, after, p, first + second)
  {
    forall i <- db.rows
      ensures && after.rows[i].job == db.rows[i].job && after.rows[i].attempts == db.rows[i].attempts
              && after.rows[i].interventions == db.rows[i].interventions
              && (i !in first + second || i == p ==> after.rows[i] == db.rows[i])
    {
      assert i in next.rows;
    }
    forall k <- after.preemptions ensures k in db.preemptions || (k.preemptor == p && k.victim in first + second) {
      assert k in next.preemptions || k.victim in second;
    }
  }

  // ----- enqueue -----

  /** What an accepted enqueue leaves: the new row, its Command taken up, and requests to stop the browser jobs it preempts. */
  ghost predicate EnqueuedAs(env: Env, db: Db, after: Db, j: JobId, q: EnqueueRequest, now: Time) {
    && j in after.rows && after.rows[j] == JobRows(after.rows[j].job, [], [], []) && StoredAs(env, db, q, now, after.rows[j].job)
    && CommandTakenUp(db, after, q) && after.leases == db.leases && after.workers == db.workers
    && after.rows.Keys == db.rows.Keys + {j}
    && (forall i <- db.rows ::
          && after.rows[i].job == db.rows[i].job && after.rows[i].attempts == db.rows[i].attempts
          && after.rows[i].interventions == db.rows[i].interventions
          && (after.rows[i] != db.rows[i] ==> Preempted(db, after, i, j)))
    && (forall k <- db.preemptions :: k in after.preemptions && (k.preemptor != j ==> after.preemptions[k] == db.preemptions[k]))
    && (forall k <- after.preemptions ::
          k in db.preemptions || (k.preemptor == j && k.victim in db.rows && Preempted(db, after, k.victim, j)))
  }

  /** Job `i` is a running browser job of the account of the high-priority browser job `j`. */
  predicate Preempted(db: Db, after: Db, i: JobId, j: JobId) {
    && i in db.rows && j in after.rows
    && var old', new' := db.rows[i].job, after.rows[j].job.spec;
    && old'.status.Running? && old'.spec.affinity && BROWSER_PREFIX <= old'.spec.capability
    && new'.affinity && BROWSER_PREFIX <= new'.capability && new'.priority == HIGH_PRIORITY && new'.account.Some?
    && old'.spec.account == new'.account
  }

  lemma PrioritizeMeans(cfg: Config, env: Env, db: Db, added: Db, j: JobId, q: EnqueueRequest, now: Time)
    requires CommandFits(db, q, now) && j in added.rows && StoredAs(env, db, q, now, added.rows[j].job)
    requires CommandTakenUp(db, added, q) && WorkerFits(env, db, q)
    ensures Prioritize(cfg, env, added, j, now).Success? <==> UrgencyFits(env, db, q)
  {
  }

  /** The running browser jobs that a new job preempts. */
  function VictimsOf(db: Db, j: JobId): set<JobId>
    requires j in db.rows
  {
    var spec := db.rows[j].job.spec;
    if spec.command.Some? && spec.command.value in db.commands
       && db.commands[spec.command.value].spec.priority == HIGH_PRIORITY && BrowserJob(spec)
    then RunningBrowser(db.rows, spec.account.value) else {}
  }

  lemma PrioritizeTouches(cfg: Config, env: Env, added: Db, j: JobId, now: Time)
    requires j in added.rows && Prioritize(cfg, env, added, j, now).Success?
    ensures OnlyAsked(added, Prioritize(cfg, env, added, j, now).value, j, VictimsOf(added, j))
  {
    if VictimsOf(added, j) != {} {
      ArbitrationAsks(cfg, env, added, j, added.rows[j].job.spec.account.value, VictimsOf(added, j), now);
    }
  }

  lemma EnqueueAssembles(env: Env, db: Db, added: Db, after: Db, j: JobId, q: EnqueueRequest, now: Time)
    requires CommandFits(db, q, now) && j !in db.rows && j in added.rows
    requires added == db.(rows := added.rows, commands := added.commands) && added.rows == db.rows[j := added.rows[j]]
    requires StoredAs(env, db, q, now, added.rows[j].job) && added.rows[j] == JobRows(added.rows[j].job, [], [], [])
    requires CommandTakenUp(db, added, q) && OnlyAsked(added, after, j, VictimsOf(added, j))
    ensures EnqueuedAs(env, db, after, j, q, now)
  {
    VictimsArePreempted(env, db, added, after, j, q, now);
    forall i <- db.rows
      ensures && after.rows[i].job == db.rows[i].job && after.rows[i].attempts == db.rows[i].attempts
              && after.rows[i].interventions == db.rows[i].interventions && (after.rows[i] != db.rows[i] ==> Preempted(db, after, i, j))
    {
      assert i in added.rows;
    }
  }

  lemma VictimsArePreempted(env: Env, db: Db, added: Db, after: Db, j: JobId, q: EnqueueRequest, now: Time)
    requires CommandFits(db, q, now) && j in added.rows && j in after.rows && after.rows[j].job == added.rows[j].job
    requires added.rows == db.rows[j := added.rows[j]] && StoredAs(env, db, q, now, added.rows[j].job)
    requires CommandTakenUp(db, added, q)
    ensures forall v <- VictimsOf(added, j) :: v in db.rows && Preempted(db, after, v, j)
  {
  }

  /** A job is accepted exactly then, and stored exactly so. */
  lemma EnqueueMeans(cfg: Config, env: Env, db: Db, j: JobId, q: EnqueueRequest, now: Time)
    ensures match Enqueue(cfg, env, db, j, q, now)
            case Failure(_) => !EnqueueAccepted(cfg, env, db, j, q, now)
            case Success(after) => EnqueueAccepted(cfg, env, db, j, q, now) && EnqueuedAs(env, db, after, j, q, now)
  {
    AddJobMeans(env, db, j, q, now);
    var added := AddJob(env, db, j, q, now);
    if added.Success? {
      PrioritizeMeans(cfg, env, db, added.value, j, q, now);
      var urgent := Prioritize(cfg, env, added.value, j, now);
      if urgent.Success? {
        PrioritizeTouches(cfg, env, added.value, j, now);
        EnqueueAssembles(env, db, added.value, urgent.value, j, q, now);
      }
    }
  }
}
