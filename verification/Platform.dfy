/** The durable tables the WorkerJob protocol works on, and the repository queries over them. */
module Platform {
  import opened Prelude
  import opened WorkerJobs
  import opened CapabilityRouter
  import Commands

  datatype AttemptStatus =
    | AttemptRunning | AttemptSucceeded | AttemptFailedRetryable | AttemptFailedFinal | AttemptAbandoned
    | AttemptWaitingIntervention | AttemptCancelled

  /** One lease a worker held; rows of a job are kept in attempt-number order. */
  datatype Attempt = Attempt(number: int, worker: WorkerId, token: Token, status: AttemptStatus,
                             finishedAt: Option<Time>, error: Option<Code>)

  datatype CancelEnd = TargetAttemptEnded | PreemptionNoLongerPending
  datatype CancelStatus = Pending | Acknowledged(at: Time, phase: string) | Superseded(at: Time, reason: CancelEnd)

  /** A cancel request; rows of a job are kept in generation order. */
  datatype Cancel = Cancel(generation: int, target: int, reason: Code, status: CancelStatus)

  datatype InterventionStatus = Open | Resolved | InterventionCancelled

  datatype InterventionKind =
    | LoginRequired | SessionExpired | ChallengeRequired | OperatorConfirmationRequired | AmbiguousOutcomeSeen
    | RemoteStateUncertain | UnknownKind(text: string)

  datatype Intervention = Intervention(kind: InterventionKind, worker: Option<WorkerId>, status: InterventionStatus)

  /** A WorkerJob row together with the rows of the tables that reference it by worker_job_id. */
  datatype JobRows = JobRows(job: Job, attempts: seq<Attempt>, cancels: seq<Cancel>, interventions: seq<Intervention>)

  /** How a victim's lease holder stopped. */
  datatype Quiescence = VictimSucceeded | VictimFailed | InterventionRequested | CancelAcknowledged
  datatype PreemptionStatus = WaitingForQuiescence | Satisfied(at: Time, how: Quiescence) | PreemptorEnded(at: Time)

  datatype Pair = Pair(preemptor: JobId, victim: JobId)
  datatype Preemption = Preemption(account: AccountId, status: PreemptionStatus, cancelRequest: Option<int>)

  datatype Owner = CommandOwner(attempt: nat) | JobOwner(job: JobId)
  datatype AccountLease = AccountLease(owner: Owner, operation: OperationClass, generation: int, expires: Time)

  datatype WorkerStatus = Registering | Online | Degraded | Draining | Offline | WorkerDisabled | UpgradeRequired

  datatype WorkerNode = WorkerNode(
    status: WorkerStatus,
    protocol: Option<int>,
    schema: Option<int>,
    maxJobs: int,
    maxSessions: int,
    activeSessions: int,
    presence: Option<Time>,
    capabilities: set<(string, int)>)

  /** A result event in the outbox. */
  datatype ResultEvent = ResultEvent(status: Commands.CommandStatus, error: Option<Code>)

  datatype Db = Db(
    rows: map<JobId, JobRows>,
    preemptions: map<Pair, Preemption>,
    commands: map<CommandId, Commands.CommandRow>,
    results: map<CommandId, seq<ResultEvent>>,  // outbox events by aggregate id
    leases: map<AccountId, AccountLease>,
    workers: map<WorkerId, WorkerNode>)

  const EMPTY_DB := Db(map[], map[], map[], map[], map[], map[])

  datatype Account = Account(status: AccountStatus, mode: ExecutionMode)
  datatype StoredRoute = StoredRoute(target: RouteTarget, executor: Option<Executor>, capability: string, version: int,
                                     account: AccountId, operation: OperationClass)
  datatype Activity = Activity(materialized: bool, command: Option<CommandId>, account: AccountId,
                               activityType: string, priority: int)

  /** Rows owned by other services, read at the moment of a call: any value at every step. */
  datatype Env = Env(
    accounts: map<AccountId, Account>,
    assignments: map<AccountId, WorkerId>,
    routes: map<CommandId, StoredRoute>,
    activities: map<nat, Activity>)

  /** Constructor arguments of the service and the capability tables it imports. */
  datatype Config = Config(
    leaseDuration: int,
    retryDelay: int,
    cancellable: map<string, set<string>>,
    policies: Policies)
  {
    predicate Valid() { leaseDuration > 0 && retryDelay >= 0 }
  }

  const SECOND := 1_000_000
  const DEFAULT_CONFIG := Config(120 * SECOND, 2 * SECOND, SAFE_CHECKPOINTS, map[])
  const SAFE_CHECKPOINTS: map<string, set<string>> := map[
    "threads.browser.feed.browse" := {"BEFORE_NAVIGATION", "FEED_READY", "ITEM_BATCH"},
    "threads.browser.thread.open" := {"BEFORE_NAVIGATION", "THREAD_READY"},
    "threads.browser.profile.open" := {"BEFORE_NAVIGATION", "BEFORE_PROFILE_INSPECTION", "PROFILE_READY"}]

  const BROWSER_PREFIX := "threads.browser."
  const HIGH_PRIORITY := 100
  const CLAIM_LIMIT := 50

  datatype Error =
    | WorkerJobNotFound | CommandNotFound | CapabilityBlocked | CommandNotReady | CommandDeadlineExpired
    | PriorityMismatch | CommandAccountMismatch | AssignmentRequired | AffinityMismatch | InvalidJob
    | RouteNotTrusted | HighPriorityAffinityRequired | AccountNotFound | WorkerNotFound | WorkerNotEligible
    | LeaseLost | AccountCoordinationLost | CancelReasonInvalid | NotRunning | NotPreemptible
    | CancellationUnsupported | AttemptStale | NotMaterializedActivity | CheckpointNotSafe | CheckpointMismatch
    | CancelRequestStale | InterventionTypeUnsupported | InterventionNotFound | InterventionAlreadyResolved
    | RequeueNotSafe | InvalidErrorCode
    | BrowserCapacityRequired | BlockedCapabilityAdvertised | SessionCapacityExceeded | InvalidSessionCapacity
    | InvalidActiveSessions | InvalidDrainReason | DrainNotAllowed | NotDraining | DrainNotQuiescent
      // a defect of the stored rows rather than of the call
    | AttemptMissing | JobCommandMissing | CommandStateConflict | InvalidCommandTransition
    | UniqueViolation | CheckViolation

  predicate BrowserJob(s: JobSpec) { s.account.Some? && s.affinity && BROWSER_PREFIX <= s.capability }

  // ----- the latest RUNNING attempt and PENDING cancel request of a job -----

  function RunningAttempt(attempts: seq<Attempt>): (r: Option<nat>)
    ensures r.Some? ==> r.value < |attempts| && attempts[r.value].status.AttemptRunning?
    ensures r.None? ==> forall i :: 0 <= i < |attempts| ==> !attempts[i].status.AttemptRunning?
  {
    if attempts == [] then None
    else if attempts[|attempts| - 1].status.AttemptRunning? then Some(|attempts| - 1)
    else RunningAttempt(attempts[..|attempts| - 1])
  }

  function PendingCancel(cancels: seq<Cancel>): (r: Option<nat>)
    ensures r.Some? ==> r.value < |cancels| && cancels[r.value].status.Pending?
    ensures r.None? ==> forall i :: 0 <= i < |cancels| ==> !cancels[i].status.Pending?
  {
    if cancels == [] then None
    else if cancels[|cancels| - 1].status.Pending? then Some(|cancels| - 1)
    else PendingCancel(cancels[..|cancels| - 1])
  }

  function OpenIntervention(interventions: seq<Intervention>): (r: Option<nat>)
    ensures r.Some? ==> r.value < |interventions| && interventions[r.value].status.Open?
    ensures r.None? ==> forall i :: 0 <= i < |interventions| ==> !interventions[i].status.Open?
  {
    if interventions == [] then None
    else if interventions[|interventions| - 1].status.Open? then Some(|interventions| - 1)
    else OpenIntervention(interventions[..|interventions| - 1])
  }

  function LatestGeneration(cancels: seq<Cancel>): int {
    if cancels == [] then 0
    else
      var rest := LatestGeneration(cancels[..|cancels| - 1]);
      var last := cancels[|cancels| - 1].generation;
      if last > rest then last else rest
  }

  // ----- preemption listings -----

  predicate Waits(preemptions: map<Pair, Preemption>, k: Pair) {
    k in preemptions && preemptions[k].status.WaitingForQuiescence?
  }

  function WaitingForAccount(preemptions: map<Pair, Preemption>, account: AccountId): set<Pair> {
    set k | k in preemptions && Waits(preemptions, k) && preemptions[k].account == account
  }

  function WaitingForVictim(preemptions: map<Pair, Preemption>, victim: JobId): set<Pair> {
    set k | k in preemptions && Waits(preemptions, k) && k.victim == victim
  }

  function WaitingForPreemptor(preemptions: map<Pair, Preemption>, preemptor: JobId): set<Pair> {
    set k | k in preemptions && Waits(preemptions, k) && k.preemptor == preemptor
  }

  // ----- claim listings -----

  predicate ProtocolSupported(protocol: Option<int>, schema: Option<int>) {
    protocol.Some? && 1 <= protocol.value <= 2 && schema == Some(1)
  }

  predicate Eligible(w: WorkerNode, now: Time) {
    w.status.Online? && ProtocolSupported(w.protocol, w.schema) && w.presence.Some? && w.presence.value > now
  }

  function LiveJobs(rows: map<JobId, JobRows>, worker: WorkerId, now: Time): set<JobId> {
    set j | j in rows && rows[j].job.lease.Some? && rows[j].job.lease.value.worker == worker
            && rows[j].job.status.Running? && rows[j].job.lease.value.expires > now
  }

  function HeldJobs(rows: map<JobId, JobRows>, worker: WorkerId): set<JobId> {
    set j | j in rows && rows[j].job.status.Running? && rows[j].job.lease.Some?
            && rows[j].job.lease.value.worker == worker
  }

  /** The WHERE clause of list_claimable for one row. */
  predicate Available(job: Job, env: Env, worker: WorkerId, w: WorkerNode, now: Time) {
    && (|| ((job.status.Queued? || job.status.FailedRetryable?) && job.scheduledAt <= now)
        || (job.status.Running? && job.lease.Some? && job.lease.value.expires <= now))
    && !job.spec.PastDeadline(now)
    && job.attemptCount < job.spec.maxAttempts
    && (job.attemptCount == 0 || job.retrySafety.SafeToRetry? || job.retryAuthorized)
    && (job.spec.assignee.None? || job.spec.assignee.value == worker)
    && (!job.spec.affinity
        || (job.spec.account.Some? && job.spec.account.value in env.assignments
            && env.assignments[job.spec.account.value] == worker))
    && (job.spec.capability, job.spec.version) in w.capabilities
  }

  function Claimable(db: Db, env: Env, worker: WorkerId, w: WorkerNode, now: Time): (s: set<JobId>) {
    if !w.status.Online? || w.presence.None? || w.presence.value <= now then {}
    else if |LiveJobs(db.rows, worker, now)| >= w.maxJobs then {}
    else set j | j in db.rows && Available(db.rows[j].job, env, worker, w, now)
  }

  /** ORDER BY priority DESC, scheduled_at, created_at, id. */
  predicate Before(rows: map<JobId, JobRows>, a: JobId, b: JobId)
    requires a in rows && b in rows
  {
    var x, y := rows[a].job, rows[b].job;
    if x.spec.priority != y.spec.priority then x.spec.priority > y.spec.priority
    else if x.scheduledAt != y.scheduledAt then x.scheduledAt < y.scheduledAt
    else if x.spec.createdAt != y.spec.createdAt then x.spec.createdAt < y.spec.createdAt
    else a < b
  }

  predicate Leads(rows: map<JobId, JobRows>, s: set<JobId>, m: JobId)
    requires s <= rows.Keys
  {
    m in s && forall x <- s :: x == m || Before(rows, m, x)
  }

  lemma LeaderExists(rows: map<JobId, JobRows>, s: set<JobId>)
    requires s <= rows.Keys && s != {}
    ensures exists m :: Leads(rows, s, m)
    decreases |s|
  {
    var x :| x in s;
    var rest := s - {x};
    if rest == {} {
      assert s == {x};
      assert Leads(rows, s, x);
    } else {
      LeaderExists(rows, rest);
      var m :| Leads(rows, rest, m);
      if Before(rows, m, x) {
        assert Leads(rows, s, m);
      } else {
        forall y <- s ensures y == x || Before(rows, x, y) {
          assert y == x || y in rest;
        }
        assert Leads(rows, s, x);
      }
    }
  }

  /** The first row of the ordered listing. */
  ghost function Leader(rows: map<JobId, JobRows>, s: set<JobId>): (m: JobId)
    requires s <= rows.Keys && s != {}
    ensures Leads(rows, s, m)
  {
    LeaderExists(rows, s);
    var m :| Leads(rows, s, m);
    m
  }

  /** The whole listing in order. */
  ghost function Ordered(rows: map<JobId, JobRows>, s: set<JobId>): (list: seq<JobId>)
    requires s <= rows.Keys
    ensures |list| == |s|
    ensures forall j :: j in list <==> j in s
    decreases |s|
  {
    if s == {} then []
    else
      var m := Leader(rows, s);
      [m] + Ordered(rows, s - {m})
  }

  lemma LeaderIsFirst(rows: map<JobId, JobRows>, s: set<JobId>, x: JobId)
    requires s <= rows.Keys && x in s && x != Leader(rows, s)
    ensures Before(rows, Leader(rows, s), x)
  {
  }

  lemma {:induction false} ListedBefore(rows: map<JobId, JobRows>, s: set<JobId>, i: nat, k: nat)
    requires s <= rows.Keys && i < k < |s|
    ensures Before(rows, Ordered(rows, s)[i], Ordered(rows, s)[k])
    decreases |s|
  {
    var m := Leader(rows, s);
    var rest := Ordered(rows, s - {m});
    assert Ordered(rows, s) == [m] + rest;
    if i == 0 {
      assert rest[k - 1] in rest;
      LeaderIsFirst(rows, s, rest[k - 1]);
    } else {
      ListedBefore(rows, s - {m}, i - 1, k - 1);
    }
  }

  /**
   * The listing is a permutation of the set, sorted: higher priority first, then the earlier start, then the earlier
   * creation, then the smaller id.
   */
  lemma OrderedIsSorted(rows: map<JobId, JobRows>, s: set<JobId>, i: nat, k: nat)
    requires s <= rows.Keys && i < k < |s|
    ensures var a, b := Ordered(rows, s)[i], Ordered(rows, s)[k];
            && a in s && b in s
            && var x, y := rows[a].job, rows[b].job;
            || x.spec.priority > y.spec.priority
            || (x.spec.priority == y.spec.priority && x.scheduledAt < y.scheduledAt)
            || (x.spec.priority == y.spec.priority && x.scheduledAt == y.scheduledAt && x.spec.createdAt < y.spec.createdAt)
            || (x.spec.priority == y.spec.priority && x.scheduledAt == y.scheduledAt && x.spec.createdAt == y.spec.createdAt
                && a < b)
  {
    ListedBefore(rows, s, i, k);
    assert Ordered(rows, s)[i] in Ordered(rows, s) && Ordered(rows, s)[k] in Ordered(rows, s);
  }

  ghost function Candidates(db: Db, env: Env, worker: WorkerId, w: WorkerNode, now: Time): (list: seq<JobId>)
    ensures forall j :: j in list ==> j in Claimable(db, env, worker, w, now)
  {
    var all := Ordered(db.rows, Claimable(db, env, worker, w, now));
    if |all| <= CLAIM_LIMIT then all else all[..CLAIM_LIMIT]
  }

  /** list_claimable restricted to the browser-profile jobs of one account. */
  function ClaimableBrowser(db: Db, env: Env, worker: WorkerId, w: WorkerNode, now: Time, account: AccountId)
    : set<JobId>
  {
    set j | j in Claimable(db, env, worker, w, now) && j in db.rows
            && BrowserJob(db.rows[j].job.spec) && db.rows[j].job.spec.account == Some(account)
  }

  function RunningBrowser(rows: map<JobId, JobRows>, account: AccountId): set<JobId> {
    set j | j in rows && rows[j].job.status.Running? && BrowserJob(rows[j].job.spec)
            && rows[j].job.spec.account == Some(account)
  }

  /** list_expired_for_update's WHERE clause for one row. */
  predicate Recoverable(job: Job, now: Time) {
    && !Ended(job.status)
    && (|| job.spec.PastDeadline(now)
        || ((job.status.Queued? || job.status.FailedRetryable?) && job.attemptCount >= job.spec.maxAttempts)
        || (job.status.Running? && job.lease.Some? && job.lease.value.expires <= now
            && (job.retrySafety.ReconciliationRequired? || job.attemptCount >= job.spec.maxAttempts)))
  }

  // ----- account execution leases -----

  /** try_acquire: any unexpired lease, even the caller's own, refuses; otherwise the generation is bumped. */
  function TryAcquire(leases: map<AccountId, AccountLease>, account: AccountId, owner: Owner, op: OperationClass,
                      now: Time, expires: Time)
    : Option<map<AccountId, AccountLease>>
  {
    if account in leases && leases[account].expires > now then None
    else
      var generation := if account in leases then leases[account].generation + 1 else 1;
      Some(leases[account := AccountLease(owner, op, generation, expires)])
  }

  predicate OwnsAccount(leases: map<AccountId, AccountLease>, account: AccountId, owner: Owner, generation: int, now: Time) {
    account in leases && leases[account].owner == owner && leases[account].generation == generation
    && leases[account].expires > now
  }

  /** renew and release, both fenced by owner, generation and expiry. */
  function SetExpiry(leases: map<AccountId, AccountLease>, account: AccountId, owner: Owner, generation: int,
                     now: Time, expires: Time)
    : map<AccountId, AccountLease>
  {
    if OwnsAccount(leases, account, owner, generation, now)
    then leases[account := leases[account].(expires := expires)]
    else leases
  }
}
