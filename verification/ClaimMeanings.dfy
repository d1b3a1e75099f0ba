/** Which job a poll takes, and what taking it leaves, whatever way the loop finds it. */
module ClaimMeanings {
  import opened Prelude
  import opened WorkerJobs
  import opened CapabilityRouter
  import opened Platform
  import opened JobSteps
  import opened JobInvariants
  import opened JobProofs
  import opened HolderProofs
  import opened HolderMeanings
  import JobOutcomes
  import ClaimProofs
  import Commands

  // ----- the order of service -----

  /** Higher priority first, then the earlier start, then the earlier creation, then the smaller id. */
  predicate ServedBefore(rows: map<JobId, JobRows>, a: JobId, b: JobId) {
    a in rows && b in rows &&
    var x, y := rows[a].job, rows[b].job;
    || x.spec.priority > y.spec.priority
    || (x.spec.priority == y.spec.priority && x.scheduledAt < y.scheduledAt)
    || (x.spec.priority == y.spec.priority && x.scheduledAt == y.scheduledAt && x.spec.createdAt < y.spec.createdAt)
    || (x.spec.priority == y.spec.priority && x.scheduledAt == y.scheduledAt && x.spec.createdAt == y.spec.createdAt && a < b)
  }

  lemma OrderOfService(rows: map<JobId, JobRows>, a: JobId, b: JobId)
    requires a in rows && b in rows
    ensures Before(rows, a, b) <==> ServedBefore(rows, a, b)
  {
  }

  function Ahead(rows: map<JobId, JobRows>, s: set<JobId>, i: JobId): set<JobId> {
    set k | k in s && ServedBefore(rows, k, i)
  }

  /** The n-th job of the listing is the one with n jobs ahead of it. */
  lemma {:induction false} PlaceInLine(rows: map<JobId, JobRows>, s: set<JobId>, n: nat)
    requires s <= rows.Keys && n < |s|
    ensures |Ahead(rows, s, Ordered(rows, s)[n])| == n
    decreases n
  {
    var m := Leader(rows, s);
    var rest := s - {m};
    assert Ordered(rows, s) == [m] + Ordered(rows, rest);
    if n == 0 {
      NobodyAhead(rows, s, m);
    } else {
      PlaceInLine(rows, rest, n - 1);
      var i := Ordered(rows, rest)[n - 1];
      assert i in Ordered(rows, rest) && Ordered(rows, s)[n] == i;
      OneMoreAhead(rows, s, m, i);
    }
  }

  lemma NobodyAhead(rows: map<JobId, JobRows>, s: set<JobId>, m: JobId)
    requires s <= rows.Keys && Leads(rows, s, m)
    ensures Ahead(rows, s, m) == {}
  {
    forall k <- s ensures !ServedBefore(rows, k, m) {
      assert k == m || Before(rows, m, k);
    }
  }

  lemma OneMoreAhead(rows: map<JobId, JobRows>, s: set<JobId>, m: JobId, i: JobId)
    requires s <= rows.Keys && Leads(rows, s, m) && i in s && i != m
    ensures |Ahead(rows, s, i)| == |Ahead(rows, s - {m}, i)| + 1
  {
    assert Before(rows, m, i);
    assert Ahead(rows, s, i) == Ahead(rows, s - {m}, i) + {m};
  }

  // ----- what a worker is offered -----

  /** The worker is online, was heard of recently enough, and speaks a supported protocol. */
  predicate Serves(db: Db, worker: WorkerId, now: Time) {
    worker in db.workers &&
    var w := db.workers[worker];
    && w.status.Online? && w.presence.Some? && now < w.presence.value
    && (w.protocol == Some(1) || w.protocol == Some(2)) && w.schema == Some(1)
  }

  function LiveOn(db: Db, worker: WorkerId, now: Time): set<JobId> {
    set j | j in db.rows && db.rows[j].job.status.Running? && db.rows[j].job.lease.Some?
            && db.rows[j].job.lease.value.worker == worker && now < db.rows[j].job.lease.value.expires
  }

  predicate HasRoom(db: Db, worker: WorkerId, now: Time) {
    worker in db.workers && |LiveOn(db, worker, now)| < db.workers[worker].maxJobs
  }

  /** The job is due and not late, has an attempt left that it may make, and this worker is the one to make it. */
  predicate ReadyFor(env: Env, w: WorkerNode, worker: WorkerId, job: Job, now: Time) {
    && (match job.status
        case Queued => job.scheduledAt <= now
        case FailedRetryable => job.scheduledAt <= now
        case Running => job.lease.Some? && job.lease.value.expires <= now
        case _ => false)
    && (job.spec.deadline.Some? ==> now < job.spec.deadline.value)
    && job.attemptCount < job.spec.maxAttempts
    && (job.attemptCount != 0 && job.retrySafety.ReconciliationRequired? ==> job.retryAuthorized)
    && (job.spec.assignee == None || job.spec.assignee == Some(worker))
    && (job.spec.affinity ==>
          job.spec.account.Some? && job.spec.account.value in env.assignments && env.assignments[job.spec.account.value] == worker)
    && (job.spec.capability, job.spec.version) in w.capabilities
  }

  function Ready(env: Env, db: Db, worker: WorkerId, w: WorkerNode, now: Time): set<JobId> {
    set j | j in db.rows && ReadyFor(env, w, worker, db.rows[j].job, now)
  }

  lemma ClaimableMeans(env: Env, db: Db, worker: WorkerId, now: Time)
    requires Serves(db, worker, now)
    ensures Claimable(db, env, worker, db.workers[worker], now)
            == if HasRoom(db, worker, now) then Ready(env, db, worker, db.workers[worker], now) else {}
  {
    assert LiveOn(db, worker, now) == LiveJobs(db.rows, worker, now);
    forall j <- db.rows
      ensures Available(db.rows[j].job, env, worker, db.workers[worker], now)
              <==> ReadyFor(env, db.workers[worker], worker, db.rows[j].job, now)
    {
    }
  }

  /** A poll is offered the ready jobs with fewer than fifty ready jobs ahead of them, if the worker has room, in order. */
  lemma ListingMeans(env: Env, db: Db, worker: WorkerId, now: Time)
    requires Serves(db, worker, now)
    ensures var w := db.workers[worker];
            var ready, list := Ready(env, db, worker, w, now), Candidates(db, env, worker, w, now);
            if !HasRoom(db, worker, now) then list == []
            else
              && (forall n :: 0 <= n < |list| ==> list[n] in ready && |Ahead(db.rows, ready, list[n])| == n)
              && (forall j :: j in ready && |Ahead(db.rows, ready, j)| < 50 ==> j in list)
              && |list| <= 50
  {
    var w := db.workers[worker];
    ClaimableMeans(env, db, worker, now);
    var ready, list := Ready(env, db, worker, w, now), Candidates(db, env, worker, w, now);
    if HasRoom(db, worker, now) {
      forall n | 0 <= n < |list| ensures list[n] in ready && |Ahead(db.rows, ready, list[n])| == n {
        assert list[n] in list;
        PlaceInLine(db.rows, ready, n);
      }
      forall j | j in ready && |Ahead(db.rows, ready, j)| < 50 ensures j in list {
        ListedIfNear(db.rows, ready, j);
      }
    }
  }

  lemma ListedIfNear(rows: map<JobId, JobRows>, s: set<JobId>, j: JobId)
    requires s <= rows.Keys && j in s
    ensures |Ahead(rows, s, j)| < |s| && Ordered(rows, s)[|Ahead(rows, s, j)|] == j
  {
    assert j in Ordered(rows, s);
    var n :| 0 <= n < |Ordered(rows, s)| && Ordered(rows, s)[n] == j;
    PlaceInLine(rows, s, n);
  }

  // ----- what else must hold for a job to be taken -----

  /** The policy for the bound Command lets a worker do this work for this account. */
  predicate RouteStands(cfg: Config, env: Env, db: Db, spec: JobSpec) {
    spec.account.Some? && spec.account.value in env.accounts && spec.command.Some? && spec.command.value in db.commands
    && spec.command.value in env.routes &&
    var account, kind := env.accounts[spec.account.value], db.commands[spec.command.value].spec.commandType;
    && env.routes[spec.command.value].executor == Some(Worker)
    && account.status.Active? && (account.mode.BrowserOnly? || account.mode.HybridMode?)
    && kind in cfg.policies
    && var policy := cfg.policies[kind];
    && !policy.class_.UnsupportedClass? && !policy.class_.HumanAssisted? && policy.blocked.None?
    && (policy.preferred.Worker? || policy.fallback == Some(Worker))
    && policy.workerCapability == Some((spec.capability, spec.version))
  }

  /** Nothing blocks the capability; a job of an account still has its worker, its waiting Command, and its route. */
  predicate Permitted(cfg: Config, env: Env, db: Db, spec: JobSpec, worker: WorkerId) {
    && (spec.capability in cfg.policies ==> cfg.policies[spec.capability].blocked.None?)
    && (spec.account.Some? ==>
          && spec.account.value in env.accounts
          && (spec.affinity ==> spec.account.value in env.assignments && env.assignments[spec.account.value] == worker)
          && (spec.command.Some? ==>
                && spec.command.value in db.commands && db.commands[spec.command.value].spec.account == spec.account.value
                && db.commands[spec.command.value].status.WaitingExecution?
                && (spec.command.value in env.routes ==> RouteStands(cfg, env, db, spec))))
  }

  lemma PolicyMeans(cfg: Config, env: Env, db: Db, spec: JobSpec, worker: WorkerId)
    ensures PolicyAllowsClaim(cfg, env, db, spec, worker) <==> Permitted(cfg, env, db, spec, worker)
  {
  }

  predicate UsesBrowserOf(spec: JobSpec, account: AccountId) {
    spec.account == Some(account) && spec.affinity && BROWSER_PREFIX <= spec.capability
  }

  predicate WaitsOn(db: Db, k: Pair, account: AccountId) {
    k in db.preemptions && db.preemptions[k].status.WaitingForQuiescence? && db.preemptions[k].account == account
  }

  /**
   * The browser profile of the account is free for job `c`: no other browser job runs there, every waiting preemption
   * is one that `c` itself has to answer, and without any `c` is the first ready browser job of the account.
   */
  predicate BrowserFree(env: Env, db: Db, c: JobId, account: AccountId, worker: WorkerId, w: WorkerNode, now: Time) {
    && (forall i <- db.rows :: UsesBrowserOf(db.rows[i].job.spec, account) && db.rows[i].job.status.Running? ==> i == c)
    && (forall k <- db.preemptions :: WaitsOn(db, k, account) ==> k.victim == c && k.preemptor != c)
    && (|| (exists k <- db.preemptions :: WaitsOn(db, k, account))
        || (forall i <- Ready(env, db, worker, w, now) ::
              UsesBrowserOf(db.rows[i].job.spec, account) && i != c ==> ServedBefore(db.rows, c, i)))
  }

  predicate ProfileFree(env: Env, db: Db, c: JobId, worker: WorkerId, w: WorkerNode, now: Time) {
    c in db.rows &&
    var spec := db.rows[c].job.spec;
    spec.account.Some? && UsesBrowserOf(spec, spec.account.value) ==> BrowserFree(env, db, c, spec.account.value, worker, w, now)
  }

  lemma LeadsBrowserJobs(env: Env, db: Db, c: JobId, account: AccountId, worker: WorkerId, now: Time)
    requires Serves(db, worker, now) && HasRoom(db, worker, now) && c in Ready(env, db, worker, db.workers[worker], now)
    requires UsesBrowserOf(db.rows[c].job.spec, account)
    ensures Leads(db.rows, ClaimableBrowser(db, env, worker, db.workers[worker], now, account), c)
            <==> forall i <- Ready(env, db, worker, db.workers[worker], now) ::
                   UsesBrowserOf(db.rows[i].job.spec, account) && i != c ==> ServedBefore(db.rows, c, i)
  {
    ClaimableMeans(env, db, worker, now);
    var open := ClaimableBrowser(db, env, worker, db.workers[worker], now, account);
    forall i <- Ready(env, db, worker, db.workers[worker], now)
      ensures i in open <==> UsesBrowserOf(db.rows[i].job.spec, account)
    {
    }
  }

  lemma WaitingMeans(db: Db, account: AccountId, k: Pair)
    ensures k in WaitingForAccount(db.preemptions, account) <==> WaitsOn(db, k, account)
  {
  }

  lemma GateMeans(env: Env, db: Db, c: JobId, worker: WorkerId, now: Time)
    requires Serves(db, worker, now) && HasRoom(db, worker, now) && c in Ready(env, db, worker, db.workers[worker], now)
    ensures BrowserGate(env, db, c, worker, db.workers[worker], now) <==> ProfileFree(env, db, c, worker, db.workers[worker], now)
  {
    var spec := db.rows[c].job.spec;
    if BrowserJob(spec) {
      var account := spec.account.value;
      LeadsBrowserJobs(env, db, c, account, worker, now);
      forall k ensures k in WaitingForAccount(db.preemptions, account) <==> WaitsOn(db, k, account) {
        WaitingMeans(db, account, k);
      }
      forall i ensures i in RunningBrowser(db.rows, account)
                       <==> i in db.rows && UsesBrowserOf(db.rows[i].job.spec, account) && db.rows[i].job.status.Running?
      {
      }
    }
  }

  /** A job that is not a READ needs its account, so nobody may hold it. */
  predicate AccountFree(db: Db, spec: JobSpec, now: Time) {
    spec.account.Some? && !spec.operation.Read? && spec.account.value in db.leases ==>
      db.leases[spec.account.value].expires <= now
  }

  predicate CanBeTaken(cfg: Config, env: Env, db: Db, c: JobId, worker: WorkerId, now: Time) {
    && worker in db.workers && c in Ready(env, db, worker, db.workers[worker], now)
    && Permitted(cfg, env, db, db.rows[c].job.spec, worker)
    && ProfileFree(env, db, c, worker, db.workers[worker], now)
    && AccountFree(db, db.rows[c].job.spec, now)
  }

  lemma PassedOverMeans(cfg: Config, env: Env, db: Db, c: JobId, worker: WorkerId, now: Time)
    requires Serves(db, worker, now) && HasRoom(db, worker, now) && c in Ready(env, db, worker, db.workers[worker], now)
    ensures JobOutcomes.PassedOver(cfg, env, db, c, worker, db.workers[worker], now)
            <==> !CanBeTaken(cfg, env, db, c, worker, now)
  {
    PolicyMeans(cfg, env, db, db.rows[c].job.spec, worker);
    GateMeans(env, db, c, worker, now);
  }

  // ----- what taking a job leaves -----

  /** The fence of the new lease: one more than the account has ever had. */
  function NextFence(db: Db, spec: JobSpec): Option<int> {
    if spec.account.None? || spec.operation.Read? then None
    else Some(if spec.account.value in db.leases then db.leases[spec.account.value].generation + 1 else 1)
  }

  /** A new attempt runs under the new lease; one that was still running is abandoned, and its requests lapse. */
  predicate RowTakenAs(r: JobRows, next: JobRows, worker: WorkerId, token: Token, fence: Option<int>, expires: Time, now: Time) {
    && next.job == Job(r.job.spec, JobStatus.Running, r.job.scheduledAt, r.job.attemptCount + 1, r.job.retrySafety, false,
                       Some(Lease(worker, token, expires)), fence, r.job.checkpoint, r.job.result, None)
    && |next.attempts| == |r.attempts| + 1
    && next.attempts[|r.attempts|] == Attempt(r.job.attemptCount + 1, worker, token, AttemptRunning, None, None)
    && (forall i :: 0 <= i < |r.attempts| ==>
                      next.attempts[i] == if r.attempts[i].status.AttemptRunning?
                                          then Attempt(r.attempts[i].number, r.attempts[i].worker, r.attempts[i].token,
                                                       AttemptAbandoned, Some(now), Some(LeaseExpired))
                                          else r.attempts[i])
    && RequestsLapsed(r, next, now) && next.interventions == r.interventions
  }

  predicate LeaseTaken(db: Db, after: Db, c: JobId, spec: JobSpec, expires: Time) {
    match NextFence(db, spec)
    case None => after.leases == db.leases
    case Some(g) => after.leases == db.leases[spec.account.value := AccountLease(JobOwner(c), spec.operation, g, expires)]
  }

  lemma AcquiredMeans(cfg: Config, db: Db, c: JobId, now: Time)
    requires c in db.rows
    ensures Acquired(cfg, db, c, now).Some? <==> AccountFree(db, db.rows[c].job.spec, now)
    ensures Acquired(cfg, db, c, now).Some? ==>
              var leases := Acquired(cfg, db, c, now).value;
              && LeaseTaken(db, db.(leases := leases), c, db.rows[c].job.spec, now + cfg.leaseDuration)
              && FenceIn(leases, db.rows[c].job.spec) == NextFence(db, db.rows[c].job.spec)
  {
  }

  lemma TakenRowsMean(cfg: Config, r: JobRows, fence: Option<int>, worker: WorkerId, now: Time, token: Token)
    requires RowsOk(r, now) && TakenRows(cfg, r, fence, worker, now, token).Some?
    ensures RowTakenAs(r, TakenRows(cfg, r, fence, worker, now, token).value, worker, token, fence, now + cfg.leaseDuration, now)
  {
    RunningAttemptIsLast(r);
    PendingCancelIsLast(r);
  }

  /** The preemptor is still waiting to start, more urgent than its victim, and in time. */
  predicate StillWanted(db: Db, k: Pair, victim: JobSpec, now: Time) {
    k.preemptor in db.rows &&
    var job := db.rows[k.preemptor].job;
    && (job.status.Queued? || job.status.FailedRetryable?) && job.spec.priority > victim.priority
    && (job.spec.deadline.Some? ==> now < job.spec.deadline.value)
  }

  predicate WaitsFor(db: Db, k: Pair, c: JobId) {
    k in db.preemptions && db.preemptions[k].status.WaitingForQuiescence? && k.victim == c
  }

  /** The taken job is stopped again for someone who still waits for it, if it can be. */
  predicate AskedAgain(cfg: Config, env: Env, db: Db, c: JobId, now: Time) {
    c in db.rows &&
    var spec := db.rows[c].job.spec;
    && spec.account.Some? && spec.affinity && spec.priority < HIGH_PRIORITY
    && (exists k <- db.preemptions :: WaitsFor(db, k, c) && StillWanted(db, k, spec, now))
    && CanBeAsked(cfg, env, db, c, now)
  }

  /** Waiters nobody needs any more lapse; the others point to the new request, if there is one. */
  predicate WaitersHeard(cfg: Config, env: Env, db: Db, after: Db, c: JobId, now: Time) {
    c in db.rows && after.preemptions.Keys == db.preemptions.Keys &&
    var spec := db.rows[c].job.spec;
    forall k <- db.preemptions ::
      var p := db.preemptions[k];
      after.preemptions[k] == if !WaitsFor(db, k, c) || spec.account.None? || !spec.affinity then p
                              else if !StillWanted(db, k, spec, now) then Preemption(p.account, PreemptorEnded(now), p.cancelRequest)
                              else if AskedAgain(cfg, env, db, c, now) then
                                Preemption(p.account, p.status, Some(|db.rows[c].cancels| + 1))
                              else p
  }

  predicate RequestRenewed(cfg: Config, env: Env, db: Db, after: Db, c: JobId, now: Time) {
    c in db.rows && c in after.rows && after.rows == db.rows[c := after.rows[c]] &&
    var r := db.rows[c];
    after.rows[c] == if AskedAgain(cfg, env, db, c, now)
                     then JobRows(r.job, r.attempts,
                                  r.cancels + [Cancel(|r.cancels| + 1, r.job.attemptCount, HighPriorityPreemption, Pending)],
                                  r.interventions)
                     else r
  }

  lemma WantedMeans(db: Db, c: JobId, k: Pair, now: Time)
    requires c in db.rows
    ensures k in WaitingForVictim(db.preemptions, c) <==> WaitsFor(db, k, c)
    ensures k in ViableFor(db, c, now) <==> WaitsFor(db, k, c) && StillWanted(db, k, db.rows[c].job.spec, now)
  {
  }

  lemma AskedAgainMeans(cfg: Config, env: Env, db: Db, c: JobId, now: Time)
    requires Inv(db, now) && c in db.rows
    ensures var spec := db.rows[c].job.spec;
            AskedAgain(cfg, env, db, c, now)
            <==> && spec.account.Some? && spec.affinity && spec.priority < HIGH_PRIORITY && ViableFor(db, c, now) != {}
                 && CancelTarget(cfg, env, db, db.rows[c], now).Success?
  {
    CancelTargetMeans(cfg, env, db, c, now);
    if ViableFor(db, c, now) != {} {
      var k :| k in ViableFor(db, c, now);
      WantedMeans(db, c, k, now);
    } else {
      forall k <- db.preemptions ensures !(WaitsFor(db, k, c) && StillWanted(db, k, db.rows[c].job.spec, now)) {
        WantedMeans(db, c, k, now);
      }
    }
  }

  lemma NewRequest(r: JobRows, reason: Code, now: Time)
    requires RowsOk(r, now) && r.job.status.Running? && forall i :: 0 <= i < |r.cancels| ==> !r.cancels[i].status.Pending?
    ensures PlaceCancel(r, r.job.attemptCount, reason, now)
            == (JobRows(r.job, r.attempts, r.cancels + [Cancel(|r.cancels| + 1, r.job.attemptCount, reason, Pending)],
                        r.interventions), |r.cancels| + 1)
  {
    LatestGenerationIsCount(r.cancels);
  }

  lemma AskingMeans(cfg: Config, env: Env, db: Db, c: JobId, now: Time)
    requires Inv(db, now) && c in db.rows
    requires db.rows[c].job.status.Running? && NothingPending(db.rows[c])
    ensures var r, target := db.rows[c], CancelTarget(cfg, env, db, db.rows[c], now);
            var dropped, viable := DropNonViable(db, c, now), ViableFor(db, c, now);
            AskToStop(cfg, env, dropped, c, viable, now)
            == if target.Failure? then dropped
               else Pointed(dropped.(rows := db.rows[c := JobRows(r.job, r.attempts,
                                                                  r.cancels + [Cancel(|r.cancels| + 1, r.job.attemptCount,
                                                                                      HighPriorityPreemption, Pending)],
                                                                  r.interventions)]), viable, |r.cancels| + 1)
  {
    RowOf(db, c, now);
    NewRequest(db.rows[c], HighPriorityPreemption, now);
    assert CancelTarget(cfg, env, DropNonViable(db, c, now), db.rows[c], now) == CancelTarget(cfg, env, db, db.rows[c], now);
  }

  lemma HeardRequest(cfg: Config, env: Env, db: Db, c: JobId, now: Time)
    requires Inv(db, now) && c in db.rows
    requires db.rows[c].job.status.Running? && NothingPending(db.rows[c])
    ensures var after := RequestCancelForWaiting(cfg, env, db, c, now);
            && after == db.(rows := after.rows, preemptions := after.preemptions)
            && RequestRenewed(cfg, env, db, after, c, now)
  {
    AskedAgainMeans(cfg, env, db, c, now);
    AskingMeans(cfg, env, db, c, now);
    assert db.rows[c := db.rows[c]] == db.rows;
  }

  lemma HeardWaiters(cfg: Config, env: Env, db: Db, c: JobId, now: Time)
    requires Inv(db, now) && c in db.rows
    requires db.rows[c].job.status.Running? && NothingPending(db.rows[c])
    ensures WaitersHeard(cfg, env, db, RequestCancelForWaiting(cfg, env, db, c, now), c, now)
  {
    AskedAgainMeans(cfg, env, db, c, now);
    AskingMeans(cfg, env, db, c, now);
    forall k <- db.preemptions
      ensures k in WaitingForVictim(db.preemptions, c) <==> WaitsFor(db, k, c)
      ensures k in ViableFor(db, c, now) <==> WaitsFor(db, k, c) && StillWanted(db, k, db.rows[c].job.spec, now)
    {
      WantedMeans(db, c, k, now);
    }
  }

  /**
   * The tables after job `c` was taken: its row under the new lease, its account won, and whoever still waits for it
   * heard again; no other job, Command, result event or worker moves.
   */
  ghost predicate ClaimedAs(cfg: Config, env: Env, db: Db, after: Db, c: JobId, worker: WorkerId, token: Token, now: Time) {
    c in db.rows && after == db.(rows := after.rows, preemptions := after.preemptions, leases := after.leases) &&
    var expires := now + cfg.leaseDuration;
    var spec := db.rows[c].job.spec;
    && LeaseTaken(db, after, c, spec, expires)
    && exists next: JobRows ::
         && RowTakenAs(db.rows[c], next, worker, token, NextFence(db, spec), expires, now)
         && var taken := db.(rows := db.rows[c := next], leases := after.leases);
         RequestRenewed(cfg, env, taken, after, c, now) && WaitersHeard(cfg, env, taken, after, c, now)
  }

  lemma TakenTables(cfg: Config, env: Env, db: Db, c: JobId, next: JobRows, worker: WorkerId, now: Time, token: Token)
    requires Inv(db, now) && cfg.Valid() && ClaimProofs.GateGrants(db.rows, db.preemptions, c) && Acquired(cfg, db, c, now).Some?
    requires RowsOk(next, now) && ClaimProofs.OneMoreAttempt(db.rows[c], next, token) && !TokenUsed(db.rows, token)
    requires !db.rows[c].job.spec.PastDeadline(now)
    requires RowTakenAs(db.rows[c], next, worker, token, NextFence(db, next.job.spec), now + cfg.leaseDuration, now)
    ensures var taken := db.(leases := Acquired(cfg, db, c, now).value, rows := db.rows[c := next]);
            ClaimedAs(cfg, env, db, RequestCancelForWaiting(cfg, env, taken, c, now), c, worker, token, now)
  {
    AcquiredMeans(cfg, db, c, now);
    ClaimProofs.AcquiredKeepsFences(cfg, db, c, next, now);
    ClaimProofs.ClaimedKeeps(db, c, next, Acquired(cfg, db, c, now).value, token, now);
    var taken := db.(leases := Acquired(cfg, db, c, now).value, rows := db.rows[c := next]);
    HeardRequest(cfg, env, taken, c, now);
    HeardWaiters(cfg, env, taken, c, now);
    assert RowTakenAs(db.rows[c], next, worker, token, NextFence(db, next.job.spec), now + cfg.leaseDuration, now);
  }

  lemma NextRows(cfg: Config, env: Env, db: Db, c: JobId, worker: WorkerId, w: WorkerNode, now: Time, token: Token)
    requires Inv(db, now) && cfg.Valid() && c in db.rows && Acquired(cfg, db, c, now).Some?
    requires Available(db.rows[c].job, env, worker, w, now)
    ensures FenceIn(Acquired(cfg, db, c, now).value, db.rows[c].job.spec) == NextFence(db, db.rows[c].job.spec)
    ensures var fence := NextFence(db, db.rows[c].job.spec);
            var next := TakenRows(cfg, db.rows[c], fence, worker, now, token);
            && next.Some? && RowsOk(next.value, now) && next.value.job.Storable()
            && ClaimProofs.OneMoreAttempt(db.rows[c], next.value, token)
            && RowTakenAs(db.rows[c], next.value, worker, token, fence, now + cfg.leaseDuration, now)
            && !(exists a <- db.rows[c].attempts :: a.number == next.value.job.attemptCount)
  {
    RowOf(db, c, now);
    ClaimProofs.FenceIsWon(cfg, db, c, now);
    AcquiredMeans(cfg, db, c, now);
    var fence := NextFence(db, db.rows[c].job.spec);
    ClaimProofs.TakenRowsOk(cfg, env, db.rows[c], fence, worker, w, now, token);
    TakenRowsMean(cfg, db.rows[c], fence, worker, now, token);
  }

  lemma TakeMeans(cfg: Config, env: Env, db: Db, c: JobId, worker: WorkerId, w: WorkerNode, now: Time, token: Token)
    requires Inv(db, now) && cfg.Valid() && ClaimProofs.GateGrants(db.rows, db.preemptions, c) && Acquired(cfg, db, c, now).Some?
    requires Available(db.rows[c].job, env, worker, w, now) && !TokenUsed(db.rows, token)
    ensures var take := Take(cfg, env, db, c, Acquired(cfg, db, c, now).value, worker, now, token);
            take.Taken? && ClaimedAs(cfg, env, db, take.db, c, worker, token, now)
  {
    NextRows(cfg, env, db, c, worker, w, now, token);
    var next := TakenRows(cfg, db.rows[c], NextFence(db, db.rows[c].job.spec), worker, now, token).value;
    TakenTables(cfg, env, db, c, next, worker, now, token);
  }

  lemma ClaimOneMeans(cfg: Config, env: Env, db: Db, c: JobId, worker: WorkerId, w: WorkerNode, now: Time, token: Token)
    requires Inv(db, now) && cfg.Valid() && c in db.rows && Available(db.rows[c].job, env, worker, w, now)
    requires !TokenUsed(db.rows, token) && ClaimOne(cfg, env, db, c, worker, w, now, token).Taken?
    ensures ClaimedAs(cfg, env, db, ClaimOne(cfg, env, db, c, worker, w, now, token).db, c, worker, token, now)
  {
    ClaimProofs.GateGranted(env, db, c, worker, w, now);
    TakeMeans(cfg, env, db, c, worker, w, now, token);
  }

  // ----- the poll -----

  /** Job `c` is the one a poll must take: it can be taken, is near enough, and comes before every other that can be. */
  ghost predicate TheOneToTake(cfg: Config, env: Env, db: Db, c: JobId, worker: WorkerId, now: Time) {
    && HasRoom(db, worker, now) && CanBeTaken(cfg, env, db, c, worker, now)
    && |Ahead(db.rows, Ready(env, db, worker, db.workers[worker], now), c)| < 50
    && (forall i <- db.rows :: i != c && CanBeTaken(cfg, env, db, i, worker, now) ==> ServedBefore(db.rows, c, i))
  }

  /** No job a poll may look at can be taken. */
  ghost predicate NothingToTake(cfg: Config, env: Env, db: Db, worker: WorkerId, now: Time) {
    HasRoom(db, worker, now) ==>
      forall i <- db.rows :: CanBeTaken(cfg, env, db, i, worker, now) ==>
                               |Ahead(db.rows, Ready(env, db, worker, db.workers[worker], now), i)| >= 50
  }

  lemma AheadIsTransitive(rows: map<JobId, JobRows>, s: set<JobId>, c: JobId, i: JobId)
    requires s <= rows.Keys && c in s && i in s && c != i && |Ahead(rows, s, c)| <= |Ahead(rows, s, i)|
    ensures ServedBefore(rows, c, i)
  {
    if !ServedBefore(rows, c, i) {
      assert ServedBefore(rows, i, c);
      assert Ahead(rows, s, i) + {i} <= Ahead(rows, s, c);
      CardinalityMonotone(Ahead(rows, s, i) + {i}, Ahead(rows, s, c));
    }
  }

  lemma {:induction false} CardinalityMonotone(a: set<JobId>, b: set<JobId>)
    requires a <= b
    ensures |a| <= |b|
    decreases |a|
  {
    if a != {} {
      var x :| x in a;
      CardinalityMonotone(a - {x}, b - {x});
    }
  }

  lemma LaterInLine(cfg: Config, env: Env, db: Db, n: nat, i: JobId, worker: WorkerId, now: Time)
    requires Serves(db, worker, now) && HasRoom(db, worker, now) && CanBeTaken(cfg, env, db, i, worker, now)
    requires var w := db.workers[worker];
             var list := Candidates(db, env, worker, w, now);
             && n < |list| && (forall j <- list :: j in db.rows)
             && forall k :: 0 <= k < n ==> JobOutcomes.PassedOver(cfg, env, db, list[k], worker, w, now)
    ensures |Ahead(db.rows, Ready(env, db, worker, db.workers[worker], now), i)| >= n
  {
    var list := Candidates(db, env, worker, db.workers[worker], now);
    ListingMeans(env, db, worker, now);
    PassedOverMeans(cfg, env, db, i, worker, now);
    if i in list {
      var m :| 0 <= m < |list| && list[m] == i;
    }
  }

  lemma FirstIsTheOne(cfg: Config, env: Env, db: Db, n: nat, worker: WorkerId, now: Time)
    requires Serves(db, worker, now)
    requires var w := db.workers[worker];
             var list := Candidates(db, env, worker, w, now);
             && n < |list| && (forall j <- list :: j in db.rows)
             && (forall k :: 0 <= k < n ==> JobOutcomes.PassedOver(cfg, env, db, list[k], worker, w, now))
             && !JobOutcomes.PassedOver(cfg, env, db, list[n], worker, w, now)
    ensures TheOneToTake(cfg, env, db, Candidates(db, env, worker, db.workers[worker], now)[n], worker, now)
  {
    var list, ready := Candidates(db, env, worker, db.workers[worker], now), Ready(env, db, worker, db.workers[worker], now);
    ListingMeans(env, db, worker, now);
    PassedOverMeans(cfg, env, db, list[n], worker, now);
    forall i <- db.rows | i != list[n] && CanBeTaken(cfg, env, db, i, worker, now) ensures ServedBefore(db.rows, list[n], i) {
      LaterInLine(cfg, env, db, n, i, worker, now);
      AheadIsTransitive(db.rows, ready, list[n], i);
    }
  }

  lemma NoneIsTheOne(cfg: Config, env: Env, db: Db, worker: WorkerId, now: Time)
    requires Serves(db, worker, now)
    requires var w := db.workers[worker];
             forall j <- Candidates(db, env, worker, w, now) ::
               j in db.rows && JobOutcomes.PassedOver(cfg, env, db, j, worker, w, now)
    ensures NothingToTake(cfg, env, db, worker, now)
  {
    ListingMeans(env, db, worker, now);
    if HasRoom(db, worker, now) {
      forall i <- db.rows | CanBeTaken(cfg, env, db, i, worker, now)
        ensures |Ahead(db.rows, Ready(env, db, worker, db.workers[worker], now), i)| >= 50
      {
        PassedOverMeans(cfg, env, db, i, worker, now);
      }
    }
  }

  /**
   * What a poll by a served worker achieves: the job that comes first in the order of service among those that can be
   * taken, if it is one of the first fifty ready ones and the worker has room; with no such job, nothing.
   */
  ghost predicate Polled(cfg: Config, env: Env, db: Db, s: Step<(Db, Option<JobId>)>, worker: WorkerId, token: Token, now: Time) {
    match s
    case Failure(_) => false
    case Success(v) =>
      match v.1
      case None => v.0 == db && NothingToTake(cfg, env, db, worker, now)
      case Some(c) => TheOneToTake(cfg, env, db, c, worker, now) && ClaimedAs(cfg, env, db, v.0, c, worker, token, now)
  }

  lemma PollMeans(cfg: Config, env: Env, db: Db, worker: WorkerId, now: Time, token: Token)
    requires Inv(db, now) && cfg.Valid() && !TokenUsed(db.rows, token) && Serves(db, worker, now)
    ensures var w := db.workers[worker];
            Polled(cfg, env, db, ClaimLoop(cfg, env, db, Candidates(db, env, worker, w, now), worker, w, now, token), worker, token, now)
  {
    var w := db.workers[worker];
    var list := Candidates(db, env, worker, w, now);
    forall j | j in list ensures j in db.rows && Available(db.rows[j].job, env, worker, w, now) {
      ClaimProofs.ListedAreAvailable(db, env, worker, w, now, j);
    }
    JobOutcomes.ClaimTakesFirst(cfg, env, db, list, worker, w, now, token);
    var v := ClaimLoop(cfg, env, db, list, worker, w, now, token).value;
    if v.1.Some? {
      ClaimOneMeans(cfg, env, db, v.1.value, worker, w, now, token);
      var n :| 0 <= n < |list| && list[n] == v.1.value
               && forall k :: 0 <= k < n ==> JobOutcomes.PassedOver(cfg, env, db, list[k], worker, w, now);
      FirstIsTheOne(cfg, env, db, n, worker, now);
    } else {
      NoneIsTheOne(cfg, env, db, worker, now);
    }
  }

  /** A poll fails exactly for a worker that is not served, and otherwise achieves exactly that. */
  lemma ClaimNextMeans(cfg: Config, env: Env, db: Db, worker: WorkerId, now: Time, token: Token)
    requires Inv(db, now) && cfg.Valid() && !TokenUsed(db.rows, token)
    ensures var s := ClaimNext(cfg, env, db, worker, now, token);
            if Serves(db, worker, now) then Polled(cfg, env, db, s, worker, token, now)
            else s == Failure(if worker in db.workers then WorkerNotEligible else WorkerNotFound)
  {
    if Serves(db, worker, now) {
      PollMeans(cfg, env, db, worker, now, token);
    }
  }

  /** A worker never gets more jobs than it has room for. */
  lemma ClaimFitsRoom(cfg: Config, env: Env, db: Db, worker: WorkerId, now: Time, token: Token)
    requires Inv(db, now) && cfg.Valid() && !TokenUsed(db.rows, token) && Serves(db, worker, now)
    ensures var s := ClaimNext(cfg, env, db, worker, now, token);
            s.Success? && (s.value.1.Some? ==> |LiveOn(s.value.0, worker, now)| <= db.workers[worker].maxJobs)
  {
    ClaimNextMeans(cfg, env, db, worker, now, token);
    var v := ClaimNext(cfg, env, db, worker, now, token).value;
    if v.1.Some? {
      OneMoreLive(cfg, env, db, v.0, v.1.value, worker, token, now);
      CardinalityMonotone(LiveOn(v.0, worker, now), LiveOn(db, worker, now) + {v.1.value});
    }
  }

  lemma OneMoreLive(cfg: Config, env: Env, db: Db, after: Db, c: JobId, worker: WorkerId, token: Token, now: Time)
    requires ClaimedAs(cfg, env, db, after, c, worker, token, now)
    ensures LiveOn(after, worker, now) <= LiveOn(db, worker, now) + {c}
  {
  }
}
