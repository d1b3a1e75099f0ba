/** The promises of the WorkerJob protocol, over every reachable state and every run. */
module JobTheorems {
  import opened Prelude
  import opened WorkerJobs
  import opened Platform
  import opened JobSteps
  import opened WorkerControl
  import opened JobInvariants
  import opened HolderProofs
  import opened EnqueueMeanings
  import opened JobCalls
  import opened JobHistory
  import opened JobRuns
  import Commands

  // ----- one browser job per account -----

  /**
   * Each account has at most one RUNNING browser-profile job; its waiting preemptions all name one victim,
   * which is the only browser job that can be running; every waiting preemptor is QUEUED and never started.
   */
  lemma BrowserExclusion(cfg: Config, db: Db, clock: Time)
    requires Reachable(cfg, db, clock)
    ensures forall i, j, a ::
              i in db.rows && j in db.rows && RunsBrowser(db.rows[i].job, a) && RunsBrowser(db.rows[j].job, a) ==> i == j
    ensures forall k, l ::
              (Waits(db.preemptions, k) && Waits(db.preemptions, l) && db.preemptions[k].account == db.preemptions[l].account)
              ==> k.victim == l.victim
    ensures forall k, j ::
              (Waits(db.preemptions, k) && j in db.rows && RunsBrowser(db.rows[j].job, db.preemptions[k].account))
              ==> j == k.victim
    ensures forall k :: Waits(db.preemptions, k) ==> k.preemptor in db.rows && NeverStarted(db.rows[k.preemptor].job)
  {
    ReachableInv(cfg, db, clock);
    forall k | Waits(db.preemptions, k) ensures k.preemptor in db.rows && NeverStarted(db.rows[k.preemptor].job) {
      assert PreemptionOk(db.rows, k, db.preemptions[k], clock);
    }
  }

  lemma VictimPassesGate(env: Env, db: Db, clock: Time, k: Pair, worker: WorkerId, w: WorkerNode, now: Time)
    requires PreemptionsOk(db.rows, db.preemptions, clock) && OneVictimPerAccount(db.rows, db.preemptions)
    requires Waits(db.preemptions, k) && k.victim in db.rows
    requires Available(db.rows[k.victim].job, env, worker, w, now)
    ensures BrowserGate(env, db, k.victim, worker, w, now)
  {
    var a := db.preemptions[k].account;
    assert PreemptionOk(db.rows, k, db.preemptions[k], clock);
    assert k in WaitingForAccount(db.preemptions, a);
    forall l <- WaitingForAccount(db.preemptions, a) ensures l.victim == k.victim && l.preemptor != k.victim {
      assert Waits(db.preemptions, l) && Waits(db.preemptions, k);
      assert PreemptionOk(db.rows, l, db.preemptions[l], clock);
    }
    forall r <- RunningBrowser(db.rows, a) ensures r == k.victim {
      assert RunsBrowser(db.rows[r].job, a);
    }
  }

  lemma OthersStopAtGate(env: Env, db: Db, k: Pair, c: JobId, worker: WorkerId, w: WorkerNode, now: Time)
    requires Waits(db.preemptions, k) && c in db.rows && c != k.victim
    requires BrowserJob(db.rows[c].job.spec) && db.rows[c].job.spec.account == Some(db.preemptions[k].account)
    ensures !BrowserGate(env, db, c, worker, w, now)
  {
    assert k in WaitingForAccount(db.preemptions, db.preemptions[k].account);
  }

  /**
   * While a preemption waits, the gate of its account opens for the victim's own re-claim and for nothing else:
   * not for the preemptor, and not for any other browser job.
   */
  lemma GateOpensForVictimOnly(cfg: Config, env: Env, db: Db, clock: Time, k: Pair, c: JobId, worker: WorkerId,
                               w: WorkerNode, now: Time)
    requires Reachable(cfg, db, clock) && Waits(db.preemptions, k)
    requires c in db.rows && BrowserJob(db.rows[c].job.spec) && db.rows[c].job.spec.account == Some(db.preemptions[k].account)
    requires Available(db.rows[c].job, env, worker, w, now)
    ensures BrowserGate(env, db, c, worker, w, now) <==> c == k.victim
  {
    ReachableInv(cfg, db, clock);
    if c == k.victim {
      VictimPassesGate(env, db, clock, k, worker, w, now);
    } else {
      OthersStopAtGate(env, db, k, c, worker, w, now);
    }
  }

  // ----- preemption only over a proven stop -----

  predicate IsSatisfied(ps: map<Pair, Preemption>, k: Pair) { k in ps && ps[k].status.Satisfied? }

  /** Event `i` is an accepted call in which the victim's current holder gives up an unexpired lease. */
  ghost predicate StopProvenAt(cfg: Config, db: Db, events: seq<Event>, i: nat, v: JobId)
    requires i < |events|
  {
    && ProvesStop(At(cfg, db, events, i).rows, events[i].call, v, events[i].now)
    && Apply(cfg, events[i].env, At(cfg, db, events, i), events[i].call, events[i].now).Success?
  }

  /** Event `i` satisfies preemption `k` that way, while its preemptor is still waiting and has never started. */
  ghost predicate SatisfiedAt(cfg: Config, db: Db, events: seq<Event>, i: nat, k: Pair)
    requires i < |events|
  {
    var before := At(cfg, db, events, i);
    && StopProvenAt(cfg, db, events, i, k.victim)
    && Waits(before.preemptions, k) && k.preemptor in before.rows && NeverStarted(before.rows[k.preemptor].job)
    && IsSatisfied(At(cfg, db, events, i + 1).preemptions, k)
  }

  lemma SatisfiedByProof(cfg: Config, env: Env, db: Db, call: Call, now: Time, k: Pair)
    requires Evolves(db, After(cfg, env, db, call, now), call, now)
    requires IsSatisfied(After(cfg, env, db, call, now).preemptions, k) && !IsSatisfied(db.preemptions, k)
    ensures ProvesStop(db.rows, call, k.victim, now) && Apply(cfg, env, db, call, now).Success?
    ensures Waits(db.preemptions, k)
  {
  }

  lemma FirstEventSatisfies(cfg: Config, db: Db, events: seq<Event>, k: Pair)
    requires events != [] && Inv(db, events[0].now) && cfg.Valid()
    requires var e := events[0]; IsSatisfied(After(cfg, e.env, db, e.call, e.now).preemptions, k)
    requires !IsSatisfied(db.preemptions, k)
    ensures SatisfiedAt(cfg, db, events, 0, k)
  {
    var e := events[0];
    StepEvolves(cfg, e.env, db, e.call, e.now);
    SatisfiedByProof(cfg, e.env, db, e.call, e.now, k);
    assert PreemptionOk(db.rows, k, db.preemptions[k], e.now);
    AtFirst(cfg, db, events);
    assert StopProvenAt(cfg, db, events, 0, k.victim);
  }

  lemma LaterEventSatisfies(cfg: Config, db: Db, events: seq<Event>, i: nat, k: Pair)
    requires i + 1 < |events|
    requires var e := events[0]; SatisfiedAt(cfg, After(cfg, e.env, db, e.call, e.now), events[1..], i, k)
    ensures SatisfiedAt(cfg, db, events, i + 1, k)
  {
    AtShifts(cfg, db, events, i + 1);
    AtShifts(cfg, db, events, i + 2);
    assert events[1..][i] == events[i + 1];
    assert StopProvenAt(cfg, db, events, i + 1, k.victim);
  }

  /**
   * A preemption becomes SATISFIED only through such a call, never through expiry or recovery: in every run
   * that satisfies it there is the one event that did, and its preemptor had not started by then.
   */
  lemma {:induction false} SatisfiedOnlyByProof(cfg: Config, db: Db, clock: Time, events: seq<Event>, k: Pair)
    requires Inv(db, clock) && cfg.Valid() && InOrder(clock, events)
    requires IsSatisfied(Run(cfg, db, events).preemptions, k) && !IsSatisfied(db.preemptions, k)
    ensures exists i :: 0 <= i < |events| && SatisfiedAt(cfg, db, events, i, k)
    decreases |events|
  {
    var e := events[0];
    var next := After(cfg, e.env, db, e.call, e.now);
    TimePasses(db, clock, e.now);
    if IsSatisfied(next.preemptions, k) {
      FirstEventSatisfies(cfg, db, events, k);
    } else {
      StepKeeps(cfg, e.env, db, e.call, e.now);
      SatisfiedOnlyByProof(cfg, next, e.now, events[1..], k);
      var i :| 0 <= i < |events[1..]| && SatisfiedAt(cfg, next, events[1..], i, k);
      LaterEventSatisfies(cfg, db, events, i, k);
    }
  }

  /**
   * So no preemptor ever starts on an assumed stop: every row by which a started job waited was satisfied by its
   * victim's own proof, at an event before which that job had never started.
   */
  lemma NoStartOnAssumedStop(cfg: Config, start: Time, events: seq<Event>, k: Pair)
    requires cfg.Valid() && InOrder(start, events)
    requires var db := Run(cfg, EMPTY_DB, events);
             k in db.preemptions && k.preemptor in db.rows && db.rows[k.preemptor].job.attemptCount >= 1
    ensures exists i :: 0 <= i < |events| && SatisfiedAt(cfg, EMPTY_DB, events, i, k)
  {
    InvInitially(start);
    RunKeeps(cfg, EMPTY_DB, start, events);
    var db := Run(cfg, EMPTY_DB, events);
    assert PreemptionOk(db.rows, k, db.preemptions[k], End(start, events));
    SatisfiedOnlyByProof(cfg, EMPTY_DB, start, events, k);
  }

  // ----- attempts of a job that needs reconciliation -----

  lemma StepMovesRow(cfg: Config, env: Env, db: Db, call: Call, now: Time, j: JobId)
    requires Inv(db, now) && cfg.Valid() && j in db.rows
    ensures var after := After(cfg, env, db, call, now);
            j in after.rows && RowEvolves(db.rows[j], after.rows[j], CauseIn(call, j), now)
  {
    StepEvolves(cfg, env, db, call, now);
  }

  /** Claims such a job has used or may still use without a further confirmation. */
  function Budget(job: Job): int {
    if job.attemptCount == 0 then 1 else job.attemptCount + (if job.retryAuthorized then 1 else 0)
  }

  ghost predicate Confirms(cfg: Config, db: Db, e: Event, j: JobId) {
    && e.call.Resolving? && e.call.job == j && e.call.requeue && e.call.confirmed
    && Apply(cfg, e.env, db, e.call, e.now).Success?
  }

  /** Accepted operator-confirmed requeues of job `j` in a run. */
  ghost function Confirmations(cfg: Config, db: Db, events: seq<Event>, j: JobId): nat
    decreases |events|
  {
    if events == [] then 0
    else
      (if Confirms(cfg, db, events[0], j) then 1 else 0)
      + Confirmations(cfg, After(cfg, events[0].env, db, events[0].call, events[0].now), events[1..], j)
  }

  lemma MoveSpendsBudget(r: JobRows, next: JobRows, cause: Cause, now: Time)
    requires RowEvolves(r, next, cause, now) && r.job.retrySafety.ReconciliationRequired? && r.job.attemptCount >= 0
    ensures next.job.retrySafety.ReconciliationRequired?
    ensures Budget(next.job) <= Budget(r.job) + (if cause.Operator? && cause.confirmed then 1 else 0)
    ensures next.job.attemptCount >= r.job.attemptCount
  {
  }

  lemma StepSpendsBudget(cfg: Config, env: Env, db: Db, call: Call, now: Time, j: JobId)
    requires Inv(db, now) && cfg.Valid() && j in db.rows && db.rows[j].job.retrySafety.ReconciliationRequired?
    ensures var after := After(cfg, env, db, call, now);
            && j in after.rows && after.rows[j].job.retrySafety.ReconciliationRequired?
            && Budget(after.rows[j].job) <= Budget(db.rows[j].job) + (if Confirms(cfg, db, Event(now, env, call), j) then 1 else 0)
  {
    RowOf(db, j, now);
    StepMovesRow(cfg, env, db, call, now, j);
    MoveSpendsBudget(db.rows[j], After(cfg, env, db, call, now).rows[j], CauseIn(call, j), now);
  }

  /**
   * Once RECONCILIATION_REQUIRED a job stays so, and over every run, lease expiries and recoveries included,
   * its claims beyond the budget it had are paid for by operator confirmations, one each.
   */
  lemma {:induction false} ReconciledClaimsAreConfirmed(cfg: Config, db: Db, clock: Time, events: seq<Event>, j: JobId)
    requires Inv(db, clock) && cfg.Valid() && InOrder(clock, events)
    requires j in db.rows && db.rows[j].job.retrySafety.ReconciliationRequired?
    ensures var end := Run(cfg, db, events);
            && j in end.rows && end.rows[j].job.retrySafety.ReconciliationRequired?
            && end.rows[j].job.attemptCount <= Budget(end.rows[j].job)
            && Budget(end.rows[j].job) <= Budget(db.rows[j].job) + Confirmations(cfg, db, events, j)
    decreases |events|
  {
    if events == [] {
    } else {
      var e := events[0];
      TimePasses(db, clock, e.now);
      StepSpendsBudget(cfg, e.env, db, e.call, e.now, j);
      StepKeeps(cfg, e.env, db, e.call, e.now);
      ReconciledClaimsAreConfirmed(cfg, After(cfg, e.env, db, e.call, e.now), e.now, events[1..], j);
    }
  }

  /** A job enqueued that way is claimed at most once more often than an operator confirmed it. */
  lemma BornReconciled(cfg: Config, db: Db, clock: Time, first: Event, events: seq<Event>)
    requires Reachable(cfg, db, clock) && clock <= first.now && InOrder(first.now, events)
    requires first.call.Enqueueing? && first.call.request.retrySafety.ReconciliationRequired?
    requires Apply(cfg, first.env, db, first.call, first.now).Success?
    ensures var j, born := first.call.job, After(cfg, first.env, db, first.call, first.now);
            var end := Run(cfg, born, events);
            j in end.rows && end.rows[j].job.attemptCount <= 1 + Confirmations(cfg, born, events, j)
  {
    ReachableInv(cfg, db, clock);
    TimePasses(db, clock, first.now);
    var j, born := first.call.job, After(cfg, first.env, db, first.call, first.now);
    StepKeeps(cfg, first.env, db, first.call, first.now);
    EnqueuedAsAsked(cfg, first.env, db, first.call, first.now);
    ReconciledClaimsAreConfirmed(cfg, born, first.now, events, j);
  }

  lemma EnqueuedAsAsked(cfg: Config, env: Env, db: Db, call: Call, now: Time)
    requires call.Enqueueing? && Enqueue(cfg, env, db, call.job, call.request, now).Success?
    ensures var after := Enqueue(cfg, env, db, call.job, call.request, now).value;
            && call.job in after.rows && after.rows[call.job].job.retrySafety == call.request.retrySafety
            && after.rows[call.job].job.attemptCount == 0
  {
    var added := AddJob(env, db, call.job, call.request, now).value;
    PrioritizeAsks(cfg, env, added, call.job, now);
    var after := Prioritize(cfg, env, added, call.job, now).value;
    assert Moved(added.rows[call.job], after.rows[call.job], Untouched, now);
  }

  // ----- the start that was asked for -----

  predicate NotBefore(job: Job, start: Time, clock: Time) {
    start <= clock || (job.attemptCount == 0 && job.scheduledAt == start)
  }

  lemma MoveWaitsForStart(r: JobRows, next: JobRows, cause: Cause, start: Time, clock: Time, now: Time)
    requires RowEvolves(r, next, cause, now) && RowsOk(r, clock) && clock <= now && NotBefore(r.job, start, clock)
    ensures NotBefore(next.job, start, now)
  {
  }

  lemma {:induction false} RunWaitsForStart(cfg: Config, db: Db, clock: Time, events: seq<Event>, j: JobId, start: Time)
    requires Inv(db, clock) && cfg.Valid() && InOrder(clock, events) && j in db.rows && NotBefore(db.rows[j].job, start, clock)
    ensures var end := Run(cfg, db, events);
            j in end.rows && NotBefore(end.rows[j].job, start, End(clock, events))
    decreases |events|
  {
    if events == [] {
    } else {
      var e := events[0];
      var next := After(cfg, e.env, db, e.call, e.now);
      RowOf(db, j, clock);
      TimePasses(db, clock, e.now);
      StepMovesRow(cfg, e.env, db, e.call, e.now, j);
      MoveWaitsForStart(db.rows[j], next.rows[j], CauseIn(e.call, j), start, clock, e.now);
      StepKeeps(cfg, e.env, db, e.call, e.now);
      RunWaitsForStart(cfg, next, e.now, events[1..], j, start);
    }
  }

  /** In every run a job has an attempt only once the start it was enqueued for has come: the one asked for, or then. */
  lemma NeverStartedEarly(cfg: Config, db: Db, clock: Time, first: Event, events: seq<Event>)
    requires Reachable(cfg, db, clock) && clock <= first.now && InOrder(first.now, events)
    requires first.call.Enqueueing? && Apply(cfg, first.env, db, first.call, first.now).Success?
    ensures var start := first.call.request.scheduledAt;
            var end := Run(cfg, After(cfg, first.env, db, first.call, first.now), events);
            && first.call.job in end.rows
            && (end.rows[first.call.job].job.attemptCount > 0 ==>
                  (if start.Some? then start.value else first.now) <= End(first.now, events))
  {
    ReachableInv(cfg, db, clock);
    TimePasses(db, clock, first.now);
    var j, born := first.call.job, After(cfg, first.env, db, first.call, first.now);
    StepKeeps(cfg, first.env, db, first.call, first.now);
    EnqueueMeans(cfg, first.env, db, j, first.call.request, first.now);
    RunWaitsForStart(cfg, born, first.now, events, j, StartOf(first.call.request, first.now));
  }

  // ----- fencing -----

  lemma {:induction false} HistoryOnlyGrows(cfg: Config, db: Db, clock: Time, events: seq<Event>, j: JobId)
    requires Inv(db, clock) && cfg.Valid() && InOrder(clock, events) && j in db.rows
    ensures var end := Run(cfg, db, events);
            && j in end.rows && end.rows[j].job.spec == db.rows[j].job.spec
            && AttemptsGrow(db.rows[j].attempts, end.rows[j].attempts)
            && CancelsGrow(db.rows[j].cancels, end.rows[j].cancels)
    decreases |events|
  {
    if events == [] {
    } else {
      var e := events[0];
      var next := After(cfg, e.env, db, e.call, e.now);
      TimePasses(db, clock, e.now);
      StepMovesRow(cfg, e.env, db, e.call, e.now, j);
      StepKeeps(cfg, e.env, db, e.call, e.now);
      HistoryOnlyGrows(cfg, next, e.now, events[1..], j);
      var end := Run(cfg, db, events);
      GrowthComposes(db.rows[j], next.rows[j], end.rows[j], CauseIn(e.call, j), e.now);
    }
  }

  lemma GrowthComposes(a: JobRows, b: JobRows, c: JobRows, cause: Cause, now: Time)
    requires RowEvolves(a, b, cause, now) && AttemptsGrow(b.attempts, c.attempts) && CancelsGrow(b.cancels, c.cancels)
    ensures b.job.spec == a.job.spec && AttemptsGrow(a.attempts, c.attempts) && CancelsGrow(a.cancels, c.cancels)
  {
  }

  /** Without the current unexpired lease every call of a holder is refused. */
  lemma OnlyTheHolder(cfg: Config, env: Env, db: Db, call: Call, now: Time)
    requires call.Held() && call.job in db.rows && !db.rows[call.job].job.OwnsLease(call.worker, call.token, now)
    ensures Apply(cfg, env, db, call, now).Failure?
  {
  }

  lemma OldTokenIsNotTheLease(r: JobRows, x: nat, worker: WorkerId, clock: Time, now: Time)
    requires RowsOk(r, clock) && x < |r.attempts| - 1
    requires r.attempts[|r.attempts| - 1].token != r.attempts[x].token
    ensures !r.job.OwnsLease(worker, r.attempts[x].token, now)
  {
  }

  /**
   * Once a newer token has been issued for a job, every renew, checkpoint, acknowledgement, completion, failure
   * or intervention under an older one is refused and changes nothing, however the run goes on.
   */
  lemma OldTokensAreDead(cfg: Config, db: Db, clock: Time, events: seq<Event>, j: JobId, x: nat, env: Env, call: Call,
                         now: Time)
    requires Reachable(cfg, db, clock) && InOrder(clock, events)
    requires j in db.rows && x < |db.rows[j].attempts| - 1
    requires call.Held() && call.job == j && call.token == db.rows[j].attempts[x].token
    ensures var end := Run(cfg, db, events);
            Apply(cfg, env, end, call, now).Failure? && After(cfg, env, end, call, now) == end
  {
    ReachableInv(cfg, db, clock);
    RunKeeps(cfg, db, clock, events);
    HistoryOnlyGrows(cfg, db, clock, events, j);
    var end := Run(cfg, db, events);
    TokenOutlived(end, End(clock, events), j, x, call.worker, now);
    OnlyTheHolder(cfg, env, end, call, now);
  }

  lemma TokenOutlived(db: Db, clock: Time, j: JobId, x: nat, worker: WorkerId, now: Time)
    requires Inv(db, clock) && j in db.rows && x < |db.rows[j].attempts| - 1
    ensures !db.rows[j].job.OwnsLease(worker, db.rows[j].attempts[x].token, now)
  {
    RowOf(db, j, clock);
    var last := |db.rows[j].attempts| - 1;
    if db.rows[j].attempts[last].token == db.rows[j].attempts[x].token {
      assert Issued(db.rows, j, x, db.rows[j].attempts[x].token) && Issued(db.rows, j, last, db.rows[j].attempts[x].token);
    }
    OldTokenIsNotTheLease(db.rows[j], x, worker, clock, now);
  }

  predicate LiveExclusive(job: Job, account: AccountId, clock: Time) {
    && job.status.Running? && job.spec.Exclusive() && job.spec.account == Some(account)
    && job.lease.Some? && job.lease.value.expires > clock
  }

  /** The account's lease is unexpired and in the job's name. */
  predicate HoldsAccount(db: Db, i: JobId, account: AccountId, clock: Time) {
    account in db.leases && db.leases[account].owner == JobOwner(i) && db.leases[account].expires > clock
  }

  /**
   * A job is live and exclusive exactly while it holds its account's lease; both leases end together; so at most
   * one exclusive job per account is live, and one that stopped or was recovered holds nothing.
   */
  lemma OneLiveExclusivePerAccount(cfg: Config, db: Db, clock: Time, i: JobId, account: AccountId)
    requires Reachable(cfg, db, clock) && i in db.rows
    ensures LiveExclusive(db.rows[i].job, account, clock) <==> HoldsAccount(db, i, account, clock)
    ensures HoldsAccount(db, i, account, clock) ==>
              && db.rows[i].job.generation == Some(db.leases[account].generation)
              && db.rows[i].job.lease.value.expires == db.leases[account].expires
              && forall j <- db.rows :: LiveExclusive(db.rows[j].job, account, clock) ==> j == i
  {
    ReachableInv(cfg, db, clock);
    LiveOwnsAccount(db, clock, i, account);
    forall j <- db.rows | LiveExclusive(db.rows[j].job, account, clock) ensures HoldsAccount(db, j, account, clock) {
      LiveOwnsAccount(db, clock, j, account);
    }
  }

  lemma LiveOwnsAccount(db: Db, clock: Time, i: JobId, account: AccountId)
    requires Inv(db, clock) && i in db.rows
    ensures LiveExclusive(db.rows[i].job, account, clock) <==> HoldsAccount(db, i, account, clock)
    ensures HoldsAccount(db, i, account, clock) ==>
              && db.rows[i].job.generation == Some(db.leases[account].generation)
              && db.rows[i].job.lease.value.expires == db.leases[account].expires
  {
    RowOf(db, i, clock);
    assert FenceOk(i, db.rows[i].job, db.leases, clock);
    assert account in db.leases ==> HolderOk(account, db.leases[account], db.rows, clock);
  }

  // ----- cancel requests -----

  /**
   * Generations are 1, 2, ...; only the newest request can be pending, only while the job runs, and then for
   * exactly the attempt that is running.
   */
  lemma PendingCancelIsCurrent(cfg: Config, db: Db, clock: Time, j: JobId, i: nat)
    requires Reachable(cfg, db, clock) && j in db.rows && i < |db.rows[j].cancels|
    ensures var r := db.rows[j];
            && r.cancels[i].generation == i + 1
            && (r.cancels[i].status.Pending? ==>
                  i == |r.cancels| - 1 && r.job.status.Running? && r.cancels[i].target == r.job.attemptCount == |r.attempts|)
  {
    ReachableInv(cfg, db, clock);
    RowOf(db, j, clock);
  }

  lemma AcknowledgedIsNewest(cfg: Config, r: JobRows, w: WorkerId, t: Token, g: int, phase: string, clock: Time, now: Time)
    requires RowsOk(r, clock) && AcknowledgedRows(cfg, r, w, t, g, phase, now).Success?
    ensures g == |r.cancels| && g >= 1 && r.cancels[g - 1].status.Pending?
  {
  }

  /** A request that is no longer the newest pending one can never be acknowledged again. */
  lemma OldRequestsAreDead(cfg: Config, db: Db, clock: Time, events: seq<Event>, j: JobId, g: int, env: Env, call: Call,
                           now: Time)
    requires Reachable(cfg, db, clock) && InOrder(clock, events)
    requires j in db.rows && 1 <= g <= |db.rows[j].cancels|
    requires g < |db.rows[j].cancels| || !db.rows[j].cancels[g - 1].status.Pending?
    requires call.Acknowledging? && call.job == j && call.cancel == g
    ensures var end := Run(cfg, db, events);
            Apply(cfg, env, end, call, now).Failure? && After(cfg, env, end, call, now) == end
  {
    ReachableInv(cfg, db, clock);
    RunKeeps(cfg, db, clock, events);
    HistoryOnlyGrows(cfg, db, clock, events, j);
    var end := Run(cfg, db, events);
    RowOf(end, j, End(clock, events));
    if AcknowledgedRows(cfg, end.rows[j], call.worker, call.token, g, call.phase, now).Success? {
      AcknowledgedIsNewest(cfg, end.rows[j], call.worker, call.token, g, call.phase, End(clock, events), now);
      assert false;
    }
  }

  // ----- job, attempts, intervention and Command in lockstep -----

  lemma Lockstep(cfg: Config, db: Db, clock: Time, j: JobId)
    requires Reachable(cfg, db, clock) && j in db.rows
    ensures var r := db.rows[j];
            && (r.job.status.Running? <==> exists i :: 0 <= i < |r.attempts| && r.attempts[i].status.AttemptRunning?)
            && (forall i :: 0 <= i < |r.attempts| && r.attempts[i].status.AttemptRunning? ==> i == |r.attempts| - 1)
            && (r.job.status.WaitingIntervention? <==>
                exists i :: 0 <= i < |r.interventions| && r.interventions[i].status.Open?)
            && (forall i :: 0 <= i < |r.interventions| && r.interventions[i].status.Open? ==> i == |r.interventions| - 1)
            && (r.attempts != [] ==> Fits(r.job.status, r.attempts[|r.attempts| - 1].status))
    ensures var r := db.rows[j];
            r.job.spec.command.Some? ==>
              && r.job.spec.command.value in db.commands
              && var c := db.commands[r.job.spec.command.value];
              && c.status == CommandFor(r.job.status)
              && Sent(db.results, r.job.spec.command.value)
                 == if Ended(r.job.status) then [ResultEvent(c.status, c.error)] else []
  {
    ReachableInv(cfg, db, clock);
    LockstepLocal(db, clock, j);
    if db.rows[j].job.spec.command.Some? {
      LockstepCommand(db, clock, j);
    }
  }

  lemma LockstepLocal(db: Db, clock: Time, j: JobId)
    requires Inv(db, clock) && j in db.rows
    ensures var r := db.rows[j];
            && (r.job.status.Running? <==> exists i :: 0 <= i < |r.attempts| && r.attempts[i].status.AttemptRunning?)
            && (forall i :: 0 <= i < |r.attempts| && r.attempts[i].status.AttemptRunning? ==> i == |r.attempts| - 1)
            && (r.job.status.WaitingIntervention? <==>
                exists i :: 0 <= i < |r.interventions| && r.interventions[i].status.Open?)
            && (forall i :: 0 <= i < |r.interventions| && r.interventions[i].status.Open? ==> i == |r.interventions| - 1)
            && (r.attempts != [] ==> Fits(r.job.status, r.attempts[|r.attempts| - 1].status))
  {
    RowOf(db, j, clock);
    var r := db.rows[j];
    assert r.job.status.Running? ==> r.attempts[|r.attempts| - 1].status.AttemptRunning?;
    assert r.job.status.WaitingIntervention? ==> r.interventions[|r.interventions| - 1].status.Open?;
  }

  lemma LockstepCommand(db: Db, clock: Time, j: JobId)
    requires Inv(db, clock) && j in db.rows && db.rows[j].job.spec.command.Some?
    ensures var r := db.rows[j];
            && r.job.spec.command.value in db.commands
            && var c := db.commands[r.job.spec.command.value];
            && c.status == CommandFor(r.job.status)
            && Sent(db.results, r.job.spec.command.value)
               == if Ended(r.job.status) then [ResultEvent(c.status, c.error)] else []
  {
    assert InStep(db.rows[j].job, db.commands);
    var c := db.rows[j].job.spec.command.value;
    assert EventsOk(db.commands, db.results, c);
  }

  /** A service call in a reachable state meets a defect exactly in the one case of a retry past its deadline. */
  lemma NoDefects(cfg: Config, env: Env, db: Db, clock: Time, call: Call, now: Time)
    requires Reachable(cfg, db, clock) && clock <= now && JobCall(call)
    ensures var s := Apply(cfg, env, db, call, now);
            && (s.Failure? && Defect(s.error) <==> TooLateRetry(cfg, db, call, now))
            && (TooLateRetry(cfg, db, call, now) ==> s.error.CheckViolation?)
  {
    ReachableInv(cfg, db, clock);
    TimePasses(db, clock, now);
    ServiceIsSound(cfg, env, db, call, now);
  }

  lemma StepKeepsResult(cfg: Config, env: Env, db: Db, call: Call, now: Time, c: CommandId)
    requires Inv(db, now) && cfg.Valid() && c in db.commands && Commands.Terminal(db.commands[c].status)
    ensures var after := After(cfg, env, db, call, now);
            c in after.commands && after.commands[c] == db.commands[c] && Sent(after.results, c) == Sent(db.results, c)
  {
    var after := After(cfg, env, db, call, now);
    StepEvolves(cfg, env, db, call, now);
    StepKeeps(cfg, env, db, call, now);
    assert EventsOk(db.commands, db.results, c);
    assert c in after.commands;
    assert EventsOk(after.commands, after.results, c);
  }

  /** A finished Command is never reopened and its one result event is never repeated, replaced or withdrawn. */
  lemma {:induction false} ResultsAreFinal(cfg: Config, db: Db, clock: Time, events: seq<Event>, c: CommandId)
    requires Inv(db, clock) && cfg.Valid() && InOrder(clock, events)
    requires c in db.commands && Commands.Terminal(db.commands[c].status)
    ensures var end := Run(cfg, db, events);
            && c in end.commands && end.commands[c] == db.commands[c]
            && Sent(end.results, c) == Sent(db.results, c) && |Sent(db.results, c)| == 1
    decreases |events|
  {
    assert EventsOk(db.commands, db.results, c);
    if events != [] {
      var e := events[0];
      TimePasses(db, clock, e.now);
      StepKeepsResult(cfg, e.env, db, e.call, e.now, c);
      StepKeeps(cfg, e.env, db, e.call, e.now);
      ResultsAreFinal(cfg, After(cfg, e.env, db, e.call, e.now), e.now, events[1..], c);
    }
  }

  lemma EndedRowIsFrozen(r: JobRows, next: JobRows, cause: Cause, now: Time)
    requires RowEvolves(r, next, cause, now) && Ended(r.job.status)
    ensures next.job == r.job && next.attempts == r.attempts
  {
  }

  lemma {:induction false} EndedJobsAreFrozen(cfg: Config, db: Db, clock: Time, events: seq<Event>, j: JobId)
    requires Inv(db, clock) && cfg.Valid() && InOrder(clock, events) && j in db.rows && Ended(db.rows[j].job.status)
    ensures var end := Run(cfg, db, events);
            j in end.rows && end.rows[j].job == db.rows[j].job && end.rows[j].attempts == db.rows[j].attempts
    decreases |events|
  {
    if events == [] {
    } else {
      var e := events[0];
      var next := After(cfg, e.env, db, e.call, e.now);
      TimePasses(db, clock, e.now);
      StepMovesRow(cfg, e.env, db, e.call, e.now, j);
      EndedRowIsFrozen(db.rows[j], next.rows[j], CauseIn(e.call, j), e.now);
      StepKeeps(cfg, e.env, db, e.call, e.now);
      EndedJobsAreFrozen(cfg, next, e.now, events[1..], j);
    }
  }

  // ----- drain -----

  predicate IsOnline(db: Db, w: WorkerId) { w in db.workers && db.workers[w].status.Online? }

  lemma RowHeldBefore(r: JobRows, next: JobRows, cause: Cause, w: WorkerId, now: Time)
    requires RowEvolves(r, next, cause, now) && !(cause.Claimant? && cause.worker == w)
    requires next.job.status.Running? && next.job.lease.Some? && next.job.lease.value.worker == w
    ensures r.job.status.Running? && r.job.lease.Some? && r.job.lease.value.worker == w
  {
  }

  lemma ClaimNeedsOnline(cfg: Config, env: Env, db: Db, worker: WorkerId, token: Token, now: Time)
    requires !IsOnline(db, worker)
    ensures After(cfg, env, db, Claiming(worker, token), now) == db
  {
  }

  lemma StepTakesNoJob(cfg: Config, env: Env, db: Db, call: Call, now: Time, w: WorkerId)
    requires Inv(db, now) && cfg.Valid() && !IsOnline(db, w)
    ensures HeldJobs(After(cfg, env, db, call, now).rows, w) <= HeldJobs(db.rows, w)
  {
    var after := After(cfg, env, db, call, now);
    if call.Claiming? && call.worker == w {
      ClaimNeedsOnline(cfg, env, db, w, call.token, now);
    } else {
      StepEvolves(cfg, env, db, call, now);
      HeldOnlyShrinks(db.rows, after.rows, call, now, w);
    }
  }

  lemma HeldOnlyShrinks(rows: map<JobId, JobRows>, rows': map<JobId, JobRows>, call: Call, now: Time, w: WorkerId)
    requires RowsEvolve(rows, rows', call, now) && !(call.Claiming? && call.worker == w)
    ensures HeldJobs(rows', w) <= HeldJobs(rows, w)
  {
    forall j <- HeldJobs(rows', w) ensures j in HeldJobs(rows, w) {
      assert j in rows;
      RowHeldBefore(rows[j], rows'[j], CauseIn(call, j), w, now);
    }
  }

  /** The worker is not ONLINE when any of these events happens. */
  ghost predicate StaysOff(cfg: Config, db: Db, events: seq<Event>, w: WorkerId)
    decreases |events|
  {
    events == []
    || (!IsOnline(db, w)
        && StaysOff(cfg, After(cfg, events[0].env, db, events[0].call, events[0].now), events[1..], w))
  }

  /** While a worker is DRAINING, or in any status but ONLINE, the jobs it holds only become fewer. */
  lemma {:induction false} OffWorkersOnlyLoseJobs(cfg: Config, db: Db, clock: Time, events: seq<Event>, w: WorkerId)
    requires Inv(db, clock) && cfg.Valid() && InOrder(clock, events) && StaysOff(cfg, db, events, w)
    ensures HeldJobs(Run(cfg, db, events).rows, w) <= HeldJobs(db.rows, w)
    decreases |events|
  {
    if events == [] {
    } else {
      var e := events[0];
      TimePasses(db, clock, e.now);
      StepTakesNoJob(cfg, e.env, db, e.call, e.now, w);
      StepKeeps(cfg, e.env, db, e.call, e.now);
      OffWorkersOnlyLoseJobs(cfg, After(cfg, e.env, db, e.call, e.now), e.now, events[1..], w);
    }
  }

  /** After complete_drain a worker holds no job until it is ONLINE again. */
  lemma DrainedHoldsNothing(cfg: Config, db: Db, clock: Time, events: seq<Event>, w: WorkerId)
    requires Reachable(cfg, db, clock) && CompleteDrain(db, w).Success?
    requires InOrder(clock, events) && StaysOff(cfg, CompleteDrain(db, w).value, events, w)
    ensures HeldJobs(Run(cfg, CompleteDrain(db, w).value, events).rows, w) == {}
  {
    ReachableInv(cfg, db, clock);
    var drained := CompleteDrain(db, w).value;
    ControlKeeps(cfg, db, DrainCompleted(w), clock);
    assert HeldJobs(db.rows, w) == {};
    OffWorkersOnlyLoseJobs(cfg, drained, clock, events, w);
  }

  lemma GreetingKeepsDrain(cfg: Config, db: Db, v: WorkerId, g: Greeting, ttl: int, now: Time, w: WorkerId)
    requires w in db.workers && db.workers[w].status.Draining?
    ensures var s := SayHello(cfg, db, v, g, ttl, now); s.Success? ==> w in s.value.workers && !s.value.workers[w].status.Online?
  {
  }

  lemma HeartbeatKeepsDrain(db: Db, v: WorkerId, active: Option<int>, healthy: bool, ttl: int, now: Time, w: WorkerId)
    requires w in db.workers && db.workers[w].status.Draining?
    ensures var s := Heartbeat(db, v, active, healthy, ttl, now);
            s.Success? ==> w in s.value.workers && !s.value.workers[w].status.Online?
  {
  }

  lemma ControlKeepsDrain(cfg: Config, db: Db, op: ControlOp, now: Time, w: WorkerId)
    requires w in db.workers && db.workers[w].status.Draining?
    ensures var s := ApplyControl(cfg, db, op, now);
            s.Success? ==> w in s.value.workers && !s.value.workers[w].status.Online?
  {
    match op
    case Greeted(v, g, ttl) => GreetingKeepsDrain(cfg, db, v, g, ttl, now, w);
    case Heartbeating(v, active, healthy, ttl) => HeartbeatKeepsDrain(db, v, active, healthy, ttl, now, w);
    case PresenceSwept(batch) => SweepKeepsDrain(db.workers, batch, now, w);
    case _ =>
  }

  lemma {:induction false} SweepKeepsDrain(workers: map<WorkerId, WorkerNode>, batch: seq<WorkerId>, now: Time, w: WorkerId)
    requires w in workers && workers[w].status.Draining?
    ensures w in ExpirePresence(workers, batch, now) && ExpirePresence(workers, batch, now)[w] == workers[w]
    decreases |batch|
  {
    if batch == [] {
    } else {
      var b := batch[0];
      var next := if b in workers && PresenceLost(workers[b], now) then workers[b := workers[b].(status := Offline)] else workers;
      SweepKeepsDrain(next, batch[1..], now, w);
    }
  }

  /** No single call takes a DRAINING worker straight back to ONLINE. */
  lemma DrainingIsNotLeftForOnline(cfg: Config, env: Env, db: Db, call: Call, now: Time, w: WorkerId)
    requires Inv(db, now) && cfg.Valid() && w in db.workers && db.workers[w].status.Draining?
    ensures !IsOnline(After(cfg, env, db, call, now), w)
  {
    StepEvolves(cfg, env, db, call, now);
    if call.Controlling? {
      ControlKeepsDrain(cfg, db, call.op, now, w);
    }
  }
}
