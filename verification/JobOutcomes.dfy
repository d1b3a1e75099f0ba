/** What an accepted call achieves, beyond what every call keeps. */
module JobOutcomes {
  import opened Prelude
  import opened WorkerJobs
  import opened Platform
  import opened JobSteps
  import opened JobInvariants
  import opened JobProofs
  import opened HolderProofs
  import opened HolderMeanings
  import opened EnqueueMeanings
  import opened JobCalls
  import opened JobHistory
  import opened JobRuns
  import opened JobTheorems
  import opened Stranded
  import ClaimProofs
  import Commands

  // ----- giving up a lease -----

  /** What each way of stopping does to the tables, spelled out in `HolderMeanings`. */
  predicate StoppedBy(cfg: Config, db: Db, after: Db, call: Call, now: Time)
    requires call.Stopping()
  {
    match call
    case Completing(j, _, _, d) => CompletedWith(db, after, j, d, now)
    case Failing(j, w, _, code, retryable, ambiguous) =>
      FailedWith(db, after, j, w, Reported(code), retryable, ambiguous, now + cfg.retryDelay, now)
    case Intervening(j, w, _, kind, detail) => InterruptedWith(db, after, j, w, kind, detail, now)
    case Acknowledging(j, _, _, _, phase) => CancelledWith(db, after, j, phase, now)
  }

  lemma IdleHoldsNothing(db: Db, clock: Time, j: JobId)
    requires Inv(db, clock) && j in db.rows && !db.rows[j].job.status.Running?
    ensures forall a :: !HoldsAccount(db, j, a, clock)
  {
    forall a ensures !HoldsAccount(db, j, a, clock) {
      LiveOwnsAccount(db, clock, j, a);
    }
  }

  lemma StopMeans(cfg: Config, env: Env, db: Db, call: Call, now: Time)
    requires Inv(db, now) && call.Stopping() && Apply(cfg, env, db, call, now).Success?
    ensures StoppedBy(cfg, db, Apply(cfg, env, db, call, now).value, call, now)
  {
    match call
    case Completing(j, w, t, d) => CompleteMeans(db, j, w, t, d, now);
    case Failing(j, w, t, code, retryable, ambiguous) => FailMeans(cfg, db, j, w, t, code, retryable, ambiguous, now);
    case Intervening(j, w, t, kind, detail) => RequestInterventionMeans(db, j, w, t, kind, detail, now);
    case Acknowledging(j, w, t, g, phase) => AcknowledgeMeans(cfg, env, db, j, w, t, g, phase, now);
  }

  lemma StoppedIsIdle(cfg: Config, db: Db, after: Db, call: Call, now: Time)
    requires call.Stopping() && StoppedBy(cfg, db, after, call, now)
    ensures call.job in after.rows && !after.rows[call.job].job.status.Running?
    ensures forall k :: Waits(after.preemptions, k) ==> k.victim != call.job
  {
  }

  /**
   * An accepted completion, failure, intervention or acknowledgement: job, attempt, request, intervention, Command and
   * result event are exactly what the call makes of them, nobody waits for the job any more, and its account is free.
   */
  lemma StopOutcome(cfg: Config, env: Env, db: Db, call: Call, now: Time)
    requires Inv(db, now) && cfg.Valid() && call.Stopping() && Apply(cfg, env, db, call, now).Success?
    ensures var after := Apply(cfg, env, db, call, now).value;
            && StoppedBy(cfg, db, after, call, now)
            && (forall k :: Waits(after.preemptions, k) ==> k.victim != call.job)
            && (forall a :: !HoldsAccount(after, call.job, a, now))
  {
    var after := Apply(cfg, env, db, call, now).value;
    StopMeans(cfg, env, db, call, now);
    StoppedIsIdle(cfg, db, after, call, now);
    StepKeeps(cfg, env, db, call, now);
    IdleHoldsNothing(after, now, call.job);
  }

  /**
   * The three ends of a reported failure, each exactly when: an operator must decide, the job is retried, or it is over;
   * the open intervention, the Command and its one result event follow, and a doubtful outcome is remembered.
   */
  lemma FailureMeans(cfg: Config, db: Db, j: JobId, w: WorkerId, t: Token, code: string, retryable: bool, ambiguous: bool,
                     now: Time)
    requires Inv(db, now) && Fail(cfg, db, j, w, t, code, retryable, ambiguous, now).Success?
    ensures var after := Fail(cfg, db, j, w, t, code, retryable, ambiguous, now).value;
            && j in db.rows && j in after.rows
            && var job, next := db.rows[j].job, after.rows[j].job;
            && (next.status.WaitingIntervention? <==> ambiguous || (retryable && job.retrySafety.ReconciliationRequired?))
            && (next.status.FailedRetryable? <==>
                retryable && !ambiguous && job.retrySafety.SafeToRetry? && job.attemptCount < job.spec.maxAttempts)
            && (next.status.FailedFinal? <==> !next.status.WaitingIntervention? && !next.status.FailedRetryable?)
            && (next.retrySafety.ReconciliationRequired? <==> ambiguous || job.retrySafety.ReconciliationRequired?)
            && (next.status.FailedRetryable? ==> next.scheduledAt == now + cfg.retryDelay && !job.spec.PastDeadline(next.scheduledAt))
            && (next.status.WaitingIntervention? <==>
                exists i :: 0 <= i < |after.rows[j].interventions| && after.rows[j].interventions[i].status.Open?)
            && CommandFollowed(after, next)
  {
    FailKeeps(cfg, db, j, w, t, code, retryable, ambiguous, now);
    FailMeans(cfg, db, j, w, t, code, retryable, ambiguous, now);
    var after := Fail(cfg, db, j, w, t, code, retryable, ambiguous, now).value;
    LockstepLocal(after, now, j);
    if after.rows[j].job.spec.command.Some? {
      LockstepCommand(after, now, j);
    }
  }

  /** The job's Command waits for the operator, waits for the next attempt, or failed with one result event. */
  predicate CommandFollowed(db: Db, job: Job) {
    job.spec.command.Some? ==>
      var c := job.spec.command.value;
      && c in db.commands
      && (db.commands[c].status.WaitingIntervention? <==> job.status.WaitingIntervention?)
      && (db.commands[c].status.WaitingExecution? <==> job.status.FailedRetryable?)
      && (db.commands[c].status.FailedFinal? <==> job.status.FailedFinal?)
      && |Sent(db.results, c)| == (if job.status.FailedFinal? then 1 else 0)
  }

  // ----- claim -----

  /** Why a listed candidate is passed over. */
  predicate PassedOver(cfg: Config, env: Env, db: Db, c: JobId, worker: WorkerId, w: WorkerNode, now: Time)
    requires c in db.rows
  {
    || !PolicyAllowsClaim(cfg, env, db, db.rows[c].job.spec, worker)
    || !BrowserGate(env, db, c, worker, w, now)
    || Acquired(cfg, db, c, now).None?
  }

  lemma ClaimOneTakes(cfg: Config, env: Env, db: Db, c: JobId, worker: WorkerId, w: WorkerNode, now: Time, token: Token)
    requires Inv(db, now) && cfg.Valid() && c in db.rows && Available(db.rows[c].job, env, worker, w, now)
    ensures match ClaimOne(cfg, env, db, c, worker, w, now, token)
            case Skipped(next) => next == db && PassedOver(cfg, env, db, c, worker, w, now)
            case Taken(_) => !PassedOver(cfg, env, db, c, worker, w, now)
            case Aborted(_) => TokenUsed(db.rows, token)
  {
    ClaimProofs.ClaimOneKeeps(cfg, env, db, c, worker, w, now, token);
    if !PassedOver(cfg, env, db, c, worker, w, now) {
      RowOf(db, c, now);
      ClaimProofs.GateGranted(env, db, c, worker, w, now);
      ClaimProofs.TakeKeeps(cfg, env, db, c, worker, w, now, token);
    }
  }

  /** The claim loop takes the first candidate that nothing speaks against, or finds that there is none. */
  lemma {:induction false} ClaimTakesFirst(cfg: Config, env: Env, db: Db, list: seq<JobId>, worker: WorkerId, w: WorkerNode,
                                           now: Time, token: Token)
    requires Inv(db, now) && cfg.Valid() && !TokenUsed(db.rows, token)
    requires forall j :: j in list ==> j in db.rows && Available(db.rows[j].job, env, worker, w, now)
    ensures match ClaimLoop(cfg, env, db, list, worker, w, now, token)
            case Failure(_) => false
            case Success(v) =>
              match v.1
              case None => v.0 == db && forall k :: 0 <= k < |list| ==> PassedOver(cfg, env, db, list[k], worker, w, now)
              case Some(c) =>
                c in db.rows && ClaimOne(cfg, env, db, c, worker, w, now, token) == Taken(v.0) &&
                exists i :: 0 <= i < |list| && list[i] == c && !PassedOver(cfg, env, db, c, worker, w, now)
                            && forall k :: 0 <= k < i ==> PassedOver(cfg, env, db, list[k], worker, w, now)
    decreases |list|
  {
    if list == [] {
    } else {
      assert list[0] in list;
      ClaimOneTakes(cfg, env, db, list[0], worker, w, now, token);
      if ClaimOne(cfg, env, db, list[0], worker, w, now, token).Skipped? {
        assert forall j :: j in list[1..] ==> j in list;
        ClaimTakesFirst(cfg, env, db, list[1..], worker, w, now, token);
        var v := ClaimLoop(cfg, env, db, list[1..], worker, w, now, token).value;
        if v.1.Some? {
          var i :| 0 <= i < |list[1..]| && list[1..][i] == v.1.value
                   && forall k :: 0 <= k < i ==> PassedOver(cfg, env, db, list[1..][k], worker, w, now);
          ShiftedFirst(cfg, env, db, list, i, worker, w, now);
          assert list[i + 1] == v.1.value;
        } else {
          forall k | 0 <= k < |list| ensures PassedOver(cfg, env, db, list[k], worker, w, now) {
            assert k > 0 ==> list[1..][k - 1] == list[k];
          }
        }
      }
    }
  }

  lemma ShiftedFirst(cfg: Config, env: Env, db: Db, list: seq<JobId>, i: nat, worker: WorkerId, w: WorkerNode, now: Time)
    requires list != [] && i < |list[1..]| && forall c <- list :: c in db.rows
    requires PassedOver(cfg, env, db, list[0], worker, w, now)
    requires forall k :: 0 <= k < i ==> list[1..][k] in db.rows && PassedOver(cfg, env, db, list[1..][k], worker, w, now)
    ensures forall k :: 0 <= k < i + 1 ==> PassedOver(cfg, env, db, list[k], worker, w, now)
  {
    forall k | 0 <= k < i + 1 ensures PassedOver(cfg, env, db, list[k], worker, w, now) {
      assert k > 0 ==> list[1..][k - 1] == list[k];
    }
  }

  /** The holder may act for the job exactly until `expires`, and until then also for its account. */
  ghost predicate MayActUntil(db: Db, j: JobId, worker: WorkerId, token: Token, now: Time, expires: Time) {
    && j in db.rows
    && (forall t :: now <= t ==> (db.rows[j].job.OwnsLease(worker, token, t) <==> t < expires))
    && (forall t :: now <= t < expires ==> CoordinationHeld(db.leases, j, db.rows[j].job, t))
  }

  lemma RenewGrants(cfg: Config, db: Db, j: JobId, worker: WorkerId, token: Token, now: Time)
    requires Renew(cfg, db, j, worker, token, now).Success?
    ensures MayActUntil(Renew(cfg, db, j, worker, token, now).value, j, worker, token, now, now + cfg.leaseDuration)
  {
  }

  lemma AskingKeepsGrant(db: Db, after: Db, j: JobId, worker: WorkerId, token: Token, now: Time, expires: Time)
    requires AsksOnly(db, after, now) && MayActUntil(db, j, worker, token, now, expires)
    ensures MayActUntil(after, j, worker, token, now, expires)
  {
    assert Moved(db.rows[j], after.rows[j], Untouched, now);
  }

  lemma WonLeaseGrants(cfg: Config, db: Db, c: JobId, next: JobRows, worker: WorkerId, token: Token, now: Time)
    requires c in db.rows && Acquired(cfg, db, c, now).Some? && next.job.spec == db.rows[c].job.spec
    requires next.job.status.Running? && next.job.lease == Some(Lease(worker, token, now + cfg.leaseDuration))
    requires next.job.generation == FenceIn(Acquired(cfg, db, c, now).value, next.job.spec)
    ensures MayActUntil(db.(leases := Acquired(cfg, db, c, now).value, rows := db.rows[c := next]), c, worker, token, now,
                        now + cfg.leaseDuration)
  {
  }

  /** A taken job belongs to the claiming worker under the new token for one lease duration. */
  lemma TakeGrants(cfg: Config, env: Env, db: Db, c: JobId, worker: WorkerId, w: WorkerNode, now: Time, token: Token)
    requires Inv(db, now) && cfg.Valid() && c in db.rows && Available(db.rows[c].job, env, worker, w, now)
    requires Acquired(cfg, db, c, now).Some?
    requires Take(cfg, env, db, c, Acquired(cfg, db, c, now).value, worker, now, token).Taken?
    ensures MayActUntil(Take(cfg, env, db, c, Acquired(cfg, db, c, now).value, worker, now, token).db, c, worker, token, now,
                        now + cfg.leaseDuration)
  {
    RowOf(db, c, now);
    ClaimProofs.FenceIsWon(cfg, db, c, now);
    var leases := Acquired(cfg, db, c, now).value;
    var fence := FenceIn(leases, db.rows[c].job.spec);
    ClaimProofs.TakenRowsOk(cfg, env, db.rows[c], fence, worker, w, now, token);
    var next := TakenRows(cfg, db.rows[c], fence, worker, now, token).value;
    WonLeaseGrants(cfg, db, c, next, worker, token, now);
    var mid := db.(leases := leases, rows := db.rows[c := next]);
    RequestCancelForWaitingAsks(cfg, env, mid, c, now);
    AskingKeepsGrant(mid, RequestCancelForWaiting(cfg, env, mid, c, now), c, worker, token, now, now + cfg.leaseDuration);
  }

  // ----- enqueue -----

  /** The victim's holder has a pending request for its current attempt, and the waiting row points to it. */
  predicate AskedToStop(db: Db, k: Pair) {
    && k.victim in db.rows && k in db.preemptions
    && var r := db.rows[k.victim];
    && PendingCancel(r.cancels).Some?
    && var request := r.cancels[PendingCancel(r.cancels).value];
    && request.target == r.job.attemptCount && db.preemptions[k].cancelRequest == Some(request.generation)
  }

  lemma PlacedIsPending(r: JobRows, reason: Code, now: Time)
    requires RowsOk(r, now) && r.job.status.Running?
    ensures var (next, g) := PlaceCancel(r, r.job.attemptCount, reason, now);
            && next.job == r.job && PendingCancel(next.cancels).Some?
            && var request := next.cancels[PendingCancel(next.cancels).value];
            && request.generation == g && request.target == r.job.attemptCount
  {
    PendingCancelIsLast(r);
  }

  lemma AskingAsks(cfg: Config, env: Env, db: Db, k: Pair, now: Time)
    requires k.victim in db.rows && RowsOk(db.rows[k.victim], now) && Waits(db.preemptions, k)
    ensures var after := AskToStop(cfg, env, db, k.victim, {k}, now);
            && Waits(after.preemptions, k)
            && (CancelTarget(cfg, env, db, db.rows[k.victim], now).Success? ==> AskedToStop(after, k))
  {
    if CancelTarget(cfg, env, db, db.rows[k.victim], now).Success? {
      PlacedIsPending(db.rows[k.victim], HighPriorityPreemption, now);
    }
  }

  lemma ArbitrationMarks(cfg: Config, env: Env, db: Db, p: JobId, account: AccountId, v: JobId, now: Time)
    requires p in db.rows && v in db.rows && v != p && RowsOk(db.rows[v], now) && Pair(p, v) !in db.preemptions
    requires RunsBrowser(db.rows[v].job, account) && db.rows[v].job.spec.priority < db.rows[p].job.spec.priority
    ensures var after := ArbitrateOne(cfg, env, db, p, account, v, now);
            && Waits(after.preemptions, Pair(p, v))
            && (CancelTarget(cfg, env, db, db.rows[v], now).Success? ==> AskedToStop(after, Pair(p, v)))
  {
    var k := Pair(p, v);
    AskingAsks(cfg, env, Marked(db, k, account), k, now);
  }

  lemma OnlyVictim(db: Db, account: AccountId, v: JobId, now: Time)
    requires Inv(db, now) && v in RunningBrowser(db.rows, account)
    ensures RunningBrowser(db.rows, account) == {v}
  {
    assert RunsBrowser(db.rows[v].job, account);
    forall i <- RunningBrowser(db.rows, account) ensures i == v {
      assert RunsBrowser(db.rows[i].job, account);
    }
  }

  lemma ArbitrateSingle(cfg: Config, env: Env, db: Db, p: JobId, account: AccountId, v: JobId, now: Time)
    requires p in db.rows
    ensures Arbitrate(cfg, env, db, p, account, {v}, now) == ArbitrateOne(cfg, env, db, p, account, v, now)
  {
    assert Least({v}) == v;
    assert {v} - {v} == {};
  }

  /**
   * A high-priority browser job makes the account's running browser job its victim: it waits for it, and asks its
   * holder to stop whenever that holder can be asked at all.
   */
  lemma EnqueuePreempts(cfg: Config, env: Env, db: Db, j: JobId, q: EnqueueRequest, v: JobId, now: Time)
    requires Inv(db, now) && AddJob(env, db, j, q, now).Success? && Enqueue(cfg, env, db, j, q, now).Success?
    requires var added := AddJob(env, db, j, q, now).value;
             && j in added.rows
             && var spec := added.rows[j].job.spec;
             && spec.command.Some? && spec.priority == HIGH_PRIORITY && BrowserJob(spec)
             && v in RunningBrowser(added.rows, spec.account.value) && added.rows[v].job.spec.priority < HIGH_PRIORITY
    ensures var added, after := AddJob(env, db, j, q, now).value, Enqueue(cfg, env, db, j, q, now).value;
            && Waits(after.preemptions, Pair(j, v))
            && (CancelTarget(cfg, env, added, added.rows[v], now).Success? ==> AskedToStop(after, Pair(j, v)))
  {
    var added := AddJob(env, db, j, q, now).value;
    ClaimProofs.AddJobKeeps(env, db, j, q, now);
    var account := added.rows[j].job.spec.account.value;
    OnlyVictim(added, account, v, now);
    assert RunsBrowser(added.rows[v].job, account);
    RowOf(added, v, now);
    NoPreemptionYet(db, added, j, v, now);
    ArbitrateSingle(cfg, env, added, j, account, v, now);
    ArbitrationMarks(cfg, env, added, j, account, v, now);
  }

  /**
   * In the same words without the steps: a high-priority browser job with a Command waits for the running browser job of
   * its account if that is less urgent, and that one's holder is asked to stop whenever it can be.
   */
  lemma UrgentJobPreempts(cfg: Config, env: Env, db: Db, j: JobId, q: EnqueueRequest, v: JobId, now: Time)
    requires Inv(db, now) && Enqueue(cfg, env, db, j, q, now).Success? && q.command.Some?
    requires Preempted(db, Enqueue(cfg, env, db, j, q, now).value, v, j) && db.rows[v].job.spec.priority < HIGH_PRIORITY
    ensures var after := Enqueue(cfg, env, db, j, q, now).value;
            Waits(after.preemptions, Pair(j, v)) && (CanBeAsked(cfg, env, after, v, now) ==> AskedToStop(after, Pair(j, v)))
  {
    AddJobMeans(env, db, j, q, now);
    var added, after := AddJob(env, db, j, q, now).value, Enqueue(cfg, env, db, j, q, now).value;
    PrioritizeTouches(cfg, env, added, j, now);
    VictimIsFound(db, added, after, j, v);
    ClaimProofs.AddJobKeeps(env, db, j, q, now);
    VictimCanBeAsked(cfg, env, added, after, v, now);
    EnqueuePreempts(cfg, env, db, j, q, v, now);
  }

  lemma VictimIsFound(db: Db, added: Db, after: Db, j: JobId, v: JobId)
    requires j !in db.rows && j in added.rows && added.rows == db.rows[j := added.rows[j]]
    requires Preempted(db, after, v, j) && after.rows[j].job == added.rows[j].job
    ensures var spec := added.rows[j].job.spec;
            && spec.priority == HIGH_PRIORITY && BrowserJob(spec) && v in added.rows && added.rows[v] == db.rows[v]
            && v in RunningBrowser(added.rows, spec.account.value)
  {
  }

  lemma VictimCanBeAsked(cfg: Config, env: Env, added: Db, after: Db, v: JobId, now: Time)
    requires Inv(added, now) && v in added.rows && v in after.rows && after.rows[v].job == added.rows[v].job
    requires after.commands == added.commands
    ensures CancelTarget(cfg, env, added, added.rows[v], now).Success? <==> CanBeAsked(cfg, env, after, v, now)
  {
    CancelTargetMeans(cfg, env, added, v, now);
  }

  lemma NoPreemptionYet(db: Db, added: Db, j: JobId, v: JobId, now: Time)
    requires Inv(db, now) && j !in db.rows && added.preemptions == db.preemptions
    ensures Pair(j, v) !in added.preemptions
  {
    assert Pair(j, v) in db.preemptions ==> PreemptionOk(db.rows, Pair(j, v), db.preemptions[Pair(j, v)], now);
  }
}
