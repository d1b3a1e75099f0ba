/**
 * "A waiting preemption has a victim that can still stop" is not kept: recovery and a closing resolution end a
 * victim and leave its waiters waiting.  Exactly those calls do, and what follows from it.
 */
module Stranded {
  import opened Prelude
  import opened WorkerJobs
  import opened CapabilityRouter
  import opened Platform
  import opened JobSteps
  import opened WorkerControl
  import opened JobInvariants
  import opened HolderProofs
  import opened JobCalls
  import opened JobHistory
  import opened JobRuns
  import opened JobTheorems
  import opened RecoveryOutcomes
  import Commands

  predicate HasEnded(db: Db, j: JobId) { j in db.rows && Ended(db.rows[j].job.status) }

  /** A preemption that waits for a victim that has ended. */
  predicate IsStranded(db: Db, k: Pair) { Waits(db.preemptions, k) && HasEnded(db, k.victim) }

  // ----- which calls strand a waiter -----

  /** Ending a job's Command and dropping what the job itself waited for leaves its own waiters waiting. */
  lemma EndingKeepsWaiters(stored: Db, spec: JobSpec, target: Commands.CommandStatus, error: Option<Code>, k: Pair, now: Time)
    requires FinalizeCommand(stored, spec, target, now, None, error).Success?
    requires Waits(stored.preemptions, k) && k.preemptor != k.victim && k.victim in stored.rows
    ensures var after := SupersedeForPreemptor(FinalizeCommand(stored, spec, target, now, None, error).value, k.victim, now);
            && Waits(after.preemptions, k) && k.victim in after.rows
            && after.rows[k.victim].job == stored.rows[k.victim].job
  {
    FinalizeShape(stored, spec, target, now, None, error);
    var ended := FinalizeCommand(stored, spec, target, now, None, error).value;
    SupersedeForPreemptorAsks(ended, k.victim, now);
    assert Moved(ended.rows[k.victim], SupersedeForPreemptor(ended, k.victim, now).rows[k.victim], Untouched, now);
  }

  /**
   * A recovery pass strands a waiter exactly when it ends the victim, which is past its deadline or out of attempts,
   * and does not end the waiter as well.
   */
  lemma RecoveryStrands(db: Db, batch: seq<JobId>, k: Pair, now: Time)
    requires Inv(db, now) && Waits(db.preemptions, k) && !IsStranded(db, k)
    ensures k.victim in db.rows && k.preemptor in db.rows && RecoverExpired(db, batch, now).Success?
    ensures IsStranded(RecoverExpired(db, batch, now).value, k)
            <==> && k.victim in batch && Dies(db.rows[k.victim].job, now)
                 && !(k.preemptor in batch && Dies(db.rows[k.preemptor].job, now))
  {
    PreemptionOf(db, k, now);
    RecoveryEnds(db, batch, k.victim, now);
    RecoveryDrops(db, batch, k, now);
  }

  /** Resolving a victim's intervention strands its waiters exactly when it closes the job. */
  lemma ResolutionStrands(db: Db, k: Pair, i: nat, requeue: bool, confirmed: bool, now: Time)
    requires Waits(db.preemptions, k) && k.preemptor != k.victim
    requires ResolveIntervention(db, k.victim, i, requeue, confirmed, now).Success?
    ensures IsStranded(ResolveIntervention(db, k.victim, i, requeue, confirmed, now).value, k) <==> !requeue
  {
    var v := k.victim;
    var next := ResolvedRows(db.rows[v], i, requeue, confirmed, now).value;
    var stored := db.(rows := db.rows[v := next]);
    if requeue {
      ShiftShape(stored, next.job.spec, Commands.CommandStatus.WaitingIntervention, Commands.CommandStatus.WaitingExecution, now);
    } else {
      EndingKeepsWaiters(stored, next.job.spec, Commands.CommandStatus.FailedFinal, next.job.error, k, now);
    }
  }

  lemma StoppedSatisfies(db: Db, j: JobId, r: JobRows, how: Quiescence, now: Time, k: Pair)
    requires k.victim == j
    ensures !Waits(Stopped(db, j, r, how, now).preemptions, k)
  {
    if k in db.preemptions && Waits(db.preemptions, k) {
      assert k in WaitingForVictim(db.preemptions, j);
    }
  }

  /** A holder that stops satisfies everyone who waited for it. */
  lemma HolderStopsWaiting(cfg: Config, env: Env, db: Db, call: Call, now: Time, k: Pair)
    requires call.Stopping() && call.job == k.victim && Apply(cfg, env, db, call, now).Success?
    ensures !Waits(Apply(cfg, env, db, call, now).value.preemptions, k)
  {
    var j := call.job;
    var r := db.rows[j];
    match call
    case Acknowledging(_, w, t, g, phase) =>
      var a := AcknowledgedRows(cfg, r, w, t, g, phase, now).value;
      var ended := FinalizeCommand(db.(rows := db.rows[j := a.0]), r.job.spec, Commands.CommandStatus.Cancelled, now, None, Some(a.1)).value;
      StoppedSatisfies(ended, j, r, CancelAcknowledged, now, k);
    case Completing(_, w, t, d) =>
      var next := AttemptOver(r, r.job.Completed(d), AttemptSucceeded, now, None).value;
      var ended := FinalizeCommand(db.(rows := db.rows[j := next]), r.job.spec, Commands.CommandStatus.Succeeded, now, Some(d), None).value;
      StoppedSatisfies(ended, j, r, VictimSucceeded, now, k);
    case Failing(_, w, t, code, retryable, ambiguous) =>
      var next, moved := FailShape(cfg, db, j, w, t, code, retryable, ambiguous, now);
      StoppedSatisfies(moved, j, r, VictimFailed, now, k);
    case Intervening(_, w, t, kind, detail) =>
      var next := IntervenedRows(r, w, kind, detail, now).value;
      var moved := ShiftCommand(db.(rows := db.rows[j := next]), r.job.spec, Commands.CommandStatus.WaitingExecution,
                                Commands.CommandStatus.WaitingIntervention, now).value;
      StoppedSatisfies(moved, j, r, InterventionRequested, now, k);
  }

  /** A holder's own call strands nobody: stopping satisfies its waiters, renewing or saving does not end it. */
  lemma HolderStrandsNobody(cfg: Config, env: Env, db: Db, call: Call, now: Time, k: Pair)
    requires call.Held() && call.job == k.victim && Apply(cfg, env, db, call, now).Success?
    ensures !IsStranded(Apply(cfg, env, db, call, now).value, k)
  {
    if call.Stopping() {
      HolderStopsWaiting(cfg, env, db, call, now, k);
    }
  }

  /** The calls that strand a waiter, if they are accepted. */
  predicate Strands(db: Db, call: Call, k: Pair, now: Time)
    requires k.victim in db.rows && k.preemptor in db.rows
  {
    match call
    case Recovering(batch) =>
      && k.victim in batch && Dies(db.rows[k.victim].job, now)
      && !(k.preemptor in batch && Dies(db.rows[k.preemptor].job, now))
    case Resolving(j, _, requeue, _) => j == k.victim && !requeue
    case _ => false
  }

  /** Nothing else does: a call strands a waiter if and only if it is accepted and one of these. */
  lemma StrandedExactlyBy(cfg: Config, env: Env, db: Db, call: Call, now: Time, k: Pair)
    requires Inv(db, now) && cfg.Valid() && Waits(db.preemptions, k) && !IsStranded(db, k)
    ensures k.victim in db.rows && k.preemptor in db.rows
    ensures IsStranded(After(cfg, env, db, call, now), k) <==> Apply(cfg, env, db, call, now).Success? && Strands(db, call, k, now)
  {
    PreemptionOf(db, k, now);
    if Apply(cfg, env, db, call, now).Success? {
      if call.Recovering? {
        RecoveryStrands(db, call.batch, k, now);
      } else if call.Resolving? && call.job == k.victim {
        ResolutionStrands(db, k, call.intervention, call.requeue, call.confirmed, now);
      } else {
        OthersStrandNobody(cfg, env, db, call, now, k);
      }
    }
  }

  lemma OthersStrandNobody(cfg: Config, env: Env, db: Db, call: Call, now: Time, k: Pair)
    requires Inv(db, now) && cfg.Valid() && Waits(db.preemptions, k) && !IsStranded(db, k) && k.victim in db.rows
    requires Apply(cfg, env, db, call, now).Success? && !call.Recovering? && !(call.Resolving? && call.job == k.victim)
    ensures !IsStranded(After(cfg, env, db, call, now), k)
  {
    StepMovesRow(cfg, env, db, call, now, k.victim);
    if call.Held() && call.job == k.victim {
      HolderStrandsNobody(cfg, env, db, call, now, k);
    }
  }

  // ----- what a stranded waiter does to its account -----

  lemma FreshCannotEnd(r: JobRows, next: JobRows, cause: Cause, now: Time)
    requires RowEvolves(r, next, cause, now) && NeverStarted(r.job) && !Recoverable(r.job, now)
    ensures next.job == r.job || next.job.attemptCount == 1
    ensures next.job.spec == r.job.spec
  {
  }

  lemma PreemptionOf(db: Db, k: Pair, now: Time)
    requires Inv(db, now) && k in db.preemptions
    ensures PreemptionOk(db.rows, k, db.preemptions[k], now) && RowsOk(db.rows[k.preemptor], now)
  {
    assert PreemptionOk(db.rows, k, db.preemptions[k], now);
    RowOf(db, k.preemptor, now);
  }

  lemma StepMovesPreemption(cfg: Config, env: Env, db: Db, call: Call, now: Time, k: Pair)
    requires Inv(db, now) && cfg.Valid() && k in db.preemptions
    ensures var after := After(cfg, env, db, call, now);
            && k in after.preemptions
            && PreemptionMoved(db.preemptions[k], after.preemptions[k], ProvesStop(db.rows, call, k.victim, now))
  {
    StepEvolves(cfg, env, db, call, now);
  }

  lemma StrandedKept(p: Preemption, p': Preemption, waiter: JobRows, waiter': JobRows, proven: bool,
                     cause: Cause, now: Time)
    requires p.status.WaitingForQuiescence? && PreemptionMoved(p, p', proven) && !proven
    requires RowEvolves(waiter, waiter', cause, now) && RowsOk(waiter, now) && NeverStarted(waiter.job)
    requires waiter.job.spec.deadline.None?
    requires p'.status.PreemptorEnded? ==> CanNoLongerStart(waiter'.job, now)
    ensures p'.status.WaitingForQuiescence? && waiter'.job.spec == waiter.job.spec
  {
    FreshCannotEnd(waiter, waiter', cause, now);
  }

  lemma StrandedAfter(db: Db, after: Db, call: Call, now: Time, k: Pair)
    requires IsStranded(db, k) && k in after.preemptions
    requires k.preemptor in db.rows && k.preemptor in after.rows && k.victim in after.rows
    requires db.rows[k.preemptor].job.spec.deadline.None? && RowsOk(db.rows[k.preemptor], now)
    requires PreemptionOk(db.rows, k, db.preemptions[k], now) && PreemptionOk(after.rows, k, after.preemptions[k], now)
    requires PreemptionMoved(db.preemptions[k], after.preemptions[k], ProvesStop(db.rows, call, k.victim, now))
    requires RowEvolves(db.rows[k.victim], after.rows[k.victim], CauseIn(call, k.victim), now)
    requires RowEvolves(db.rows[k.preemptor], after.rows[k.preemptor], CauseIn(call, k.preemptor), now)
    ensures IsStranded(after, k) && after.preemptions[k].account == db.preemptions[k].account
    ensures after.rows[k.preemptor].job.spec.deadline.None?
  {
    EndedRowIsFrozen(db.rows[k.victim], after.rows[k.victim], CauseIn(call, k.victim), now);
    StrandedKept(db.preemptions[k], after.preemptions[k], db.rows[k.preemptor], after.rows[k.preemptor],
                 ProvesStop(db.rows, call, k.victim, now), CauseIn(call, k.preemptor), now);
  }

  lemma StepKeepsStranded(cfg: Config, env: Env, db: Db, call: Call, now: Time, k: Pair)
    requires Inv(db, now) && cfg.Valid() && IsStranded(db, k)
    requires k.preemptor in db.rows && db.rows[k.preemptor].job.spec.deadline.None?
    ensures var after := After(cfg, env, db, call, now);
            && IsStranded(after, k) && after.preemptions[k].account == db.preemptions[k].account
            && k.preemptor in after.rows && after.rows[k.preemptor].job.spec.deadline.None?
  {
    var after := After(cfg, env, db, call, now);
    StepKeeps(cfg, env, db, call, now);
    StepMovesPreemption(cfg, env, db, call, now, k);
    StepMovesRow(cfg, env, db, call, now, k.victim);
    StepMovesRow(cfg, env, db, call, now, k.preemptor);
    PreemptionOf(db, k, now);
    PreemptionOf(after, k, now);
    StrandedAfter(db, after, call, now, k);
  }

  /**
   * A waiter stranded without a deadline stays so in every continuation of the run, and no browser-profile job
   * of its account ever runs again.
   */
  lemma {:induction false} StrandedForever(cfg: Config, db: Db, clock: Time, events: seq<Event>, k: Pair)
    requires Inv(db, clock) && cfg.Valid() && InOrder(clock, events) && IsStranded(db, k)
    requires k.preemptor in db.rows && db.rows[k.preemptor].job.spec.deadline.None?
    ensures var end := Run(cfg, db, events);
            IsStranded(end, k) && forall j <- end.rows :: !RunsBrowser(end.rows[j].job, db.preemptions[k].account)
    decreases |events|
  {
    if events == [] {
      assert OneVictimPerAccount(db.rows, db.preemptions);
    } else {
      var e := events[0];
      TimePasses(db, clock, e.now);
      StepKeepsStranded(cfg, e.env, db, e.call, e.now, k);
      StepKeeps(cfg, e.env, db, e.call, e.now);
      StrandedForever(cfg, After(cfg, e.env, db, e.call, e.now), e.now, events[1..], k);
    }
  }

  /** A deadline is the way out: once it has passed, recovering the waiter ends it and it waits no more. */
  lemma DeadlineReleases(db: Db, batch: seq<JobId>, k: Pair, now: Time)
    requires Inv(db, now) && Waits(db.preemptions, k) && k.preemptor in batch
    ensures k.preemptor in db.rows && RecoverExpired(db, batch, now).Success?
    ensures var after := RecoverExpired(db, batch, now).value;
            && k.preemptor in after.rows
            && (!Waits(after.preemptions, k) <==> db.rows[k.preemptor].job.spec.PastDeadline(now))
            && (Ended(after.rows[k.preemptor].job.status) <==> db.rows[k.preemptor].job.spec.PastDeadline(now))
  {
    PreemptionOf(db, k, now);
    RecoveryDrops(db, batch, k, now);
    RecoveryEnds(db, batch, k.preemptor, now);
  }
}
