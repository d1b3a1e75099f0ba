/**
 * A run of eight calls that strands a waiter: the victim's deadline passes while a high-priority job waits.  After
 * its first four calls the victim's report of a failure is refused.
 */
module StrandedRun {
  import opened Prelude
  import opened WorkerJobs
  import opened CapabilityRouter
  import opened Platform
  import opened JobSteps
  import opened WorkerControl
  import opened JobInvariants
  import opened JobCalls
  import opened JobRuns
  import opened JobTheorems
  import opened HolderProofs
  import opened Stranded
  import opened RecoveryOutcomes
  import Commands

  const CAPABILITY := "threads.browser.feed.browse"
  const COMMAND := Plain("publish")
  const ENV := Env(
                 map[7 := Account(Active, HybridMode)],
                 map[7 := 0],
                 map[COMMAND := StoredRoute(WorkerJobTarget, Some(Worker), CAPABILITY, 1, 7, Read)],
                 map[])
  const GREETING := Greeting(1, 1, {(CAPABILITY, 1)}, None, None, None, true)
  const LOW := EnqueueRequest(None, Some(7), None, None, CAPABILITY, 1, Read, 0, false, None, Some(50), 2, SafeToRetry)
  const HIGH := EnqueueRequest(Some(COMMAND), None, None, None, CAPABILITY, 1, Read, HIGH_PRIORITY, false, None, None, 1, SafeToRetry)
  const TERMS := Commands.CommandSpec(7, "threads.publish", HIGH_PRIORITY, None)

  const LOW_SPEC := JobSpec(None, Some(7), Some(0), true, CAPABILITY, 1, Read, 0, false, Some(50), 2, 0)
  const LOW_JOB := Job(LOW_SPEC, JobStatus.Queued, 0, 0, SafeToRetry, false, None, None, None, None, None)
  const LOW_RUNNING := LOW_JOB.(status := JobStatus.Running, attemptCount := 1, lease := Some(Lease(0, 1, 120 * SECOND)))
  const LOW_ROWS := JobRows(LOW_RUNNING, [Attempt(1, 0, 1, AttemptRunning, None, None)], [], [])
  const HIGH_SPEC := JobSpec(Some(COMMAND), Some(7), Some(0), true, CAPABILITY, 1, Read, HIGH_PRIORITY, false, None, 1, 1)
  const HIGH_ROWS := JobRows(Job(HIGH_SPEC, JobStatus.Queued, 1, 0, SafeToRetry, false, None, None, None, None, None), [], [], [])

  const REGISTERED := WorkerNode(Registering, None, None, 1, 1, 0, None, {})
  const ONLINE := WorkerNode(Online, Some(1), Some(1), 1, 1, 0, Some(1000), {(CAPABILITY, 1)})
  const DB1 := EMPTY_DB.(workers := map[0 := REGISTERED])
  const DB2 := EMPTY_DB.(workers := map[0 := ONLINE])
  const DB3 := DB2.(rows := map[0 := JobRows(LOW_JOB, [], [], [])])
  const DB4 := DB2.(rows := map[0 := LOW_ROWS])
  const RECEIVED := Commands.ReceivedCommand(TERMS)
  const VALIDATED := RECEIVED.(status := Commands.CommandStatus.Validated, validatedAt := Some(1))
  const WAITING := VALIDATED.(status := Commands.CommandStatus.WaitingExecution)
  const DB5 := DB4.(commands := map[COMMAND := RECEIVED])
  const DB6 := DB4.(commands := map[COMMAND := VALIDATED])
  const DB7 := DB4.(
    commands := map[COMMAND := WAITING],
    rows := map[0 := LOW_ROWS, 1 := HIGH_ROWS],
    preemptions := map[Pair(1, 0) := Preemption(7, WaitingForQuiescence, None)])

  lemma WorkerJoins()
    ensures Enrol(EMPTY_DB, 0, 1, 1) == Success(DB1)
    ensures SayHello(DEFAULT_CONFIG, DB1, 0, GREETING, 1000, 0) == Success(DB2)
  {
    assert forall c <- GREETING.capabilities :: !Blocked(DEFAULT_CONFIG, c.0);
    assert DB1.workers[0 := ONLINE] == DB2.workers;
  }

  lemma CapabilityIsNamed()
    ensures !Blank(CAPABILITY)
  {
    assert CAPABILITY[0] in CAPABILITY;
  }

  /** What is built does not depend on which capability is named. */
  lemma JobIsBuilt(env: Env, db: Db, q: EnqueueRequest, now: Time, job: Job)
    requires !Blank(q.capability) && CommandReady(db, q, now).Pass? && env.assignments == map[7 := 0]
    requires q.affinity.None? && q.assignee.None? && q.scheduledAt.None? && job.Storable()
    requires q.command.Some? ==> q.account.None? && db.commands[q.command.value].spec == TERMS && q.deadline.None?
    requires q.command.None? ==> q.account == Some(7)
    requires job == Job(
                      JobSpec(q.command, Some(7), Some(0), true, q.capability, q.version, q.operation, q.priority,
                              q.preemptible, q.deadline, q.maxAttempts, now),
                      JobStatus.Queued, now, 0, q.retrySafety, false, None, None, None, None, None)
    ensures NewJob(env, db, q, now) == Success(job)
  {
  }

  lemma VictimArrives()
    ensures Enqueue(DEFAULT_CONFIG, ENV, DB2, 0, LOW, 0) == Success(DB3)
  {
    CapabilityIsNamed();
    JobIsBuilt(ENV, DB2, LOW, 0, LOW_JOB);
    assert AddJob(ENV, DB2, 0, LOW, 0) == Success(DB3);
  }

  lemma VictimIsListed()
    ensures Candidates(DB3, ENV, 0, ONLINE, 0) == [0] && BrowserGate(ENV, DB3, 0, 0, ONLINE, 0)
  {
    assert LiveJobs(DB3.rows, 0, 0) == {};
    assert Claimable(DB3, ENV, 0, ONLINE, 0) == {0};
    assert Ordered(DB3.rows, {0}) == [0];
    assert WaitingForAccount(DB3.preemptions, 7) == {};
    assert RunningBrowser(DB3.rows, 7) == {};
    assert BROWSER_PREFIX <= CAPABILITY;
    assert ClaimableBrowser(DB3, ENV, 0, ONLINE, 0, 7) == {0};
  }

  lemma VictimGetsLease()
    ensures TakenRows(DEFAULT_CONFIG, DB3.rows[0], None, 0, 0, 1) == Some(LOW_ROWS) && !TokenUsed(DB3.rows, 1)
  {
    assert [] + LOW_ROWS.attempts == LOW_ROWS.attempts;
  }

  lemma NobodyWaitsYet()
    ensures RequestCancelForWaiting(DEFAULT_CONFIG, ENV, DB4, 0, 0) == DB4
  {
    assert WaitingForVictim(DB4.preemptions, 0) == {};
    assert SupersedeAll(DB4.preemptions, {}, 0) == map[];
  }

  lemma VictimIsTaken()
    ensures ClaimOne(DEFAULT_CONFIG, ENV, DB3, 0, 0, ONLINE, 0, 1) == Taken(DB4)
  {
    VictimIsListed();
    VictimGetsLease();
    assert DB3.rows[0 := LOW_ROWS] == DB4.rows;
    NobodyWaitsYet();
  }

  lemma VictimStarts()
    ensures ClaimNext(DEFAULT_CONFIG, ENV, DB3, 0, 0, 1) == Success((DB4, Some(0)))
  {
    VictimIsListed();
    VictimIsTaken();
  }

  lemma CommandArrives()
    ensures ReceiveCommand(DB4, COMMAND, TERMS) == Success(DB5)
    ensures MoveOutside(DB5, COMMAND, Commands.CommandStatus.Validated, None, None, None, 1) == Success(DB6)
  {
    assert !CommandTaken(DB5.rows, COMMAND);
    assert DB5.commands[COMMAND := VALIDATED] == DB6.commands;
  }

  const ADDED := DB6.(commands := map[COMMAND := WAITING], rows := map[0 := LOW_ROWS, 1 := HIGH_ROWS])

  lemma PreemptorIsBuilt()
    ensures NewJob(ENV, DB6, HIGH, 1) == Success(HIGH_ROWS.job)
  {
    CapabilityIsNamed();
    JobIsBuilt(ENV, DB6, HIGH, 1, HIGH_ROWS.job);
  }

  lemma PreemptorIsQueued()
    ensures AddJob(ENV, DB6, 1, HIGH, 1) == Success(ADDED)
  {
    PreemptorIsBuilt();
    assert !CommandTaken(DB6.rows, COMMAND);
    assert DB6.commands[COMMAND := WAITING] == ADDED.commands;
    assert DB6.rows[1 := HIGH_ROWS] == ADDED.rows;
  }

  lemma PreemptorArbitrates()
    ensures RunningBrowser(ADDED.rows, 7) == {0} && Arbitrate(DEFAULT_CONFIG, ENV, ADDED, 1, 7, {0}, 1) == DB7
  {
    assert BROWSER_PREFIX <= CAPABILITY;
    assert ArbitrateOne(DEFAULT_CONFIG, ENV, ADDED, 1, 7, 0, 1) == DB7;
    assert Least({0}) == 0;
    assert {0} - {0} == {};
  }

  lemma PreemptorArrives()
    ensures Enqueue(DEFAULT_CONFIG, ENV, DB6, 1, HIGH, 1) == Success(DB7)
  {
    PreemptorIsQueued();
    PreemptorArbitrates();
    assert BROWSER_PREFIX <= CAPABILITY;
  }

  lemma VictimExpires()
    ensures RecoverExpired(DB7, [0], 50).Success? && IsStranded(RecoverExpired(DB7, [0], 50).value, Pair(1, 0))
    ensures var after := RecoverExpired(DB7, [0], 50).value;
            1 in after.rows && after.rows[1].job.spec.deadline.None? && after.preemptions[Pair(1, 0)].account == 7
  {
    var next := ExpiredRows(LOW_ROWS, 50);
    assert RecoverOne(DB7, 0, 50).Success? by {
      assert next.job.Storable();
    }
    var after := RecoverOne(DB7, 0, 50).value;
    assert [0][1..] == [];
    assert RecoverExpired(DB7, [0], 50) == Success(after);
    PreemptorWaits();
    ReachableInv(DEFAULT_CONFIG, DB7, 1);
    TimePasses(DB7, 1, 50);
    RecoveryStrands(DB7, [0], Pair(1, 0), 50);
    RecoverOneElsewhere(DB7, 0, 50, Pair(1, 0));
  }

  lemma Reached(db: Db, clock: Time, now: Time, call: Call, next: Db)
    requires Reachable(DEFAULT_CONFIG, db, clock) && clock <= now
    requires Apply(DEFAULT_CONFIG, ENV, db, call, now) == Success(next)
    ensures Reachable(DEFAULT_CONFIG, next, now)
  {
    ReachableNext(DEFAULT_CONFIG, db, clock, Event(now, ENV, call));
  }

  lemma VictimRuns()
    ensures Reachable(DEFAULT_CONFIG, DB4, 0)
  {
    NothingYet(DEFAULT_CONFIG, 0);
    WorkerJoins();
    Reached(EMPTY_DB, 0, 0, Controlling(Enrolled(0, 1, 1)), DB1);
    Reached(DB1, 0, 0, Controlling(Greeted(0, GREETING, 1000)), DB2);
    VictimArrives();
    Reached(DB2, 0, 0, Enqueueing(0, LOW), DB3);
    VictimStarts();
    Reached(DB3, 0, 0, Claiming(0, 1), DB4);
  }

  const LATE_REPORT := Failing(0, 0, 1, "TIMEOUT", true, false)

  lemma ReportIsLate()
    ensures TooLateRetry(DEFAULT_CONFIG, DB4, LATE_REPORT, 0)
  {
    assert "TIMEOUT"[0] in "TIMEOUT";
  }

  /** The holder of a running job reports a retryable failure shortly before the deadline, and the table refuses it. */
  lemma ReportCanBeRefused()
    ensures exists db, call, now ::
              && Reachable(DEFAULT_CONFIG, db, now) && TooLateRetry(DEFAULT_CONFIG, db, call, now)
              && Apply(DEFAULT_CONFIG, ENV, db, call, now) == Failure(CheckViolation)
  {
    VictimRuns();
    ReportIsLate();
    NoDefects(DEFAULT_CONFIG, ENV, DB4, 0, LATE_REPORT, 0);
  }

  lemma PreemptorWaits()
    ensures Reachable(DEFAULT_CONFIG, DB7, 1)
  {
    VictimRuns();
    CommandArrives();
    Reached(DB4, 0, 1, FromRuntime(CommandReceived(COMMAND, TERMS)), DB5);
    Reached(DB5, 1, 1, FromRuntime(CommandMoved(COMMAND, Commands.CommandStatus.Validated, None, None, None)), DB6);
    PreemptorArrives();
    Reached(DB6, 1, 1, Enqueueing(1, HIGH), DB7);
  }

  lemma ReachesRecovery(batch: seq<JobId>, db: Db, now: Time)
    requires now >= 1 && RecoverExpired(DB7, batch, now) == Success(db)
    ensures Reachable(DEFAULT_CONFIG, db, now)
  {
    PreemptorWaits();
    Reached(DB7, 1, now, Recovering(batch), db);
  }

  /** The run reaches a waiting preemption whose victim has ended, and whose preemptor has no deadline. */
  lemma WaitersCanBeStranded()
    ensures exists db ::
              && Reachable(DEFAULT_CONFIG, db, 50) && IsStranded(db, Pair(1, 0))
              && 1 in db.rows && db.rows[1].job.spec.deadline.None? && db.preemptions[Pair(1, 0)].account == 7
  {
    VictimExpires();
    var db := RecoverExpired(DB7, [0], 50).value;
    ReachesRecovery([0], db, 50);
  }
}
