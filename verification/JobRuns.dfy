/** Whole runs of the protocol: any calls, by anyone, in any order, at any non-decreasing times. */
module JobRuns {
  import opened Prelude
  import opened WorkerJobs
  import opened Platform
  import opened JobSteps
  import opened WorkerControl
  import opened JobInvariants
  import opened JobProofs
  import opened HolderProofs
  import opened SchedulerProofs
  import opened ClaimProofs
  import opened JobCalls
  import opened JobHistory
  import Commands

  datatype Event = Event(now: Time, env: Env, call: Call)

  ghost function Run(cfg: Config, db: Db, events: seq<Event>): Db
    decreases |events|
  {
    if events == [] then db
    else Run(cfg, After(cfg, events[0].env, db, events[0].call, events[0].now), events[1..])
  }

  predicate InOrder(clock: Time, events: seq<Event>)
    decreases |events|
  {
    events == [] || (clock <= events[0].now && InOrder(events[0].now, events[1..]))
  }

  function End(clock: Time, events: seq<Event>): Time
    decreases |events|
  {
    if events == [] then clock else End(events[0].now, events[1..])
  }

  /** Some run of the service leads from empty tables to these. */
  ghost predicate Reachable(cfg: Config, db: Db, clock: Time) {
    cfg.Valid() &&
    exists start: Time, events: seq<Event> ::
      InOrder(start, events) && clock == End(start, events) && db == Run(cfg, EMPTY_DB, events)
  }

  // ----- the calls of other services keep the invariant -----

  lemma ReceiveCommandKeeps(db: Db, c: CommandId, spec: Commands.CommandSpec, now: Time)
    requires Inv(db, now)
    ensures var s := ReceiveCommand(db, c, spec); s.Success? ==> Inv(s.value, now)
  {
    if c !in db.commands {
      var commands := db.commands[c := Commands.ReceivedCommand(spec)];
      forall d <- commands ensures EventsOk(commands, db.results, d) {
        assert d != c ==> EventsOk(db.commands, db.results, d);
      }
      forall j <- db.rows ensures InStep(db.rows[j].job, commands) {
        assert InStep(db.rows[j].job, db.commands);
      }
    }
  }

  lemma MoveOutsideKeeps(db: Db, act: RuntimeAct, now: Time)
    requires Inv(db, now) && act.CommandMoved?
    ensures var s := MoveOutside(db, act.command, act.target, act.error, act.result, act.retryAt, now);
            s.Success? ==> Inv(s.value, now)
  {
    var s := MoveOutside(db, act.command, act.target, act.error, act.result, act.retryAt, now);
    if s.Success? {
      assert EventsOk(db.commands, db.results, act.command);
      forall d <- s.value.commands ensures EventsOk(s.value.commands, s.value.results, d) {
        assert EventsOk(db.commands, db.results, d);
      }
      forall j <- db.rows ensures InStep(db.rows[j].job, s.value.commands) {
        assert InStep(db.rows[j].job, db.commands);
      }
    }
  }

  lemma TakeAccountKeeps(db: Db, a: AccountId, attempt: nat, op: OperationClass, expires: Time, now: Time)
    requires Inv(db, now)
    ensures var s := TakeAccount(db, a, attempt, op, expires, now); s.Success? ==> Inv(s.value, now)
  {
    var s := TakeAccount(db, a, attempt, op, expires, now);
    if s.Success? {
      forall j <- db.rows ensures FenceOk(j, db.rows[j].job, s.value.leases, now) {
        assert FenceOk(j, db.rows[j].job, db.leases, now);
      }
      forall b <- s.value.leases ensures HolderOk(b, s.value.leases[b], db.rows, now) {
        assert b in db.leases ==> HolderOk(b, db.leases[b], db.rows, now);
      }
    }
  }

  lemma KeepAccountKeeps(db: Db, a: AccountId, attempt: nat, generation: int, expires: Time, now: Time)
    requires Inv(db, now)
    ensures Inv(db.(leases := SetExpiry(db.leases, a, CommandOwner(attempt), generation, now, expires)), now)
  {
    var leases := SetExpiry(db.leases, a, CommandOwner(attempt), generation, now, expires);
    forall j <- db.rows ensures FenceOk(j, db.rows[j].job, leases, now) {
      assert FenceOk(j, db.rows[j].job, db.leases, now);
    }
    forall b <- leases ensures HolderOk(b, leases[b], db.rows, now) {
      assert HolderOk(b, db.leases[b], db.rows, now);
    }
  }

  lemma RuntimeKeeps(db: Db, act: RuntimeAct, now: Time)
    requires Inv(db, now)
    ensures var s := ApplyRuntime(db, act, now); s.Success? ==> Inv(s.value, now)
  {
    match act
    case CommandReceived(c, spec) => ReceiveCommandKeeps(db, c, spec, now);
    case CommandMoved(_, _, _, _, _) => MoveOutsideKeeps(db, act, now);
    case AccountTaken(a, attempt, op, expires) => TakeAccountKeeps(db, a, attempt, op, expires, now);
    case AccountKept(a, attempt, generation, expires) => KeepAccountKeeps(db, a, attempt, generation, expires, now);
  }

  lemma ControlKeeps(cfg: Config, db: Db, op: ControlOp, now: Time)
    requires Inv(db, now)
    ensures var s := ApplyControl(cfg, db, op, now); s.Success? ==> Inv(s.value, now)
  {
    ControlShape(cfg, db, op, now);
  }

  // ----- every call keeps the invariant -----

  lemma HolderKeeps(cfg: Config, env: Env, db: Db, call: Call, now: Time)
    requires Inv(db, now) && call.Held() && !call.Failing?
    ensures Sound(Apply(cfg, env, db, call, now), now)
  {
    match call
    case Renewing(j, w, t) => RenewKeeps(cfg, db, j, w, t, now);
    case Checkpointing(j, w, t, c) => SaveCheckpointKeeps(db, j, w, t, c, now);
    case Acknowledging(j, w, t, g, phase) => AcknowledgeCancelKeeps(cfg, env, db, j, w, t, g, phase, now);
    case Completing(j, w, t, d) => CompleteKeeps(db, j, w, t, d, now);
    case Intervening(j, w, t, kind, detail) => RequestInterventionKeeps(db, j, w, t, kind, detail, now);
  }

  predicate JobCall(call: Call) { !call.Controlling? && !call.FromRuntime? }

  /** The holder reports a failure whose retry would start at or after the deadline. */
  predicate TooLateRetry(cfg: Config, db: Db, call: Call, now: Time) {
    && call.Failing? && MayFail(db, call.job, call.worker, call.token, call.code, now)
    && RetryTooLate(cfg, db, call.job, call.retryable, call.ambiguous, now)
  }

  /**
   * No call of the WorkerJob service meets a defect of the stored rows, with one exact exception: a retryable
   * failure whose retry would start at or after the deadline, and always that one, is refused by the table's CHECK.
   */
  lemma ServiceIsSound(cfg: Config, env: Env, db: Db, call: Call, now: Time)
    requires Inv(db, now) && cfg.Valid() && JobCall(call)
    ensures match Apply(cfg, env, db, call, now)
            case Success(next) => Inv(next, now)
            case Failure(e) => (Defect(e) ==> e.CheckViolation?) && (Defect(e) <==> TooLateRetry(cfg, db, call, now))
    ensures TooLateRetry(cfg, db, call, now) ==> Apply(cfg, env, db, call, now) == Failure(CheckViolation)
  {
    match call
    case Enqueueing(j, q) => EnqueueKeeps(cfg, env, db, j, q, now);
    case Claiming(w, t) => ClaimNextKeeps(cfg, env, db, w, now, t);
    case Cancelling(j, reason) => RequestCancelKeeps(cfg, env, db, j, reason, now);
    case Failing(j, w, t, code, retryable, ambiguous) => FailKeeps(cfg, db, j, w, t, code, retryable, ambiguous, now);
    case Resolving(j, i, requeue, confirmed) => ResolveInterventionKeeps(db, j, i, requeue, confirmed, now);
    case Recovering(batch) => RecoverExpiredKeeps(db, batch, now);
    case _ => HolderKeeps(cfg, env, db, call, now);
  }

  lemma StepKeeps(cfg: Config, env: Env, db: Db, call: Call, now: Time)
    requires Inv(db, now) && cfg.Valid()
    ensures Inv(After(cfg, env, db, call, now), now)
  {
    match call
    case Controlling(op) => ControlKeeps(cfg, db, op, now);
    case FromRuntime(act) => RuntimeKeeps(db, act, now);
    case _ => ServiceIsSound(cfg, env, db, call, now);
  }

  lemma {:induction false} RunKeeps(cfg: Config, db: Db, clock: Time, events: seq<Event>)
    requires Inv(db, clock) && cfg.Valid() && InOrder(clock, events)
    ensures Inv(Run(cfg, db, events), End(clock, events))
    decreases |events|
  {
    if events == [] {
    } else {
      var e := events[0];
      TimePasses(db, clock, e.now);
      StepKeeps(cfg, e.env, db, e.call, e.now);
      RunKeeps(cfg, After(cfg, e.env, db, e.call, e.now), e.now, events[1..]);
    }
  }

  lemma ReachableInv(cfg: Config, db: Db, clock: Time)
    requires Reachable(cfg, db, clock)
    ensures Inv(db, clock) && cfg.Valid()
  {
    var start: Time, events: seq<Event> :|
      InOrder(start, events) && clock == End(start, events) && db == Run(cfg, EMPTY_DB, events);
    InvInitially(start);
    RunKeeps(cfg, EMPTY_DB, start, events);
  }

  /** The state after the first `n` events. */
  ghost function At(cfg: Config, db: Db, events: seq<Event>, n: nat): Db
    requires n <= |events|
  {
    Run(cfg, db, events[..n])
  }

  lemma AtShifts(cfg: Config, db: Db, events: seq<Event>, n: nat)
    requires 0 < n <= |events|
    ensures At(cfg, db, events, n)
            == At(cfg, After(cfg, events[0].env, db, events[0].call, events[0].now), events[1..], n - 1)
  {
    assert events[..n][1..] == events[1..][..n - 1];
  }

  lemma AtFirst(cfg: Config, db: Db, events: seq<Event>)
    requires events != []
    ensures At(cfg, db, events, 0) == db
    ensures At(cfg, db, events, 1) == After(cfg, events[0].env, db, events[0].call, events[0].now)
  {
    assert events[..0] == [];
    AtShifts(cfg, db, events, 1);
    assert events[1..][..0] == [];
  }

  lemma {:induction false} OneMoreEvent(cfg: Config, db: Db, clock: Time, events: seq<Event>, e: Event)
    requires InOrder(clock, events) && End(clock, events) <= e.now
    ensures InOrder(clock, events + [e]) && End(clock, events + [e]) == e.now
    ensures Run(cfg, db, events + [e]) == After(cfg, e.env, Run(cfg, db, events), e.call, e.now)
    decreases |events|
  {
    if events == [] {
      assert events + [e] == [e] && [e][1..] == [];
    } else {
      assert (events + [e])[1..] == events[1..] + [e];
      OneMoreEvent(cfg, After(cfg, events[0].env, db, events[0].call, events[0].now), events[0].now, events[1..], e);
    }
  }

  lemma ReachableNext(cfg: Config, db: Db, clock: Time, e: Event)
    requires Reachable(cfg, db, clock) && clock <= e.now
    ensures Reachable(cfg, After(cfg, e.env, db, e.call, e.now), e.now)
  {
    var start: Time, events: seq<Event> :|
      InOrder(start, events) && clock == End(start, events) && db == Run(cfg, EMPTY_DB, events);
    OneMoreEvent(cfg, EMPTY_DB, start, events, e);
    var longer := events + [e];
    assert InOrder(start, longer) && e.now == End(start, longer);
  }

  lemma NothingYet(cfg: Config, clock: Time)
    requires cfg.Valid()
    ensures Reachable(cfg, EMPTY_DB, clock)
  {
    var none: seq<Event> := [];
    assert InOrder(clock, none) && clock == End(clock, none) && EMPTY_DB == Run(cfg, EMPTY_DB, none);
  }
}
