/** When each call of the presence and drain protocol is accepted, and the worker row it leaves. */
module ControlMeanings {
  import opened Prelude
  import opened WorkerJobs
  import opened Platform
  import opened JobSteps
  import opened WorkerControl
  import opened JobCalls

  predicate Speaks(protocol: Option<int>, schema: Option<int>) {
    (protocol == Some(1) || protocol == Some(2)) && schema == Some(1)
  }

  /** What a sign of life makes of the status. */
  function StatusAfter(status: WorkerStatus, supported: bool, healthy: bool): WorkerStatus {
    if !supported then UpgradeRequired
    else
      match status
      case WorkerDisabled => WorkerDisabled
      case Draining => Draining
      case _ => if healthy then Online else Degraded
  }

  /** Every stored row has passed the CHECK constraints; `StorableStays` shows that no call changes this. */
  predicate Storable(db: Db) { forall w <- db.workers :: NodeStorable(db.workers[w]) }

  /** Only this worker's row changes, to `node`. */
  predicate OnlyWorker(db: Db, after: Db, worker: WorkerId, node: WorkerNode) {
    after == db.(workers := db.workers[worker := node])
  }

  // ----- hello -----

  /** The sessions the worker can have and has, as it reports them or as they were. */
  function SessionsMax(w: WorkerNode, g: Greeting): int { if g.maxSessions.Some? then g.maxSessions.value else w.maxSessions }
  function SessionsNow(w: WorkerNode, active: Option<int>): int { if active.Some? then active.value else w.activeSessions }

  predicate HelloFits(cfg: Config, db: Db, worker: WorkerId, g: Greeting) {
    && worker in db.workers
    && var w := db.workers[worker];
    && (g.protocol == 2 ==> g.maxSessions.Some? && g.activeSessions.Some?)
    && (forall c <- g.capabilities :: c.0 in cfg.policies ==> cfg.policies[c.0].blocked.None?)
    && 0 <= SessionsNow(w, g.activeSessions) <= SessionsMax(w, g) && (g.maxSessions.Some? ==> g.maxSessions.value > 0)
    && (g.maxJobs.Some? ==> g.maxJobs.value > 0) && g.schema > 0
  }

  /** A greeting is accepted exactly with honest capacities and no blocked capability, and refreshes the whole row. */
  lemma HelloMeans(cfg: Config, db: Db, worker: WorkerId, g: Greeting, ttl: int, now: Time)
    requires Storable(db)
    ensures match SayHello(cfg, db, worker, g, ttl, now)
            case Failure(_) => !HelloFits(cfg, db, worker, g)
            case Success(after) =>
              && HelloFits(cfg, db, worker, g)
              && var w := db.workers[worker];
              OnlyWorker(db, after, worker,
                         WorkerNode(StatusAfter(w.status, Speaks(Some(g.protocol), Some(g.schema)), g.healthy),
                                    Some(g.protocol), Some(g.schema), if g.maxJobs.Some? then g.maxJobs.value else w.maxJobs,
                                    SessionsMax(w, g), SessionsNow(w, g.activeSessions), Some(now + ttl),
                                    if g.schema == 1 then g.capabilities else w.capabilities))
  {
  }

  // ----- heartbeat -----

  predicate BeatFits(db: Db, worker: WorkerId, active: Option<int>) {
    && worker in db.workers
    && var w := db.workers[worker];
    && (w.protocol == Some(2) ==> active.Some?)
    && 0 <= SessionsNow(w, active) <= w.maxSessions
  }

  /** A heartbeat extends the presence, counts the sessions and adjusts the status, and nothing else. */
  lemma BeatMeans(db: Db, worker: WorkerId, active: Option<int>, healthy: bool, ttl: int, now: Time)
    requires Storable(db)
    ensures match Heartbeat(db, worker, active, healthy, ttl, now)
            case Failure(_) => !BeatFits(db, worker, active)
            case Success(after) =>
              && BeatFits(db, worker, active)
              && var w := db.workers[worker];
              OnlyWorker(db, after, worker,
                         WorkerNode(StatusAfter(w.status, Speaks(w.protocol, w.schema), healthy), w.protocol, w.schema, w.maxJobs,
                                    w.maxSessions, SessionsNow(w, active), Some(now + ttl), w.capabilities))
  {
  }

  // ----- drain -----

  predicate ReasonFits(reason: string) {
    && 1 <= |reason| <= 80 && 'A' <= reason[0] <= 'Z'
    && forall i :: 0 <= i < |reason| ==> 'A' <= reason[i] <= 'Z' || '0' <= reason[i] <= '9' || reason[i] == '_'
  }

  /** An online or degraded worker starts to drain; asking again changes nothing; no other worker can. */
  lemma DrainMeans(db: Db, worker: WorkerId, reason: string)
    requires Storable(db)
    ensures match RequestDrain(db, worker, reason)
            case Failure(_) =>
              !(ReasonFits(reason) && worker in db.workers && db.workers[worker].status in {Online, Degraded, Draining})
            case Success(after) =>
              && ReasonFits(reason) && worker in db.workers && db.workers[worker].status in {Online, Degraded, Draining}
              && OnlyWorker(db, after, worker, db.workers[worker].(status := Draining))
  {
    if worker in db.workers && db.workers[worker].status.Draining? {
      assert db.workers[worker := db.workers[worker]] == db.workers;
    }
    assert forall i :: 0 <= i < |reason| ==> reason[i] in reason;
  }

  /** A drain completes exactly when the worker has no session and holds no running job, and takes it offline. */
  lemma CompletionMeans(db: Db, worker: WorkerId)
    requires Storable(db)
    ensures var done := && worker in db.workers && db.workers[worker].status.Draining? && db.workers[worker].activeSessions == 0
                        && forall j <- db.rows :: db.rows[j].job.status.Running? && db.rows[j].job.lease.Some? ==>
                                                    db.rows[j].job.lease.value.worker != worker;
            match CompleteDrain(db, worker)
            case Failure(_) => !done
            case Success(after) => done && OnlyWorker(db, after, worker, db.workers[worker].(status := Offline))
  {
    var held := HeldJobs(db.rows, worker);
    if held != {} {
      var j :| j in held;
    } else {
      forall j <- db.rows | db.rows[j].job.status.Running? && db.rows[j].job.lease.Some?
        ensures db.rows[j].job.lease.value.worker != worker
      {
        assert j !in held;
      }
    }
  }

  /** Any drain can be aborted, which also takes the worker offline. */
  lemma AbortMeans(db: Db, worker: WorkerId)
    requires Storable(db)
    ensures match AbortDrain(db, worker)
            case Failure(_) => !(worker in db.workers && db.workers[worker].status.Draining?)
            case Success(after) =>
              && worker in db.workers && db.workers[worker].status.Draining?
              && OnlyWorker(db, after, worker, db.workers[worker].(status := Offline))
  {
  }

  /** The sweep takes exactly the listed workers offline that are on and whose presence has run out. */
  lemma {:induction false} SweepMeans(workers: map<WorkerId, WorkerNode>, batch: seq<WorkerId>, now: Time)
    ensures var after := ExpirePresence(workers, batch, now);
            && after.Keys == workers.Keys
            && forall w <- workers ::
                 after[w] == if w in batch && workers[w].status in {Online, Degraded} && workers[w].presence.Some?
                                && workers[w].presence.value <= now
                             then workers[w].(status := Offline) else workers[w]
    decreases |batch|
  {
    if batch == [] {
    } else {
      var w := batch[0];
      var next := if w in workers && PresenceLost(workers[w], now) then workers[w := workers[w].(status := Offline)] else workers;
      SweepMeans(next, batch[1..], now);
      assert batch == [w] + batch[1..];
    }
  }

  lemma StorableStays(cfg: Config, db: Db, op: ControlOp, now: Time)
    requires Storable(db)
    ensures var s := ApplyControl(cfg, db, op, now); s.Success? ==> Storable(s.value)
  {
    if op.PresenceSwept? {
      SweepMeans(db.workers, op.workers, now);
    }
  }
}
