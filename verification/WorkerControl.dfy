/** The worker presence and drain protocol (application/worker_control.py), as steps on the tables. */
module WorkerControl {
  import opened Prelude
  import opened WorkerJobs
  import opened Platform
  import opened JobSteps

  /** What a worker reports about itself when it connects. */
  datatype Greeting = Greeting(
    protocol: int,
    schema: int,
    capabilities: set<(string, int)>,
    maxJobs: Option<int>,
    maxSessions: Option<int>,
    activeSessions: Option<int>,
    healthy: bool)

  const SUPPORTED_SCHEMA := 1

  /** The CHECK constraints of worker_nodes. */
  predicate NodeStorable(w: WorkerNode) {
    w.maxJobs > 0 && 0 <= w.activeSessions <= w.maxSessions && w.maxSessions > 0
    && (w.schema.Some? ==> w.schema.value > 0)
  }

  function StoreWorker(db: Db, worker: WorkerId, w: WorkerNode): Step<Db> {
    if !NodeStorable(w) then Failure(CheckViolation)
    else
      Success(db.(workers := db.workers[worker := w]))
  }

  /** The status after a sign of life: an operator's decision outlives it, an unsupported protocol overrides it. */
  function StatusSeen(w: WorkerNode, healthy: bool): WorkerStatus {
    if !ProtocolSupported(w.protocol, w.schema) then UpgradeRequired
    else if w.status.WorkerDisabled? || w.status.Draining? then w.status
    else if healthy then Online else Degraded
  }

  function WithSessions(w: WorkerNode, active: Option<int>): Step<WorkerNode> {
    if active.None? then Success(w)
    else
      :- Need(active.value >= 0, InvalidActiveSessions);
      :- Need(active.value <= w.maxSessions, SessionCapacityExceeded);
      Success(w.(activeSessions := active.value))
  }

  function GreetedNode(w: WorkerNode, g: Greeting, presence: Time): Step<WorkerNode> {
    var reportedMax := if g.maxSessions.Some? && g.maxSessions.value != 0 then g.maxSessions.value else w.maxSessions;
    var reportedActive := if g.activeSessions.Some? then g.activeSessions.value else w.activeSessions;
    :- Need(reportedActive <= reportedMax, SessionCapacityExceeded);
    :- Need(g.maxSessions.None? || g.maxSessions.value >= 1, InvalidSessionCapacity);
    var sized := w.(
                 maxJobs := if g.maxJobs.Some? then g.maxJobs.value else w.maxJobs,
                 maxSessions := if g.maxSessions.Some? then g.maxSessions.value else w.maxSessions);
    var counted :- WithSessions(sized, g.activeSessions);
    var versioned := counted.(protocol := Some(g.protocol), schema := Some(g.schema), presence := Some(presence));
    Success(versioned.(
            status := StatusSeen(versioned, g.healthy),
            capabilities := if g.schema == SUPPORTED_SCHEMA then g.capabilities else w.capabilities))
  }

  function SayHello(cfg: Config, db: Db, worker: WorkerId, g: Greeting, ttl: int, now: Time): Step<Db> {
    if !(g.protocol != 2 || (g.maxSessions.Some? && g.activeSessions.Some?)) then Failure(BrowserCapacityRequired)
    else
      :- Need(forall c <- g.capabilities :: !Blocked(cfg, c.0), BlockedCapabilityAdvertised);
      :- Need(worker in db.workers, WorkerNotFound);
      var greeted :- GreetedNode(db.workers[worker], g, now + ttl);
      StoreWorker(db, worker, greeted)
  }

  function Heartbeat(db: Db, worker: WorkerId, active: Option<int>, healthy: bool, ttl: int, now: Time): Step<Db> {
    if worker !in db.workers then Failure(WorkerNotFound)
    else
      var w := db.workers[worker];
      :- Need(w.protocol != Some(2) || active.Some?, BrowserCapacityRequired);
      var counted :- WithSessions(w.(presence := Some(now + ttl)), active);
      StoreWorker(db, worker, counted.(status := StatusSeen(counted, healthy)))
  }

  predicate DrainReason(s: string) {
    && 1 <= |s| <= 80 && 'A' <= s[0] <= 'Z'
    && forall c <- s :: 'A' <= c <= 'Z' || '0' <= c <= '9' || c == '_'
  }

  function RequestDrain(db: Db, worker: WorkerId, reason: string): Step<Db> {
    if !DrainReason(reason) then Failure(InvalidDrainReason)
    else
      :- Need(worker in db.workers, WorkerNotFound);
      var w := db.workers[worker];
      if w.status.Draining? then Success(db)
      else
        :- Need(w.status.Online? || w.status.Degraded?, DrainNotAllowed);
        StoreWorker(db, worker, w.(status := Draining))
  }

  predicate Quiescent(db: Db, worker: WorkerId)
    requires worker in db.workers
  {
    db.workers[worker].activeSessions == 0 && |HeldJobs(db.rows, worker)| == 0
  }

  function CompleteDrain(db: Db, worker: WorkerId): Step<Db> {
    if worker !in db.workers then Failure(WorkerNotFound)
    else
      :- Need(db.workers[worker].status.Draining?, NotDraining);
      :- Need(Quiescent(db, worker), DrainNotQuiescent);
      StoreWorker(db, worker, db.workers[worker].(status := Offline))
  }

  function AbortDrain(db: Db, worker: WorkerId): Step<Db> {
    if worker !in db.workers then Failure(WorkerNotFound)
    else
      :- Need(db.workers[worker].status.Draining?, NotDraining);
      StoreWorker(db, worker, db.workers[worker].(status := Offline))
  }

  predicate PresenceLost(w: WorkerNode, now: Time) {
    (w.status.Online? || w.status.Degraded?) && w.presence.Some? && w.presence.value <= now
  }

  /** The expiry loop over the rows the query returned. */
  function ExpirePresence(workers: map<WorkerId, WorkerNode>, batch: seq<WorkerId>, now: Time): map<WorkerId, WorkerNode>
    decreases |batch|
  {
    if batch == [] then workers
    else
      var w := batch[0];
      var next := if w in workers && PresenceLost(workers[w], now) then workers[w := workers[w].(status := Offline)] else workers;
      ExpirePresence(next, batch[1..], now)
  }

  /** The workers whose rows are not the same. */
  function Differing(before: map<WorkerId, WorkerNode>, after: map<WorkerId, WorkerNode>): set<WorkerId> {
    set w | w in before && w in after && before[w] != after[w]
  }

  lemma OneMoreDiffers(before: map<WorkerId, WorkerNode>, after: map<WorkerId, WorkerNode>, w: WorkerId, node: WorkerNode)
    requires w in before && w in after && after[w] == before[w] != node
    ensures |Differing(before, after[w := node])| == |Differing(before, after)| + 1
  {
    assert Differing(before, after[w := node]) == Differing(before, after) + {w};
  }

  /** Enrollment adds a REGISTERING row. */
  function Enrol(db: Db, worker: WorkerId, maxJobs: int, maxSessions: int): Step<Db> {
    if worker in db.workers then Failure(UniqueViolation)
    else
      StoreWorker(db, worker, WorkerNode(Registering, None, None, maxJobs, maxSessions, 0, None, {}))
  }

  /**
   * No sign of life takes a draining or disabled worker back to ONLINE: hello and heartbeat keep an operator's decision,
   * and give it up only for a protocol that is not supported, which is worse.
   */
  lemma SignsOfLifeDoNotUndoDrain(cfg: Config, db: Db, worker: WorkerId, g: Greeting, active: Option<int>, healthy: bool,
                                  ttl: int, now: Time)
    requires worker in db.workers && (db.workers[worker].status.Draining? || db.workers[worker].status.WorkerDisabled?)
    ensures var hello := SayHello(cfg, db, worker, g, ttl, now);
            hello.Success? ==>
              && worker in hello.value.workers
              && hello.value.workers[worker].status
                 == if ProtocolSupported(Some(g.protocol), Some(g.schema)) then db.workers[worker].status else UpgradeRequired
    ensures var beat := Heartbeat(db, worker, active, healthy, ttl, now);
            beat.Success? ==>
              && worker in beat.value.workers
              && beat.value.workers[worker].status
                 == if ProtocolSupported(db.workers[worker].protocol, db.workers[worker].schema) then db.workers[worker].status
                    else UpgradeRequired
  {
  }

  /** The service object: each method commits the step it is specified by, or nothing. */
  class WorkerControlService {
    const cfg: Config
    const ttl: int
    var db: Db

    ghost predicate Did(step: Step<Db>, before: Db, r: Result<(), Error>)
      reads this
    {
      match step
      case Success(next) => r.Success? && db == next
      case Failure(e) => r == Failure(e) && db == before
    }

    method Save(worker: WorkerId, w: WorkerNode) returns (r: Result<(), Error>)
      modifies this
      ensures Did(StoreWorker(old(db), worker, w), old(db), r)
    {
      if !NodeStorable(w) {
        return Failure(CheckViolation);
      }
      db := db.(workers := db.workers[worker := w]);
      r := Success(());
    }

    method Hello(worker: WorkerId, g: Greeting, now: Time) returns (r: Result<(), Error>)
      modifies this
      ensures Did(SayHello(cfg, old(db), worker, g, ttl, now), old(db), r)
    {
      if g.protocol == 2 && (g.maxSessions.None? || g.activeSessions.None?) {
        return Failure(BrowserCapacityRequired);
      }
      if exists c <- g.capabilities :: Blocked(cfg, c.0) {
        return Failure(BlockedCapabilityAdvertised);
      }
      if worker !in db.workers {
        return Failure(WorkerNotFound);
      }
      var w := db.workers[worker];
      var reportedMax := if g.maxSessions.Some? && g.maxSessions.value != 0 then g.maxSessions.value else w.maxSessions;
      var reportedActive := if g.activeSessions.Some? then g.activeSessions.value else w.activeSessions;
      if reportedActive > reportedMax {
        return Failure(SessionCapacityExceeded);
      }
      if g.maxJobs.Some? {
        w := w.(maxJobs := g.maxJobs.value);
      }
      if g.maxSessions.Some? {
        if g.maxSessions.value < 1 {
          return Failure(InvalidSessionCapacity);
        }
        w := w.(maxSessions := g.maxSessions.value);
      }
      var counted := WithSessions(w, g.activeSessions);
      if counted.Failure? {
        return Failure(counted.error);
      }
      w := counted.value.(protocol := Some(g.protocol), schema := Some(g.schema), presence := Some(now + ttl));
      if !ProtocolSupported(w.protocol, w.schema) {
        w := w.(status := UpgradeRequired);
      } else if !w.status.WorkerDisabled? && !w.status.Draining? {
        w := w.(status := if g.healthy then Online else Degraded);
      }
      if g.schema == SUPPORTED_SCHEMA {
        w := w.(capabilities := g.capabilities);
      }
      r := Save(worker, w);
    }

    method Beat(worker: WorkerId, active: Option<int>, healthy: bool, now: Time) returns (r: Result<(), Error>)
      modifies this
      ensures Did(Heartbeat(old(db), worker, active, healthy, ttl, now), old(db), r)
    {
      if worker !in db.workers {
        return Failure(WorkerNotFound);
      }
      var w := db.workers[worker];
      if w.protocol == Some(2) && active.None? {
        return Failure(BrowserCapacityRequired);
      }
      var counted := WithSessions(w.(presence := Some(now + ttl)), active);
      if counted.Failure? {
        return Failure(counted.error);
      }
      w := counted.value;
      if !ProtocolSupported(w.protocol, w.schema) {
        w := w.(status := UpgradeRequired);
      } else if !w.status.WorkerDisabled? && !w.status.Draining? {
        w := w.(status := if healthy then Online else Degraded);
      }
      r := Save(worker, w);
    }

    method Drain(worker: WorkerId, reason: string) returns (r: Result<(), Error>)
      modifies this
      ensures Did(RequestDrain(old(db), worker, reason), old(db), r)
    {
      if !DrainReason(reason) {
        return Failure(InvalidDrainReason);
      }
      if worker !in db.workers {
        return Failure(WorkerNotFound);
      }
      var w := db.workers[worker];
      if w.status.Draining? {
        return Success(());
      }
      if !w.status.Online? && !w.status.Degraded? {
        return Failure(DrainNotAllowed);
      }
      r := Save(worker, w.(status := Draining));
    }

    method Complete(worker: WorkerId) returns (r: Result<(), Error>)
      modifies this
      ensures Did(CompleteDrain(old(db), worker), old(db), r)
      ensures r.Success? ==> HeldJobs(db.rows, worker) == {}
    {
      if worker !in db.workers {
        return Failure(WorkerNotFound);
      }
      if !db.workers[worker].status.Draining? {
        return Failure(NotDraining);
      }
      if db.workers[worker].activeSessions != 0 || |HeldJobs(db.rows, worker)| != 0 {
        return Failure(DrainNotQuiescent);
      }
      r := Save(worker, db.workers[worker].(status := Offline));
    }

    method Abort(worker: WorkerId) returns (r: Result<(), Error>)
      modifies this
      ensures Did(AbortDrain(old(db), worker), old(db), r)
    {
      if worker !in db.workers {
        return Failure(WorkerNotFound);
      }
      if !db.workers[worker].status.Draining? {
        return Failure(NotDraining);
      }
      r := Save(worker, db.workers[worker].(status := Offline));
    }

    /** The presence sweep, counting the workers it takes offline. */
    method Sweep(batch: seq<WorkerId>, now: Time) returns (expired: nat)
      modifies this
      ensures db == old(db).(workers := ExpirePresence(old(db).workers, batch, now))
      ensures expired == |Differing(old(db).workers, db.workers)| <= |batch|
    {
      var workers := db.workers;
      expired := 0;
      for i := 0 to |batch|
        invariant db == old(db) && expired == |Differing(db.workers, workers)| <= i
        invariant workers.Keys == db.workers.Keys && forall w <- workers :: workers[w] == db.workers[w] || workers[w].status.Offline?
        invariant ExpirePresence(db.workers, batch, now) == ExpirePresence(workers, batch[i..], now)
      {
        var w := batch[i];
        assert batch[i..][0] == w && batch[i..][1..] == batch[i + 1..];
        if w in workers && PresenceLost(workers[w], now) {
          OneMoreDiffers(db.workers, workers, w, workers[w].(status := Offline));
          workers := workers[w := workers[w].(status := Offline)];
          expired := expired + 1;
        }
      }
      db := db.(workers := workers);
    }
  }
}
