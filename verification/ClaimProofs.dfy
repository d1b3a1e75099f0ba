/** The invariant survives enqueue with its arbitration, and the claim loop with its gates. */
module ClaimProofs {
  import opened Prelude
  import opened WorkerJobs
  import opened Platform
  import opened JobSteps
  import opened JobInvariants
  import opened JobProofs
  import opened HolderProofs
  import Commands

  // ----- preemption rows that differ only in the cancel request they point to -----

  ghost predicate SameButRequest(preemptions: map<Pair, Preemption>, after: map<Pair, Preemption>) {
    && after.Keys == preemptions.Keys
    && (forall k <- preemptions :: after[k].account == preemptions[k].account && after[k].status == preemptions[k].status)
  }

  lemma PointedKeeps(db: Db, s: set<Pair>, generation: int, now: Time)
    requires Inv(db, now)
    ensures Inv(Pointed(db, s, generation), now)
  {
    RequestPointerKeepsRows(db.rows, db.preemptions, Pointed(db, s, generation).preemptions, now);
  }

  lemma RequestPointerKeepsRows(rows: map<JobId, JobRows>, preemptions: map<Pair, Preemption>,
                                after: map<Pair, Preemption>, now: Time)
    requires PreemptionsOk(rows, preemptions, now) && OneVictimPerAccount(rows, preemptions)
    requires SameButRequest(preemptions, after)
    ensures PreemptionsOk(rows, after, now) && OneVictimPerAccount(rows, after)
  {
    forall k <- after ensures PreemptionOk(rows, k, after[k], now) {
      assert PreemptionOk(rows, k, preemptions[k], now);
    }
    FewerWaitersKeepOneVictim(rows, preemptions, rows, after);
  }

  // ----- enqueue -----

  lemma AddedRowKeeps(rows: map<JobId, JobRows>, preemptions: map<Pair, Preemption>, leases: map<AccountId, AccountLease>,
                      j: JobId, next: JobRows, now: Time)
    requires j !in rows && NeverStarted(next.job) && next.attempts == []
    requires TokensOk(rows) && FencesOk(rows, leases, now) && OneBrowserPerAccount(rows)
    requires PreemptionsOk(rows, preemptions, now) && OneVictimPerAccount(rows, preemptions)
    ensures TokensOk(rows[j := next]) && FencesOk(rows[j := next], leases, now) && OneBrowserPerAccount(rows[j := next])
    ensures PreemptionsOk(rows[j := next], preemptions, now) && OneVictimPerAccount(rows[j := next], preemptions)
  {
    var rows' := rows[j := next];
    forall i <- rows' ensures FenceOk(i, rows'[i].job, leases, now) {
      assert i != j ==> FenceOk(i, rows[i].job, leases, now);
    }
    forall a <- leases ensures HolderOk(a, leases[a], rows', now) {
      assert HolderOk(a, leases[a], rows, now);
    }
    forall k <- preemptions ensures PreemptionOk(rows', k, preemptions[k], now) {
      assert PreemptionOk(rows, k, preemptions[k], now);
    }
    FewerWaitersKeepOneVictim(rows, preemptions, rows', preemptions);
    forall x, y, a | x in rows' && y in rows' && RunsBrowser(rows'[x].job, a) && RunsBrowser(rows'[y].job, a)
      ensures x == y
    {
      assert RunsBrowser(rows[x].job, a) && RunsBrowser(rows[y].job, a);
    }
    forall a, b, x, y, t | Issued(rows', a, x, t) && Issued(rows', b, y, t) ensures a == b && x == y {
      assert Issued(rows, a, x, t) && Issued(rows, b, y, t);
    }
  }

  /** The Command of a new job moves to WAITING_EXECUTION, where no other job depends on it. */
  lemma AddedRowFollows(rows: map<JobId, JobRows>, commands: CommandTable, results: Outbox, commands': CommandTable,
                        j: JobId, next: JobRows)
    requires j !in rows && next.job.status.Queued?
    requires LockstepOk(rows, commands) && ResultsOk(commands, results) && BindingOk(rows)
    requires next.job.spec.command.None? ==> commands' == commands
    requires next.job.spec.command.Some? ==>
               var c := next.job.spec.command.value;
               && c in commands && c in commands' && commands' == commands[c := commands'[c]]
               && commands'[c].status.WaitingExecution? && !Commands.Terminal(commands[c].status)
               && !CommandTaken(rows, c)
    ensures LockstepOk(rows[j := next], commands') && ResultsOk(commands', results) && BindingOk(rows[j := next])
  {
    var rows' := rows[j := next];
    forall i <- rows' ensures InStep(rows'[i].job, commands') {
      assert i != j ==> InStep(rows[i].job, commands);
    }
    forall d <- commands' ensures EventsOk(commands', results, d) {
      assert EventsOk(commands, results, d);
    }
    forall a, b, c | BoundTo(rows', a, c) && BoundTo(rows', b, c) ensures a == b {
      assert a != j ==> BoundTo(rows, a, c);
      assert b != j ==> BoundTo(rows, b, c);
    }
  }

  /** The tables with the new QUEUED row, before arbitration. */
  lemma AddedKeeps(db: Db, commands: CommandTable, j: JobId, job: Job, now: Time)
    requires Inv(db, now) && j !in db.rows && NeverStarted(job) && JobOk(job, now)
    requires job.spec.command.None? ==> commands == db.commands
    requires job.spec.command.Some? ==>
               var c := job.spec.command.value;
               && c in db.commands && c in commands && commands == db.commands[c := commands[c]]
               && commands[c].status.WaitingExecution? && !Commands.Terminal(db.commands[c].status)
               && !CommandTaken(db.rows, c)
    ensures Inv(db.(commands := commands, rows := db.rows[j := JobRows(job, [], [], [])]), now)
  {
    var next := JobRows(job, [], [], []);
    AddedRowKeeps(db.rows, db.preemptions, db.leases, j, next, now);
    AddedRowFollows(db.rows, db.commands, db.results, commands, j, next);
    var rows' := db.rows[j := next];
    forall i <- rows' ensures RowsOk(rows'[i], now) {
      assert i != j ==> RowsOk(db.rows[i], now);
    }
  }

  /** A new waiting row: the victim is the account's one running browser job, so every waiting row names it. */
  lemma NewPreemptionKeeps(rows: map<JobId, JobRows>, preemptions: map<Pair, Preemption>, p: JobId, v: JobId,
                           account: AccountId, now: Time)
    requires PreemptionsOk(rows, preemptions, now) && OneVictimPerAccount(rows, preemptions) && OneBrowserPerAccount(rows)
    requires p in rows && v in rows && LocalOk(rows, now)
    requires NeverStarted(rows[p].job) && BrowserJob(rows[p].job.spec) && rows[p].job.spec.account == Some(account)
    requires rows[p].job.spec.priority == HIGH_PRIORITY > rows[v].job.spec.priority && RunsBrowser(rows[v].job, account)
    ensures var after := preemptions[Pair(p, v) := Preemption(account, WaitingForQuiescence, None)];
            PreemptionsOk(rows, after, now) && OneVictimPerAccount(rows, after)
  {
    var k0 := Pair(p, v);
    var after := preemptions[k0 := Preemption(account, WaitingForQuiescence, None)];
    assert RowsOk(rows[v], now);
    forall k <- after ensures PreemptionOk(rows, k, after[k], now) {
      assert k != k0 ==> PreemptionOk(rows, k, preemptions[k], now);
    }
    forall k | Waits(after, k) && after[k].account == account ensures k.victim == v {
      assert k != k0 ==> Waits(preemptions, k);
    }
    forall k, l | Waits(after, k) && Waits(after, l) && after[k].account == after[l].account
      ensures k.victim == l.victim
    {
      assert k != k0 ==> Waits(preemptions, k);
      assert l != k0 ==> Waits(preemptions, l);
    }
    forall k, i | Waits(after, k) && i in rows && RunsBrowser(rows[i].job, after[k].account) ensures i == k.victim {
      assert k != k0 ==> Waits(preemptions, k);
    }
  }

  ghost predicate CanPreempt(rows: map<JobId, JobRows>, p: JobId, account: AccountId) {
    && p in rows && NeverStarted(rows[p].job)
    && BrowserJob(rows[p].job.spec) && rows[p].job.spec.account == Some(account)
    && rows[p].job.spec.priority == HIGH_PRIORITY
  }

  lemma MarkedKeeps(db: Db, p: JobId, account: AccountId, v: JobId, now: Time)
    requires Inv(db, now) && CanPreempt(db.rows, p, account)
    requires v in db.rows && RunsBrowser(db.rows[v].job, account) && db.rows[v].job.spec.priority < HIGH_PRIORITY
    ensures Inv(Marked(db, Pair(p, v), account), now)
  {
    if Pair(p, v) !in db.preemptions {
      NewPreemptionKeeps(db.rows, db.preemptions, p, v, account, now);
    }
  }

  lemma AskToStopKeeps(cfg: Config, env: Env, db: Db, v: JobId, s: set<Pair>, now: Time)
    requires Inv(db, now) && v in db.rows
    ensures var after := AskToStop(cfg, env, db, v, s, now);
            Inv(after, now) && JobsKept(db, after)
  {
    RequestCancelInTransactionKeeps(cfg, env, db, v, HighPriorityPreemption, now);
    var placed := RequestCancelInTransaction(cfg, env, db, v, HighPriorityPreemption, now);
    if placed.Success? {
      PointedKeeps(placed.value.0, s, placed.value.1, now);
    } else {
      NothingChanges(db);
    }
  }

  lemma NothingChanges(db: Db)
    ensures JobsKept(db, db)
  {
  }

  lemma VictimKeeps(cfg: Config, env: Env, db: Db, k: Pair, account: AccountId, now: Time)
    requires Inv(db, now) && CanPreempt(db.rows, k.preemptor, account)
    requires k.victim in db.rows && RunsBrowser(db.rows[k.victim].job, account)
    requires db.rows[k.victim].job.spec.priority < HIGH_PRIORITY
    ensures var marked := Marked(db, k, account);
            var asked := AskToStop(cfg, env, marked, k.victim, {k}, now);
            && Inv(marked, now) && JobsKept(db, marked)
            && Inv(asked, now) && JobsKept(db, asked)
  {
    MarkedKeeps(db, k.preemptor, account, k.victim, now);
    AskToStopKeeps(cfg, env, Marked(db, k, account), k.victim, {k}, now);
    NothingChanges(db);
  }

  lemma ArbitrateOneKeeps(cfg: Config, env: Env, db: Db, p: JobId, account: AccountId, v: JobId, now: Time)
    requires Inv(db, now) && CanPreempt(db.rows, p, account) && v in RunningBrowser(db.rows, account)
    ensures var after := ArbitrateOne(cfg, env, db, p, account, v, now);
            Inv(after, now) && JobsKept(db, after)
  {
    NothingChanges(db);
    if db.rows[v].job.spec.priority < HIGH_PRIORITY && v != p {
      VictimKeeps(cfg, env, db, Pair(p, v), account, now);
    }
  }

  lemma SameJobsStillRun(rows: map<JobId, JobRows>, rows': map<JobId, JobRows>, p: JobId, account: AccountId)
    requires OnlyCancelsChange(rows, rows') && CanPreempt(rows, p, account)
    ensures CanPreempt(rows', p, account) && RunningBrowser(rows', account) == RunningBrowser(rows, account)
  {
    forall i <- rows ensures rows'[i].job == rows[i].job {
      assert OnlyCancels(rows[i], rows'[i]);
    }
  }

  lemma {:induction false} ArbitrateKeeps(cfg: Config, env: Env, db: Db, p: JobId, account: AccountId,
                                          victims: set<JobId>, now: Time)
    requires Inv(db, now) && CanPreempt(db.rows, p, account) && victims <= RunningBrowser(db.rows, account)
    ensures Inv(Arbitrate(cfg, env, db, p, account, victims, now), now)
    decreases |victims|
  {
    if victims == {} {
    } else {
      var v := Least(victims);
      ArbitrateOneKeeps(cfg, env, db, p, account, v, now);
      var next := ArbitrateOne(cfg, env, db, p, account, v, now);
      SameJobsStillRun(db.rows, next.rows, p, account);
      ArbitrateKeeps(cfg, env, next, p, account, victims - {v}, now);
    }
  }

  lemma NewJobOk(env: Env, db: Db, q: EnqueueRequest, now: Time)
    ensures match NewJob(env, db, q, now)
            case Failure(e) => !Defect(e)
            case Success(job) =>
              && NeverStarted(job) && JobOk(job, now) && job.spec.command == q.command && job.spec.priority == q.priority
              && (q.command.Some? ==>
                    && q.command.value in db.commands && db.commands[q.command.value].spec.priority == q.priority
                    && (db.commands[q.command.value].status.Validated? || db.commands[q.command.value].status.WaitingExecution?))
  {
  }

  lemma AddJobKeeps(env: Env, db: Db, j: JobId, q: EnqueueRequest, now: Time)
    requires Inv(db, now)
    ensures match AddJob(env, db, j, q, now)
            case Failure(e) => !Defect(e)
            case Success(added) =>
              && Inv(added, now) && j in added.rows && NeverStarted(added.rows[j].job)
              && added.rows[j].job.spec.command == q.command
              && (q.command.Some? ==> q.command.value in added.commands
                                      && added.commands[q.command.value].spec.priority == added.rows[j].job.spec.priority)
  {
    NewJobOk(env, db, q, now);
    var n := NewJob(env, db, q, now);
    if n.Success? && j !in db.rows && !(q.command.Some? && CommandTaken(db.rows, q.command.value)) {
      var commands :=
        if q.command.Some? && db.commands[q.command.value].status.Validated?
        then MoveCommand(db.commands, q.command.value, Commands.CommandStatus.WaitingExecution, now, None, None).value
        else db.commands;
      AddedKeeps(db, commands, j, n.value, now);
    }
  }

  lemma EnqueueKeeps(cfg: Config, env: Env, db: Db, j: JobId, q: EnqueueRequest, now: Time)
    requires Inv(db, now)
    ensures Sound(Enqueue(cfg, env, db, j, q, now), now)
  {
    AddJobKeeps(env, db, j, q, now);
    var added := AddJob(env, db, j, q, now);
    if added.Success? {
      PrioritizeKeeps(cfg, env, added.value, j, now);
    }
  }

  lemma PrioritizeKeeps(cfg: Config, env: Env, db: Db, j: JobId, now: Time)
    requires Inv(db, now) && j in db.rows && NeverStarted(db.rows[j].job)
    requires var spec := db.rows[j].job.spec;
             spec.command.Some? ==>
               spec.command.value in db.commands && db.commands[spec.command.value].spec.priority == spec.priority
    ensures Sound(Prioritize(cfg, env, db, j, now), now)
  {
    var spec := db.rows[j].job.spec;
    if spec.command.Some? && spec.priority == HIGH_PRIORITY && BrowserJob(spec) {
      ArbitrateKeeps(cfg, env, db, j, spec.account.value, RunningBrowser(db.rows, spec.account.value), now);
    }
  }

  // ----- claim: the domain call never refuses a listed candidate -----

  lemma ListedCanBeClaimed(job: Job, env: Env, worker: WorkerId, w: WorkerNode, now: Time, expires: Time, token: Token,
                           fence: Option<int>)
    requires JobOk(job, now) && Available(job, env, worker, w, now) && now < expires
    requires if job.spec.Exclusive() then fence.Some? && fence.value >= 1 else fence.None?
    ensures job.Claimed(worker, now, expires, token, fence).Some?
    ensures var c := job.Claimed(worker, now, expires, token, fence).value;
            JobOk(c, now) && c.spec == job.spec && c.attemptCount == job.attemptCount + 1 && c.status.Running?
            && c.lease == Some(Lease(worker, token, expires)) && c.generation == fence
    ensures CommandFor(job.status).WaitingExecution?
  {
  }

  /** The claimed job's rows: one more attempt, the only running one, and no pending request. */
  lemma ClaimedRowsOk(r: JobRows, job: Job, worker: WorkerId, token: Token, now: Time)
    requires RowsOk(r, now) && !r.job.status.WaitingIntervention?
    requires r.job.status.Running? ==> NothingPending(r)
    requires JobOk(job, now) && job.spec == r.job.spec && job.attemptCount == r.job.attemptCount + 1
    requires job.status.Running? && job.lease.Some? && job.lease.value.worker == worker && job.lease.value.token == token
    ensures var n := ClaimedRows(r, job, worker, token, now);
            && RowsOk(n, now) && n.job == job
            && |n.attempts| == |r.attempts| + 1 && n.attempts[|r.attempts|].token == token
            && (forall i :: 0 <= i < |r.attempts| ==> n.attempts[i].token == r.attempts[i].token)
  {
    RunningAttemptIsLast(r);
  }

  lemma ClaimKeepsTokens(rows: map<JobId, JobRows>, c: JobId, next: JobRows, token: Token)
    requires TokensOk(rows) && c in rows && !TokenUsed(rows, token)
    requires |next.attempts| == |rows[c].attempts| + 1 && next.attempts[|rows[c].attempts|].token == token
    requires forall i :: 0 <= i < |rows[c].attempts| ==> next.attempts[i].token == rows[c].attempts[i].token
    ensures TokensOk(rows[c := next])
  {
    var rows' := rows[c := next];
    var last := |rows[c].attempts|;
    forall a, x | a in rows && 0 <= x < |rows[a].attempts| ensures rows[a].attempts[x].token != token {
      assert rows[a].attempts[x] in rows[a].attempts;
    }
    forall a, b, x, y, t | Issued(rows', a, x, t) && Issued(rows', b, y, t) ensures a == b && x == y {
      assert !(a == c && x == last) ==> Issued(rows, a, x, t);
      assert !(b == c && y == last) ==> Issued(rows, b, y, t);
    }
  }

  /** A lease is acquired only over an expired one, so every older fence of the account belongs to a dead lease. */
  lemma AcquireKeepsFences(rows: map<JobId, JobRows>, leases: map<AccountId, AccountLease>, c: JobId, next: JobRows,
                           now: Time, expires: Time)
    requires FencesOk(rows, leases, now) && c in rows && next.job.spec == rows[c].job.spec
    requires next.job.spec.Exclusive() && next.job.lease.Some? && next.job.lease.value.expires == expires
    requires next.job.status.Running?
    requires var acquired := TryAcquire(leases, next.job.spec.account.value, JobOwner(c), next.job.spec.operation, now, expires);
             acquired.Some? && next.job.generation == Some(acquired.value[next.job.spec.account.value].generation)
    ensures var acquired := TryAcquire(leases, next.job.spec.account.value, JobOwner(c), next.job.spec.operation, now, expires);
            FencesOk(rows[c := next], acquired.value, now)
  {
    var acquired :=
      TryAcquire(leases, next.job.spec.account.value, JobOwner(c), next.job.spec.operation, now, expires).value;
    var rows' := rows[c := next];
    forall i <- rows' ensures FenceOk(i, rows'[i].job, acquired, now) {
      assert i != c ==> FenceOk(i, rows[i].job, leases, now);
    }
    forall a <- acquired ensures HolderOk(a, acquired[a], rows', now) {
      assert a in leases ==> HolderOk(a, leases[a], rows, now);
    }
  }

  /** No fence, no change: a READ job or one without an account. */
  lemma UnfencedKeepsFences(rows: map<JobId, JobRows>, leases: map<AccountId, AccountLease>, c: JobId, next: JobRows,
                            now: Time)
    requires FencesOk(rows, leases, now) && c in rows && !next.job.spec.Exclusive() && next.job.spec == rows[c].job.spec
    ensures FencesOk(rows[c := next], leases, now)
  {
    var rows' := rows[c := next];
    forall i <- rows' ensures FenceOk(i, rows'[i].job, leases, now) {
      assert i != c ==> FenceOk(i, rows[i].job, leases, now);
    }
    forall a <- leases ensures HolderOk(a, leases[a], rows', now) {
      assert HolderOk(a, leases[a], rows, now);
    }
  }

  /** What the browser gate grants about the tables. */
  ghost predicate GateGrants(rows: map<JobId, JobRows>, preemptions: map<Pair, Preemption>, c: JobId) {
    c in rows && (BrowserJob(rows[c].job.spec) ==>
                    var account := rows[c].job.spec.account.value;
                    && (forall k :: Waits(preemptions, k) && preemptions[k].account == account ==> k.preemptor != c && k.victim == c)
                    && (forall r :: r in rows && RunsBrowser(rows[r].job, account) ==> r == c))
  }

  lemma GateGranted(env: Env, db: Db, c: JobId, worker: WorkerId, w: WorkerNode, now: Time)
    requires c in db.rows && BrowserGate(env, db, c, worker, w, now)
    ensures GateGrants(db.rows, db.preemptions, c)
  {
    if BrowserJob(db.rows[c].job.spec) {
      var account := db.rows[c].job.spec.account.value;
      forall k | Waits(db.preemptions, k) && db.preemptions[k].account == account ensures k.preemptor != c && k.victim == c {
        assert k in WaitingForAccount(db.preemptions, account);
      }
      forall r | r in db.rows && RunsBrowser(db.rows[r].job, account) ensures r == c {
        assert r in RunningBrowser(db.rows, account);
      }
    }
  }

  lemma ClaimKeepsOneBrowser(rows: map<JobId, JobRows>, preemptions: map<Pair, Preemption>, c: JobId, next: JobRows)
    requires OneBrowserPerAccount(rows) && GateGrants(rows, preemptions, c) && next.job.spec == rows[c].job.spec
    ensures OneBrowserPerAccount(rows[c := next])
  {
    var rows' := rows[c := next];
    forall x, y, a | x in rows' && y in rows' && RunsBrowser(rows'[x].job, a) && RunsBrowser(rows'[y].job, a)
      ensures x == y
    {
      assert x != c ==> RunsBrowser(rows[x].job, a);
      assert y != c ==> RunsBrowser(rows[y].job, a);
    }
  }

  /** The claimed job is the victim of every waiting row of its account and the preemptor of none that waits. */
  lemma ClaimKeepsPreemptions(rows: map<JobId, JobRows>, preemptions: map<Pair, Preemption>, c: JobId, next: JobRows,
                              now: Time)
    requires PreemptionsOk(rows, preemptions, now) && OneVictimPerAccount(rows, preemptions)
    requires GateGrants(rows, preemptions, c)
    requires !Ended(rows[c].job.status) && !rows[c].job.spec.PastDeadline(now)
    requires next.job.spec == rows[c].job.spec && next.job.attemptCount == rows[c].job.attemptCount + 1
    requires rows[c].job.attemptCount >= 0
    ensures PreemptionsOk(rows[c := next], preemptions, now)
    ensures OneVictimPerAccount(rows[c := next], preemptions)
  {
    var rows' := rows[c := next];
    forall k <- preemptions ensures PreemptionOk(rows', k, preemptions[k], now) {
      assert PreemptionOk(rows, k, preemptions[k], now);
      assert k.preemptor == c ==> !Waits(preemptions, k);
    }
    forall k, i | Waits(preemptions, k) && i in rows' && RunsBrowser(rows'[i].job, preemptions[k].account)
      ensures i == k.victim
    {
      assert i != c ==> RunsBrowser(rows[i].job, preemptions[k].account);
    }
  }

  /** The tables right after a successful claim, before waiting preemptors are heard again. */
  lemma ClaimedKeeps(db: Db, c: JobId, next: JobRows, leases: map<AccountId, AccountLease>, token: Token, now: Time)
    requires Inv(db, now) && GateGrants(db.rows, db.preemptions, c)
    requires RowsOk(next, now) && next.job.status.Running? && next.job.spec == db.rows[c].job.spec
    requires next.job.attemptCount == db.rows[c].job.attemptCount + 1 && db.rows[c].job.attemptCount >= 0
    requires CommandFor(db.rows[c].job.status).WaitingExecution? && !db.rows[c].job.spec.PastDeadline(now)
    requires !TokenUsed(db.rows, token)
    requires |next.attempts| == |db.rows[c].attempts| + 1 && next.attempts[|db.rows[c].attempts|].token == token
    requires forall i :: 0 <= i < |db.rows[c].attempts| ==> next.attempts[i].token == db.rows[c].attempts[i].token
    requires FencesOk(db.rows[c := next], leases, now)
    ensures Inv(db.(leases := leases, rows := db.rows[c := next]), now)
  {
    RowKeepsBinding(db.rows, c, next);
    ClaimKeepsTokens(db.rows, c, next, token);
    ClaimKeepsOneBrowser(db.rows, db.preemptions, c, next);
    ClaimKeepsPreemptions(db.rows, db.preemptions, c, next, now);
    SameCommandFollows(db.rows, db.commands, c, next);
    var rows' := db.rows[c := next];
    forall i <- rows' ensures RowsOk(rows'[i], now) {
      assert i != c ==> RowsOk(db.rows[i], now);
    }
  }

  // ----- claim: a victim that starts again -----

  lemma DropNonViableKeeps(db: Db, j: JobId, now: Time)
    requires Inv(db, now) && j in db.rows
    ensures Inv(DropNonViable(db, j, now), now)
  {
    var dead := WaitingForVictim(db.preemptions, j) - ViableFor(db, j, now);
    forall k <- dead ensures k in db.preemptions && k.preemptor in db.rows && CanNoLongerStart(db.rows[k.preemptor].job, now) {
      assert PreemptionOk(db.rows, k, db.preemptions[k], now);
    }
    SupersedeAllKeeps(db.rows, db.preemptions, dead, now);
  }

  lemma RequestCancelForWaitingKeeps(cfg: Config, env: Env, db: Db, j: JobId, now: Time)
    requires Inv(db, now) && j in db.rows
    ensures Inv(RequestCancelForWaiting(cfg, env, db, j, now), now)
  {
    DropNonViableKeeps(db, j, now);
    AskToStopKeeps(cfg, env, DropNonViable(db, j, now), j, ViableFor(db, j, now), now);
  }

  // ----- claim: one candidate, then the loop -----

  lemma LapsedOk(r: JobRows, now: Time)
    requires RowsOk(r, now) && (r.job.status.Running? ==> r.job.lease.Some? && r.job.lease.value.expires <= now)
    ensures var l := Lapsed(r, now);
            RowsOk(l, now) && l.job == r.job && l.attempts == r.attempts && (l.job.status.Running? ==> NothingPending(l))
  {
    SupersedeClears(r, now, TargetAttemptEnded);
  }

  /** The fences after a won account lease, or unchanged ones for a job that needs none. */
  lemma AcquiredKeepsFences(cfg: Config, db: Db, c: JobId, next: JobRows, now: Time)
    requires cfg.Valid() && c in db.rows && FencesOk(db.rows, db.leases, now) && Acquired(cfg, db, c, now).Some?
    requires next.job.spec == db.rows[c].job.spec && next.job.status.Running?
    requires next.job.lease.Some? && next.job.lease.value.expires == now + cfg.leaseDuration
    requires next.job.generation == FenceIn(Acquired(cfg, db, c, now).value, next.job.spec)
    ensures FencesOk(db.rows[c := next], Acquired(cfg, db, c, now).value, now)
  {
    if next.job.spec.Exclusive() {
      AcquireKeepsFences(db.rows, db.leases, c, next, now, now + cfg.leaseDuration);
    } else {
      UnfencedKeepsFences(db.rows, db.leases, c, next, now);
    }
  }

  ghost predicate OneMoreAttempt(r: JobRows, next: JobRows, token: Token) {
    && next.job.spec == r.job.spec && next.job.attemptCount == r.job.attemptCount + 1 && r.job.attemptCount >= 0
    && next.job.status.Running? && CommandFor(r.job.status).WaitingExecution?
    && |next.attempts| == |r.attempts| + 1 && next.attempts[|r.attempts|].token == token
    && (forall i :: 0 <= i < |r.attempts| ==> next.attempts[i].token == r.attempts[i].token)
  }

  lemma TakenRowsOk(cfg: Config, env: Env, r: JobRows, fence: Option<int>, worker: WorkerId, w: WorkerNode, now: Time,
                    token: Token)
    requires cfg.Valid() && RowsOk(r, now) && Available(r.job, env, worker, w, now)
    requires if r.job.spec.Exclusive() then fence.Some? && fence.value >= 1 else fence.None?
    ensures var n := TakenRows(cfg, r, fence, worker, now, token);
            && n.Some? && RowsOk(n.value, now) && n.value.job.Storable() && OneMoreAttempt(r, n.value, token)
            && n.value.job.lease == Some(Lease(worker, token, now + cfg.leaseDuration)) && n.value.job.generation == fence
            && !(exists a <- r.attempts :: a.number == n.value.job.attemptCount)
  {
    ListedCanBeClaimed(r.job, env, worker, w, now, now + cfg.leaseDuration, token, fence);
    LapsedOk(r, now);
    ClaimedRowsOk(Lapsed(r, now), r.job.Claimed(worker, now, now + cfg.leaseDuration, token, fence).value, worker, token, now);
  }

  lemma FenceIsWon(cfg: Config, db: Db, c: JobId, now: Time)
    requires c in db.rows && Acquired(cfg, db, c, now).Some?
    requires forall a <- db.leases :: db.leases[a].generation >= 1
    ensures var fence := FenceIn(Acquired(cfg, db, c, now).value, db.rows[c].job.spec);
            if db.rows[c].job.spec.Exclusive() then fence.Some? && fence.value >= 1 else fence.None?
  {
  }

  lemma TakenKeeps(cfg: Config, env: Env, db: Db, c: JobId, next: JobRows, token: Token, now: Time)
    requires Inv(db, now) && cfg.Valid() && GateGrants(db.rows, db.preemptions, c) && Acquired(cfg, db, c, now).Some?
    requires RowsOk(next, now) && OneMoreAttempt(db.rows[c], next, token) && !TokenUsed(db.rows, token)
    requires !db.rows[c].job.spec.PastDeadline(now)
    requires next.job.lease.Some? && next.job.lease.value.expires == now + cfg.leaseDuration
    requires next.job.generation == FenceIn(Acquired(cfg, db, c, now).value, next.job.spec)
    ensures var db1 := db.(leases := Acquired(cfg, db, c, now).value, rows := db.rows[c := next]);
            Inv(RequestCancelForWaiting(cfg, env, db1, c, now), now)
  {
    AcquiredKeepsFences(cfg, db, c, next, now);
    ClaimedKeeps(db, c, next, Acquired(cfg, db, c, now).value, token, now);
    RequestCancelForWaitingKeeps(cfg, env, db.(leases := Acquired(cfg, db, c, now).value, rows := db.rows[c := next]), c, now);
  }

  lemma TakeKeeps(cfg: Config, env: Env, db: Db, c: JobId, worker: WorkerId, w: WorkerNode, now: Time, token: Token)
    requires Inv(db, now) && cfg.Valid() && GateGrants(db.rows, db.preemptions, c) && Acquired(cfg, db, c, now).Some?
    requires RowsOk(db.rows[c], now) && Available(db.rows[c].job, env, worker, w, now)
    ensures match Take(cfg, env, db, c, Acquired(cfg, db, c, now).value, worker, now, token)
            case Skipped(_) => false
            case Taken(next) => Inv(next, now)
            case Aborted(e) => e.UniqueViolation? && TokenUsed(db.rows, token)
  {
    FenceIsWon(cfg, db, c, now);
    var fence := FenceIn(Acquired(cfg, db, c, now).value, db.rows[c].job.spec);
    TakenRowsOk(cfg, env, db.rows[c], fence, worker, w, now, token);
    if !TokenUsed(db.rows, token) {
      TakenKeeps(cfg, env, db, c, TakenRows(cfg, db.rows[c], fence, worker, now, token).value, token, now);
    }
  }

  /** A listed candidate is skipped without a trace, taken soundly, or its token was used before. */
  lemma ClaimOneKeeps(cfg: Config, env: Env, db: Db, c: JobId, worker: WorkerId, w: WorkerNode, now: Time, token: Token)
    requires Inv(db, now) && cfg.Valid() && c in db.rows && Available(db.rows[c].job, env, worker, w, now)
    ensures match ClaimOne(cfg, env, db, c, worker, w, now, token)
            case Skipped(next) => next == db
            case Taken(next) => Inv(next, now)
            case Aborted(e) => e.UniqueViolation? && TokenUsed(db.rows, token)
  {
    RowOf(db, c, now);
    if BrowserGate(env, db, c, worker, w, now) {
      GateGranted(env, db, c, worker, w, now);
      if Acquired(cfg, db, c, now).Some? {
        TakeKeeps(cfg, env, db, c, worker, w, now, token);
      }
    }
  }

  lemma {:induction false} ClaimLoopKeeps(cfg: Config, env: Env, db: Db, list: seq<JobId>, worker: WorkerId, w: WorkerNode,
                                          now: Time, token: Token)
    requires Inv(db, now) && cfg.Valid()
    requires forall j :: j in list ==> j in db.rows && Available(db.rows[j].job, env, worker, w, now)
    ensures match ClaimLoop(cfg, env, db, list, worker, w, now, token)
            case Success(v) => Inv(v.0, now) && (v.1.None? ==> v.0 == db)
            case Failure(e) => e.UniqueViolation? && TokenUsed(db.rows, token)
    decreases |list|
  {
    if list == [] {
    } else {
      assert list[0] in list;
      ClaimOneKeeps(cfg, env, db, list[0], worker, w, now, token);
      assert forall j :: j in list[1..] ==> j in list;
      ClaimLoopKeeps(cfg, env, db, list[1..], worker, w, now, token);
    }
  }

  lemma ListedAreAvailable(db: Db, env: Env, worker: WorkerId, w: WorkerNode, now: Time, j: JobId)
    requires j in Candidates(db, env, worker, w, now)
    ensures j in db.rows && Available(db.rows[j].job, env, worker, w, now)
  {
    assert j in Claimable(db, env, worker, w, now);
  }

  ghost predicate ClaimSound(db: Db, s: Step<(Db, Option<JobId>)>, now: Time) {
    match s
    case Success(v) => Inv(v.0, now) && (v.1.None? ==> v.0 == db)
    case Failure(e) => !Defect(e)
  }

  lemma ListingKeeps(cfg: Config, env: Env, db: Db, worker: WorkerId, w: WorkerNode, now: Time, token: Token)
    requires Inv(db, now) && cfg.Valid()
    ensures ClaimSound(db, ClaimLoop(cfg, env, db, Candidates(db, env, worker, w, now), worker, w, now, token), now)
  {
    var list := Candidates(db, env, worker, w, now);
    forall j | j in list ensures j in db.rows && Available(db.rows[j].job, env, worker, w, now) {
      ListedAreAvailable(db, env, worker, w, now, j);
    }
    ClaimLoopKeeps(cfg, env, db, list, worker, w, now, token);
  }

  /** claim_next: sound, and a poll that finds nothing to take changes nothing. */
  lemma ClaimNextKeeps(cfg: Config, env: Env, db: Db, worker: WorkerId, now: Time, token: Token)
    requires Inv(db, now) && cfg.Valid()
    ensures ClaimSound(db, ClaimNext(cfg, env, db, worker, now, token), now)
  {
    if worker in db.workers {
      ListingKeeps(cfg, env, db, worker, db.workers[worker], now, token);
    }
  }
}
