/** What each kind of table update keeps; the step proofs are assembled from these. */
module JobProofs {
  import opened Prelude
  import opened WorkerJobs
  import opened Platform
  import opened JobSteps
  import opened JobInvariants
  import Commands

  /** The same job at a later moment: fixed fields, attempt history and tokens are kept. */
  predicate SameJob(r: JobRows, next: JobRows) {
    && next.job.spec == r.job.spec
    && |next.attempts| == |r.attempts|
    && (forall i :: 0 <= i < |r.attempts| ==> next.attempts[i].token == r.attempts[i].token)
  }

  // ----- local: the latest running attempt, pending cancel and open intervention are the last rows -----

  lemma {:induction false} RunningAttemptIsLast(r: JobRows)
    requires AttemptsOk(r)
    ensures RunningAttempt(r.attempts) == if r.job.status.Running? then Some(|r.attempts| - 1) else None
  {
  }

  lemma PendingCancelIsLast(r: JobRows)
    requires CancelsOk(r)
    ensures PendingCancel(r.cancels).Some? ==>
              PendingCancel(r.cancels).value == |r.cancels| - 1 && r.job.status.Running?
              && r.cancels[|r.cancels| - 1].target == r.job.attemptCount
  {
  }

  lemma OpenInterventionIsLast(r: JobRows)
    requires InterventionsOk(r)
    ensures OpenIntervention(r.interventions) ==
            if r.job.status.WaitingIntervention? then Some(|r.interventions| - 1) else None
  {
  }

  lemma {:induction false} LatestGenerationIsCount(cancels: seq<Cancel>)
    requires forall i :: 0 <= i < |cancels| ==> cancels[i].generation == i + 1
    ensures LatestGeneration(cancels) == |cancels|
  {
    if cancels == [] {
    } else {
      LatestGenerationIsCount(cancels[..|cancels| - 1]);
    }
  }

  /** With its pending request superseded, a job's cancel rows fit any status. */
  predicate NothingPending(r: JobRows) {
    && (forall i :: 0 <= i < |r.cancels| ==> r.cancels[i].generation == i + 1)
    && (forall i :: 0 <= i < |r.cancels| ==> !r.cancels[i].status.Pending?)
  }

  lemma SupersedeClears(r: JobRows, now: Time, reason: CancelEnd)
    requires CancelsOk(r)
    ensures NothingPending(SupersedePending(r, now, reason))
    ensures var s := SupersedePending(r, now, reason);
            s.job == r.job && s.attempts == r.attempts && s.interventions == r.interventions
            && CancelsOk(s)
  {
    PendingCancelIsLast(r);
  }

  /** Ending the running attempt leaves no running one; the rest of the history is untouched. */
  lemma EndAttemptClears(r: JobRows, status: AttemptStatus, now: Time, error: Option<Code>)
    requires AttemptsOk(r) && r.job.status.Running? && !status.AttemptRunning?
    ensures RunningAttempt(r.attempts) == Some(|r.attempts| - 1)
    ensures var e := EndAttempt(r, |r.attempts| - 1, status, now, error);
            && e.job == r.job && e.cancels == r.cancels && e.interventions == r.interventions && SameJob(r, e)
            && (forall i :: 0 <= i < |e.attempts| ==> e.attempts[i].number == i + 1)
            && (forall i :: 0 <= i < |e.attempts| ==> !e.attempts[i].status.AttemptRunning?)
            && (forall i :: 0 <= i < |e.attempts| ==> e.attempts[i].finishedAt.Some?)
            && e.attempts[|e.attempts| - 1].status == status
  {
    RunningAttemptIsLast(r);
  }

  // ----- one job's rows change -----

  lemma RowKeepsBinding(rows: map<JobId, JobRows>, j: JobId, next: JobRows)
    requires BindingOk(rows) && j in rows && next.job.spec == rows[j].job.spec
    ensures BindingOk(rows[j := next])
  {
    var rows' := rows[j := next];
    forall a, b, c | BoundTo(rows', a, c) && BoundTo(rows', b, c) ensures a == b {
      assert BoundTo(rows, a, c) && BoundTo(rows, b, c);
    }
  }

  lemma RowKeepsTokens(rows: map<JobId, JobRows>, j: JobId, next: JobRows)
    requires TokensOk(rows) && j in rows && SameJob(rows[j], next)
    ensures TokensOk(rows[j := next])
  {
    var rows' := rows[j := next];
    forall a, b, x, y, t | Issued(rows', a, x, t) && Issued(rows', b, y, t) ensures a == b && x == y {
      assert Issued(rows, a, x, t) && Issued(rows, b, y, t);
    }
  }

  lemma RowKeepsOneBrowser(rows: map<JobId, JobRows>, j: JobId, next: JobRows)
    requires OneBrowserPerAccount(rows) && j in rows && next.job.spec == rows[j].job.spec
    requires next.job.status.Running? ==> rows[j].job.status.Running?
    ensures OneBrowserPerAccount(rows[j := next])
  {
    var rows' := rows[j := next];
    forall x, y, a | x in rows' && y in rows' && RunsBrowser(rows'[x].job, a) && RunsBrowser(rows'[y].job, a)
      ensures x == y
    {
      assert RunsBrowser(rows[x].job, a) && RunsBrowser(rows[y].job, a);
    }
  }

  // ----- Commands follow -----

  lemma EndCommandFollows(commands: CommandTable, results: Outbox, c: CommandId, target: Commands.CommandStatus,
                          now: Time, result: Option<Document>, error: Option<Code>)
    requires ResultsOk(commands, results) && c in commands && Commands.Terminal(target)
    requires commands[c].status.WaitingExecution? || commands[c].status.WaitingIntervention?
    requires Commands.ValidTransition(commands[c].status, target)
    ensures var e := EndCommand(commands, results, c, target, now, result, error);
            && e.Success?
            && c in e.value.0 && e.value.0[c].status == target && e.value.0 == commands[c := e.value.0[c]]
            && ResultsOk(e.value.0, e.value.1)
  {
    assert EventsOk(commands, results, c);
    var e := EndCommand(commands, results, c, target, now, result, error);
    forall d <- e.value.0 ensures EventsOk(e.value.0, e.value.1, d) {
      assert EventsOk(commands, results, d);
    }
  }

  lemma ShiftFollows(commands: CommandTable, results: Outbox, c: CommandId, from: Commands.CommandStatus,
                     target: Commands.CommandStatus, now: Time)
    requires ResultsOk(commands, results) && c in commands && commands[c].status == from
    requires (from.WaitingExecution? && target.WaitingIntervention?) || (from.WaitingIntervention? && target.WaitingExecution?)
    ensures var e := ShiftedCommands(commands, c, from, target, now);
            && e.Success?
            && c in e.value && e.value[c].status == target && e.value == commands[c := e.value[c]]
            && ResultsOk(e.value, results)
  {
    var e := ShiftedCommands(commands, c, from, target, now);
    forall d <- e.value ensures EventsOk(e.value, results, d) {
      assert EventsOk(commands, results, d);
    }
  }

  /** One job and its own Command move together; no other job shares the Command. */
  lemma LockstepFollows(rows: map<JobId, JobRows>, commands: CommandTable, j: JobId, next: JobRows, c: CommandId,
                        row: Commands.CommandRow)
    requires LockstepOk(rows, commands) && BindingOk(rows) && j in rows
    requires next.job.spec == rows[j].job.spec && next.job.spec.command == Some(c)
    requires row.status == CommandFor(next.job.status)
    ensures LockstepOk(rows[j := next], commands[c := row])
  {
    var rows' := rows[j := next];
    forall i <- rows' ensures InStep(rows'[i].job, commands[c := row]) {
      assert BoundTo(rows, j, c);
      assert i != j ==> InStep(rows[i].job, commands) && !BoundTo(rows, i, c);
    }
  }

  /** The tables after a job ended or moved to or from an operator, Command included. */
  ghost predicate Followed(db: Db, j: JobId, next: JobRows, after: Db) {
    && j in db.rows
    && after == db.(rows := db.rows[j := next], commands := after.commands, results := after.results)
    && ResultsOk(after.commands, after.results)
    && LockstepOk(after.rows, after.commands)
  }

  lemma FinalizeKeeps(db: Db, j: JobId, next: JobRows, target: Commands.CommandStatus, now: Time,
                      result: Option<Document>, error: Option<Code>)
    requires j in db.rows && next.job.spec == db.rows[j].job.spec
    requires ResultsOk(db.commands, db.results) && LockstepOk(db.rows, db.commands) && BindingOk(db.rows)
    requires !Ended(db.rows[j].job.status) && Ended(next.job.status) && target == CommandFor(next.job.status)
    requires db.rows[j].job.status.WaitingIntervention? ==> target.FailedFinal? || target.Expired?
    ensures var f := FinalizeCommand(db.(rows := db.rows[j := next]), next.job.spec, target, now, result, error);
            f.Success? && Followed(db, j, next, f.value)
  {
    assert InStep(db.rows[j].job, db.commands);
    if next.job.spec.command.Some? {
      var c := next.job.spec.command.value;
      EndCommandFollows(db.commands, db.results, c, target, now, result, error);
      LockstepFollows(db.rows, db.commands, j, next, c,
                      EndCommand(db.commands, db.results, c, target, now, result, error).value.0[c]);
    } else {
      CommandlessFollows(db.rows, db.commands, j, next);
    }
  }

  lemma ShiftKeeps(db: Db, j: JobId, next: JobRows, from: Commands.CommandStatus, target: Commands.CommandStatus,
                   now: Time)
    requires j in db.rows && next.job.spec == db.rows[j].job.spec
    requires ResultsOk(db.commands, db.results) && LockstepOk(db.rows, db.commands) && BindingOk(db.rows)
    requires from == CommandFor(db.rows[j].job.status) && target == CommandFor(next.job.status)
    requires (from.WaitingExecution? && target.WaitingIntervention?) || (from.WaitingIntervention? && target.WaitingExecution?)
    ensures var f := ShiftCommand(db.(rows := db.rows[j := next]), next.job.spec, from, target, now);
            f.Success? && Followed(db, j, next, f.value)
  {
    assert InStep(db.rows[j].job, db.commands);
    if next.job.spec.command.Some? {
      var c := next.job.spec.command.value;
      ShiftFollows(db.commands, db.results, c, from, target, now);
      LockstepFollows(db.rows, db.commands, j, next, c,
                      ShiftedCommands(db.commands, c, from, target, now).value[c]);
    } else {
      CommandlessFollows(db.rows, db.commands, j, next);
    }
  }

  lemma CommandlessFollows(rows: map<JobId, JobRows>, commands: CommandTable, j: JobId, next: JobRows)
    requires LockstepOk(rows, commands) && next.job.spec.command.None?
    ensures LockstepOk(rows[j := next], commands)
  {
    var rows' := rows[j := next];
    forall i <- rows' ensures InStep(rows'[i].job, commands) {
      assert i != j ==> InStep(rows[i].job, commands);
    }
  }

  /** A job that moves within one Command status needs no Command update. */
  lemma SameCommandFollows(rows: map<JobId, JobRows>, commands: map<CommandId, Commands.CommandRow>, j: JobId,
                           next: JobRows)
    requires j in rows && LockstepOk(rows, commands) && next.job.spec == rows[j].job.spec
    requires CommandFor(next.job.status) == CommandFor(rows[j].job.status)
    ensures LockstepOk(rows[j := next], commands)
  {
    var rows' := rows[j := next];
    forall i <- rows' ensures InStep(rows'[i].job, commands) {
      assert InStep(rows[i].job, commands);
    }
  }

  // ----- fences -----

  lemma ReleaseKeepsFences(rows: map<JobId, JobRows>, leases: map<AccountId, AccountLease>, j: JobId, next: JobRows,
                           now: Time)
    requires FencesOk(rows, leases, now) && j in rows && !next.job.status.Running?
    ensures FencesOk(rows[j := next],
                     ReleaseCoordination(leases, j, rows[j].job.spec, rows[j].job.generation, now), now)
  {
    var released := ReleaseCoordination(leases, j, rows[j].job.spec, rows[j].job.generation, now);
    var rows' := rows[j := next];
    forall i <- rows' ensures FenceOk(i, rows'[i].job, released, now) {
      assert FenceOk(i, rows[i].job, leases, now);
    }
    forall a <- released ensures HolderOk(a, released[a], rows', now) {
      assert HolderOk(a, leases[a], rows, now);
    }
  }

  // ----- preemptions -----

  /** The victim's holder stops: its waiting rows are satisfied, and it was never a waiting preemptor itself. */
  lemma SatisfyKeeps(rows: map<JobId, JobRows>, preemptions: map<Pair, Preemption>, j: JobId, next: JobRows,
                     how: Quiescence, now: Time)
    requires PreemptionsOk(rows, preemptions, now) && OneVictimPerAccount(rows, preemptions)
    requires j in rows && next.job.spec == rows[j].job.spec && next.job.attemptCount == rows[j].job.attemptCount >= 1
    requires !next.job.status.Running?
    ensures PreemptionsOk(rows[j := next], SatisfyForVictim(preemptions, j, now, how), now)
    ensures OneVictimPerAccount(rows[j := next], SatisfyForVictim(preemptions, j, now, how))
  {
    var rows', after := rows[j := next], SatisfyForVictim(preemptions, j, now, how);
    forall k <- after ensures PreemptionOk(rows', k, after[k], now) {
      assert PreemptionOk(rows, k, preemptions[k], now);
    }
    FewerWaitersKeepOneVictim(rows, preemptions, rows', after);
  }

  /** Rows that differ at most in a superseded cancel request. */
  predicate OnlyCancels(r: JobRows, next: JobRows) {
    match next
    case JobRows(job, attempts, _, interventions) =>
      job == r.job && attempts == r.attempts && interventions == r.interventions && (CancelsOk(r) ==> CancelsOk(next))
  }

  ghost predicate OnlyCancelsChange(rows: map<JobId, JobRows>, rows': map<JobId, JobRows>) {
    rows'.Keys == rows.Keys && forall i <- rows :: OnlyCancels(rows[i], rows'[i])
  }

  ghost predicate JobsKept(db: Db, after: Db) {
    match after
    case Db(rows, _, _, _, _, _) => OnlyCancelsChange(db.rows, rows)
  }

  lemma SupersedeForPreemptorShape(db: Db, p: JobId, now: Time)
    ensures var e := SupersedeForPreemptor(db, p, now);
            && OnlyCancelsChange(db.rows, e.rows)
            && e == db.(rows := e.rows, preemptions := e.preemptions)
            && e.preemptions == SupersedeAll(db.preemptions, WaitingForPreemptor(db.preemptions, p), now)
  {
    var e := SupersedeForPreemptor(db, p, now);
    forall i <- db.rows ensures OnlyCancels(db.rows[i], e.rows[i]) {
      if CancelsOk(db.rows[i]) {
        SupersedeClears(db.rows[i], now, PreemptionNoLongerPending);
      }
    }
  }

  /** Superseding rows whose preemptor can no longer start. */
  lemma SupersedeAllKeeps(rows: map<JobId, JobRows>, preemptions: map<Pair, Preemption>, s: set<Pair>, now: Time)
    requires PreemptionsOk(rows, preemptions, now) && OneVictimPerAccount(rows, preemptions)
    requires forall k <- s :: k in preemptions && k.preemptor in rows && CanNoLongerStart(rows[k.preemptor].job, now)
    ensures PreemptionsOk(rows, SupersedeAll(preemptions, s, now), now)
    ensures OneVictimPerAccount(rows, SupersedeAll(preemptions, s, now))
  {
    var after := SupersedeAll(preemptions, s, now);
    forall k <- after ensures PreemptionOk(rows, k, after[k], now) {
      assert PreemptionOk(rows, k, preemptions[k], now);
    }
    FewerWaitersKeepOneVictim(rows, preemptions, rows, after);
  }

  /** A job that has started is no waiting or dropped preemptor, so its own moves touch no preemption. */
  lemma StartedKeepsPreemptions(rows: map<JobId, JobRows>, preemptions: map<Pair, Preemption>, j: JobId, next: JobRows,
                                now: Time)
    requires PreemptionsOk(rows, preemptions, now) && OneVictimPerAccount(rows, preemptions)
    requires j in rows && next.job.spec == rows[j].job.spec && next.job.attemptCount == rows[j].job.attemptCount >= 1
    requires next.job.status.Running? ==> rows[j].job.status.Running?
    ensures PreemptionsOk(rows[j := next], preemptions, now)
    ensures OneVictimPerAccount(rows[j := next], preemptions)
  {
    var rows' := rows[j := next];
    forall k <- preemptions ensures PreemptionOk(rows', k, preemptions[k], now) {
      assert PreemptionOk(rows, k, preemptions[k], now);
    }
    forall k, i | Waits(preemptions, k) && i in rows' && RunsBrowser(rows'[i].job, preemptions[k].account)
      ensures i == k.victim
    {
      assert RunsBrowser(rows[i].job, preemptions[k].account);
    }
  }

  /** A job ends: exactly the rows it waited for are superseded. */
  lemma EndedKeepsPreemptions(rows: map<JobId, JobRows>, preemptions: map<Pair, Preemption>, j: JobId, next: JobRows,
                              now: Time)
    requires PreemptionsOk(rows, preemptions, now)
    requires j in rows && next.job.spec == rows[j].job.spec && next.job.attemptCount == rows[j].job.attemptCount
    requires Ended(next.job.status)
    ensures PreemptionsOk(rows[j := next], SupersedeAll(preemptions, WaitingForPreemptor(preemptions, j), now), now)
  {
    var rows', dropped := rows[j := next], WaitingForPreemptor(preemptions, j);
    var after := SupersedeAll(preemptions, dropped, now);
    forall k <- after ensures PreemptionOk(rows', k, after[k], now) {
      assert PreemptionOk(rows, k, preemptions[k], now);
      assert k in dropped <==> Waits(preemptions, k) && k.preemptor == j;
    }
  }

  /** Fewer waiting rows and fewer running jobs leave at most one victim per account. */
  lemma FewerWaitersKeepOneVictim(rows: map<JobId, JobRows>, preemptions: map<Pair, Preemption>,
                                  rows': map<JobId, JobRows>, after: map<Pair, Preemption>)
    requires OneVictimPerAccount(rows, preemptions)
    requires forall k :: Waits(after, k) ==> Waits(preemptions, k) && after[k].account == preemptions[k].account
    requires forall i, a :: i in rows' && RunsBrowser(rows'[i].job, a) ==> i in rows && RunsBrowser(rows[i].job, a)
    ensures OneVictimPerAccount(rows', after)
  {
  }

  // ----- only cancel rows change -----

  lemma CancelsChangeKeepsLocal(rows: map<JobId, JobRows>, rows': map<JobId, JobRows>, commands: CommandTable,
                                leases: map<AccountId, AccountLease>, now: Time)
    requires OnlyCancelsChange(rows, rows')
    requires LocalOk(rows, now) && LockstepOk(rows, commands) && FencesOk(rows, leases, now)
    ensures LocalOk(rows', now) && LockstepOk(rows', commands) && FencesOk(rows', leases, now)
  {
    forall i <- rows' ensures RowsOk(rows'[i], now) && InStep(rows'[i].job, commands) && FenceOk(i, rows'[i].job, leases, now) {
      assert OnlyCancels(rows[i], rows'[i]);
      assert RowsOk(rows[i], now) && InStep(rows[i].job, commands) && FenceOk(i, rows[i].job, leases, now);
    }
    forall a <- leases ensures HolderOk(a, leases[a], rows', now) {
      assert HolderOk(a, leases[a], rows, now);
      assert forall i <- rows :: i in rows' && OnlyCancels(rows[i], rows'[i]);
    }
  }

  lemma CancelsChangeKeepsTokens(rows: map<JobId, JobRows>, rows': map<JobId, JobRows>)
    requires TokensOk(rows) && BindingOk(rows) && OnlyCancelsChange(rows, rows')
    ensures TokensOk(rows') && BindingOk(rows')
  {
    assert forall i <- rows' :: i in rows && OnlyCancels(rows[i], rows'[i]);
    forall a, b, c | BoundTo(rows', a, c) && BoundTo(rows', b, c) ensures a == b {
      assert BoundTo(rows, a, c) && BoundTo(rows, b, c);
    }
    forall a, b, x, y, t | Issued(rows', a, x, t) && Issued(rows', b, y, t) ensures a == b && x == y {
      assert Issued(rows, a, x, t) && Issued(rows, b, y, t);
    }
  }

  lemma CancelsChangeKeepsPreemptions(rows: map<JobId, JobRows>, rows': map<JobId, JobRows>,
                                      preemptions: map<Pair, Preemption>, now: Time)
    requires OnlyCancelsChange(rows, rows') && OneBrowserPerAccount(rows)
    requires PreemptionsOk(rows, preemptions, now) && OneVictimPerAccount(rows, preemptions)
    ensures OneBrowserPerAccount(rows')
    ensures PreemptionsOk(rows', preemptions, now) && OneVictimPerAccount(rows', preemptions)
  {
    forall i <- rows' ensures rows'[i].job == rows[i].job {
      assert OnlyCancels(rows[i], rows'[i]);
    }
    forall k <- preemptions ensures PreemptionOk(rows', k, preemptions[k], now) {
      assert PreemptionOk(rows, k, preemptions[k], now);
    }
    FewerWaitersKeepOneVictim(rows, preemptions, rows', preemptions);
    forall x, y, a | x in rows' && y in rows' && RunsBrowser(rows'[x].job, a) && RunsBrowser(rows'[y].job, a)
      ensures x == y
    {
      assert RunsBrowser(rows[x].job, a) && RunsBrowser(rows[y].job, a);
    }
  }

  lemma CancelsChangeKeeps(db: Db, rows': map<JobId, JobRows>, now: Time)
    requires Inv(db, now) && OnlyCancelsChange(db.rows, rows')
    ensures Inv(db.(rows := rows'), now)
  {
    CancelsChangeKeepsLocal(db.rows, rows', db.commands, db.leases, now);
    CancelsChangeKeepsTokens(db.rows, rows');
    CancelsChangeKeepsPreemptions(db.rows, rows', db.preemptions, now);
  }
}
