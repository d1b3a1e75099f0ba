/** Runs of the conversation sync scheduler: any interleaving of its ticks with operators, the runtime and others. */
module SyncRuns {
  import opened Prelude
  import opened ConversationSync

  datatype Tick =
    | Creating(i: ScheduleId, anchor: Time, seconds: int, content: nat, next: Time, status: Status, at: Time)
    | Dispatching(now: Time, limit: int, listing: seq<ScheduleId>, roots: set<ScheduleId>)
    | Moving(i: ScheduleId, target: Status, at: Time)
    | Ending(c: CommandId)
    | Submitting(c: CommandId, content: nat)  // someone else's Command of the identity `conversation-sync:<i>:<due>`

  function ReadyIn(t: Tables, e: Tick): set<ScheduleId>
    requires e.Dispatching? && 1 <= e.limit <= MAX_BATCH
  {
    ReadyAmong(t, if |e.listing| < e.limit then e.listing else e.listing[..e.limit], e.roots, e.now)
  }

  /** The tick dispatches something: its limit is valid and none of the ready schedules is refused. */
  predicate Dispatchable(t: Tables, e: Tick) {
    e.Dispatching? && 1 <= e.limit <= MAX_BATCH && forall i <- ReadyIn(t, e) :: Refusal(t, i, e.now).None?
  }

  function Submitted(t: Tables, c: CommandId, content: nat): Tables {
    if c in t.commands then t else t.(commands := t.commands[c := SyncCommand(content, false)])
  }

  function After(t: Tables, e: Tick): Tables {
    match e
    case Creating(i, anchor, seconds, content, next, status, at) =>
      var c := Created(t, i, anchor, seconds, content, next, status, at);
      if c.Success? then c.value else t
    case Dispatching(now, _, _, _) => if Dispatchable(t, e) then Dispatches(t, ReadyIn(t, e), now) else t
    case Moving(i, target, at) =>
      if i in t.schedules && WithStatus(t, i, target, at).Success? then WithStatus(t, i, target, at).value else t
    case Ending(c) => WithEnded(t, c)
    case Submitting(c, content) => Submitted(t, c, content)
  }

  lemma SubmissionKeeps(t: Tables, c: CommandId, content: nat)
    requires Consistent(t)
    ensures Consistent(Submitted(t, c, content)) && Grows(t, Submitted(t, c, content))
  {
    forall j <- t.schedules ensures ScheduleOk(Submitted(t, c, content), j) {
      assert ScheduleOk(t, j);
      ScheduleStays(t, Submitted(t, c, content), j);
    }
  }

  lemma StepKeeps(t: Tables, e: Tick)
    requires Consistent(t)
    ensures Consistent(After(t, e)) && Grows(t, After(t, e))
  {
    match e
    case Creating(i, anchor, seconds, content, next, status, at) =>
      CreatedKeeps(t, i, anchor, seconds, content, next, status, at);
    case Dispatching(now, _, _, roots) =>
      if Dispatchable(t, e) {
        DispatchesKeeps(t, ReadyIn(t, e), roots, now);
      }
    case Moving(i, target, at) =>
      if i in t.schedules {
        StatusKeeps(t, i, target, at);
      }
    case Ending(c) => EndedKeeps(t, c);
    case Submitting(c, content) => SubmissionKeeps(t, c, content);
  }

  function Run(t: Tables, ticks: seq<Tick>): Tables
    decreases |ticks|
  {
    if ticks == [] then t else Run(After(t, ticks[0]), ticks[1..])
  }

  lemma {:induction false} RunKeeps(t: Tables, ticks: seq<Tick>)
    requires Consistent(t)
    ensures Consistent(Run(t, ticks)) && Grows(t, Run(t, ticks))
    decreases |ticks|
  {
    if ticks == [] {
    } else {
      StepKeeps(t, ticks[0]);
      RunKeeps(After(t, ticks[0]), ticks[1..]);
      GrowsComposes(t, After(t, ticks[0]), Run(t, ticks));
    }
  }

  lemma {:induction false} RunSplits(t: Tables, ticks: seq<Tick>, n: nat)
    requires n <= |ticks|
    ensures Run(t, ticks) == Run(Run(t, ticks[..n]), ticks[n..])
    decreases n
  {
    if n == 0 {
      assert ticks[..0] == [] && ticks[0..] == ticks;
    } else {
      RunSplits(After(t, ticks[0]), ticks[1..], n - 1);
      assert ticks[..n][1..] == ticks[1..][..n - 1] && ticks[1..][n - 1..] == ticks[n..];
    }
  }

  /**
   * Over every run the dispatched slots of a schedule strictly increase, lie on its grid and before its next due time,
   * and later ticks only append to them.
   */
  lemma SlotsIncrease(ticks: seq<Tick>, n: nat, i: ScheduleId)
    requires n <= |ticks| && i in Run(EMPTY, ticks[..n]).schedules
    ensures var early, late := Run(EMPTY, ticks[..n]), Run(EMPTY, ticks);
            && i in late.schedules && Dues(early, i) <= Dues(late, i)
            && SameSchedule(early.schedules[i], late.schedules[i])
            && Increasing(Dues(late, i))
            && (forall due <- Dues(late, i) :: late.schedules[i].OnSlot(due) && due < late.schedules[i].next)
  {
    RunKeeps(EMPTY, ticks[..n]);
    RunSplits(EMPTY, ticks, n);
    RunKeeps(Run(EMPTY, ticks[..n]), ticks[n..]);
    var late := Run(EMPTY, ticks);
    assert ScheduleOk(late, i);
  }

  // ----- Commands -----

  function Foreign(ticks: seq<Tick>): set<CommandId> {
    if ticks == [] then {}
    else (if ticks[0].Submitting? then {ticks[0].c} else {}) + Foreign(ticks[1..])
  }

  /** Every Command of a schedule was submitted by someone else or is one of its dispatches. */
  ghost predicate Accounted(t: Tables, foreign: set<CommandId>) {
    forall c <- t.commands :: c in foreign || (c.schedule in t.schedules && c.due in Dues(t, c.schedule))
  }

  lemma DispatchesAccount(t: Tables, d: set<ScheduleId>, now: Time, foreign: set<CommandId>)
    requires Accounted(t, foreign) && d <= t.schedules.Keys
    ensures Accounted(Dispatches(t, d, now), foreign)
  {
    var next := Dispatches(t, d, now);
    forall c <- next.commands | c !in foreign ensures c.schedule in next.schedules && c.due in Dues(next, c.schedule) {
      DispatchedDues(t, d, now, c.schedule);
      if c !in t.commands {
        assert c in NewCommands(t, d);
        var i :| i in d && c == CommandId(i, t.schedules[i].next);
        assert Dues(next, i)[|Dues(t, i)|] == c.due;
      }
    }
  }

  lemma StepAccounts(t: Tables, e: Tick, foreign: set<CommandId>)
    requires Consistent(t) && Accounted(t, foreign)
    ensures Accounted(After(t, e), foreign + Foreign([e]))
  {
    assert [e][1..] == [];
    if Dispatchable(t, e) {
      DispatchesAccount(t, ReadyIn(t, e), e.now, foreign);
    } else {
      StepKeeps(t, e);
      var next := After(t, e);
      forall c <- next.commands | c !in foreign + Foreign([e])
        ensures c.schedule in next.schedules && c.due in Dues(next, c.schedule)
      {
        assert c in t.commands;
      }
    }
  }

  lemma {:induction false} RunAccounts(t: Tables, ticks: seq<Tick>, foreign: set<CommandId>)
    requires Consistent(t) && Accounted(t, foreign)
    ensures Accounted(Run(t, ticks), foreign + Foreign(ticks))
    decreases |ticks|
  {
    if ticks == [] {
      assert foreign + {} == foreign;
    } else {
      StepKeeps(t, ticks[0]);
      StepAccounts(t, ticks[0], foreign);
      assert [ticks[0]][1..] == [];
      RunAccounts(After(t, ticks[0]), ticks[1..], foreign + Foreign([ticks[0]]));
      assert foreign + Foreign([ticks[0]]) + Foreign(ticks[1..]) == foreign + Foreign(ticks);
    }
  }

  predicate Open(t: Tables, c: CommandId) { c in t.commands && !t.commands[c].terminal }

  /**
   * Over every run, of the Commands of a schedule that nobody else submitted at most one is open; it is that of the
   * newest dispatched slot, and every dispatched slot has its Command.
   */
  lemma OneOpenCommand(ticks: seq<Tick>, i: ScheduleId)
    ensures var t := Run(EMPTY, ticks);
            && (forall c :: Open(t, c) && c.schedule == i && c !in Foreign(ticks) ==>
                  Dues(t, i) != [] && c == CommandId(i, Dues(t, i)[|Dues(t, i)| - 1]))
            && (i in t.schedules ==> forall due <- Dues(t, i) :: CommandId(i, due) in t.commands)
  {
    var t := Run(EMPTY, ticks);
    RunKeeps(EMPTY, ticks);
    RunAccounts(EMPTY, ticks, {});
    assert {} + Foreign(ticks) == Foreign(ticks);
    forall c | Open(t, c) && c.schedule == i && c !in Foreign(ticks)
      ensures Dues(t, i) != [] && c == CommandId(i, Dues(t, i)[|Dues(t, i)| - 1])
    {
      assert ScheduleOk(t, i);
      var x :| 0 <= x < |Dues(t, i)| && Dues(t, i)[x] == c.due;
      assert x < |Dues(t, i)| - 1 ==> Ended(t, CommandId(i, Dues(t, i)[x]));
    }
    if i in t.schedules {
      assert ScheduleOk(t, i);
    }
  }

  /** Even with other people's Commands in the way, at most one dispatched slot of a schedule is open: the newest. */
  lemma OneOpenDispatch(ticks: seq<Tick>, i: ScheduleId, x: nat)
    requires var t := Run(EMPTY, ticks); x < |Dues(t, i)| && Open(t, CommandId(i, Dues(t, i)[x]))
    ensures x == |Dues(Run(EMPTY, ticks), i)| - 1
  {
    RunKeeps(EMPTY, ticks);
    var t := Run(EMPTY, ticks);
    assert i in t.dispatches && ScheduleOk(t, i);
    assert x < |Dues(t, i)| - 1 ==> Ended(t, CommandId(i, Dues(t, i)[x]));
  }

  /** And no target ever has two schedules that are not disabled. */
  lemma OneSchedulePerTarget(ticks: seq<Tick>, i: ScheduleId, j: ScheduleId)
    requires var t := Run(EMPTY, ticks);
             && i in t.schedules && j in t.schedules && t.schedules[i].content == t.schedules[j].content
             && !t.schedules[i].status.DisabledSync? && !t.schedules[j].status.DisabledSync?
    ensures i == j
  {
    RunKeeps(EMPTY, ticks);
  }
}
