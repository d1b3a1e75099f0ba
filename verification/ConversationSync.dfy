/**
 * Conversation sync schedules: coalescing dispatch in closed form and one open Command per schedule
 * (domain/conversation_sync.py, application/conversation_sync_scheduling.py).
 */
module ConversationSync {
  import opened Prelude

  const SECOND := 1_000_000
  const MIN_INTERVAL := 900
  const MAX_INTERVAL := 2_592_000
  const MAX_BATCH := 100

  type ScheduleId = nat

  datatype Status = ActiveSync | PausedSync | DisabledSync

  /** A schedule row; `content` stands for the account, the post and the kind of sync. */
  datatype Schedule = Schedule(
    anchor: Time,
    seconds: int,
    content: nat,
    next: Time,
    status: Status,
    revision: int,
    last: Option<Time>,
    updated: Time)
  {
    function Step(): int { seconds * SECOND }

    function Slot(n: int): Time { anchor + n * Step() }

    ghost predicate OnSlot(at: Time) { exists n: nat :: n >= 1 && at == Slot(n) }

    /** What the constructor checks, without the texts. */
    ghost predicate Valid() {
      && MIN_INTERVAL <= seconds <= MAX_INTERVAL && revision >= 1
      && OnSlot(next)
      && (last.Some? ==> last.value < next && OnSlot(last.value))
    }

    /** The slot after a dispatch at `now`, by floor division. */
    function NextAfter(now: Time): Time
      requires seconds > 0
    { next + ((now - next) / Step() + 1) * Step() }

    function Dispatched(now: Time): Result<Schedule, Error>
      requires seconds > 0
    {
      if !status.ActiveSync? then Failure(NotActive)
      else if next > now then Failure(NotDue)
      else if updated > now then Failure(TimeMovedBackwards)
      else Success(this.(next := NextAfter(now), last := Some(next), updated := now))
    }

    function Moved(target: Status, at: Time): Result<Schedule, Error> {
      if !((status.ActiveSync? && !target.ActiveSync?) || (status.PausedSync? && !target.PausedSync?)) then
        Failure(InvalidTransition)
      else if at < updated then Failure(TimeMovedBackwards)
      else Success(this.(status := target, revision := revision + 1, updated := at))
    }
  }

  datatype Error = NotActive | NotDue | TimeMovedBackwards | InvalidTransition | InvalidLimit | CommandConflict | CommandMissing
                 | ScheduleExists | InvalidSchedule

  // ----- the closed form -----

  /** One interval at a time until strictly after `now`. */
  function Walk(at: Time, now: Time, step: int): Time
    requires step > 0
    decreases now - at + step
  {
    if at > now then at else Walk(at + step, now, step)
  }

  lemma {:induction false} WalkIsDivision(at: Time, now: Time, step: int)
    requires step > 0 && at <= now
    ensures Walk(at, now, step) == at + ((now - at) / step + 1) * step
    decreases now - at
  {
    if at + step <= now {
      WalkIsDivision(at + step, now, step);
      var d, e := now - at, now - (at + step);
      assert d == e + step;
      DivisionStep(e, step);
      assert (e / step + 2) * step == (e / step + 1) * step + step;
    } else {
      assert 0 <= now - at < step;
      assert (now - at) / step == 0;
    }
  }

  lemma DivisionStep(e: int, step: int)
    requires step > 0 && e >= 0
    ensures (e + step) / step == e / step + 1
  {
    var q, r := e / step, e % step;
    var q', r' := (e + step) / step, (e + step) % step;
    assert e == q * step + r && e + step == q' * step + r';
    assert (q' - (q + 1)) * step == r - r';
    NoSmallMultiple(q' - (q + 1), step);
  }

  lemma NoSmallMultiple(x: int, step: int)
    requires step > 0 && -step < x * step < step
    ensures x == 0
  {
    if x >= 1 {
      TimesAtLeast(x, step);
    }
  }

  lemma {:induction false} WalkIsLeast(at: Time, now: Time, step: int, n: int)
    requires step > 0
    ensures Walk(at, now, step) > now || at > now
    ensures n >= 0 && at + n * step > now ==> Walk(at, now, step) <= at + n * step
    ensures exists m: nat :: Walk(at, now, step) == at + m * step
    decreases now - at + step
  {
    if at > now {
      assert at == at + 0 * step;
      if n >= 0 {
        assert n * step >= 0;
      }
    } else {
      WalkIsLeast(at + step, now, step, n - 1);
      assert at + step + (n - 1) * step == at + n * step;
      var m: nat :| Walk(at + step, now, step) == at + step + m * step;
      assert at + step + m * step == at + (m + 1) * step;
      if n == 0 {
        assert n * step == 0;
      }
    }
  }

  /** The dispatch step equals repeated addition: the new due time is the least aligned slot after `now`. */
  lemma DispatchIsLeastSlot(s: Schedule, now: Time, n: int)
    requires s.Valid() && s.next <= now
    ensures s.NextAfter(now) == Walk(s.next, now, s.Step())
    ensures s.NextAfter(now) > now && s.OnSlot(s.NextAfter(now))
    ensures s.Slot(n) > now ==> s.NextAfter(now) <= s.Slot(n)
  {
    var step := s.Step();
    WalkIsDivision(s.next, now, step);
    var k: nat :| k >= 1 && s.next == s.Slot(k);
    WalkIsLeast(s.next, now, step, n - k);
    assert s.Slot(n) == s.next + (n - k) * step;
    var m: nat :| Walk(s.next, now, step) == s.next + m * step;
    assert s.next + m * step == s.Slot(k + m);
    if n < k {
      TimesAtLeast(k - n, step);
      assert s.Slot(n) == s.next - (k - n) * step;
    }
  }

  lemma DispatchKeepsValid(s: Schedule, now: Time)
    requires s.Valid() && s.Dispatched(now).Success?
    ensures s.Dispatched(now).value.Valid()
  {
    var d := s.Dispatched(now).value;
    DispatchIsLeastSlot(s, now, 0);
    var n: nat :| n >= 1 && s.NextAfter(now) == s.Slot(n);
    assert d.Slot(n) == s.Slot(n);
    var k: nat :| k >= 1 && s.next == s.Slot(k);
    assert d.Slot(k) == s.Slot(k);
  }

  /** The mutable schedule object. */
  class SyncSchedule {
    const anchor: Time
    const seconds: int
    const content: nat
    var next: Time
    var status: Status
    var revision: int
    var last: Option<Time>
    var updated: Time

    function Row(): Schedule
      reads this
    {
      Schedule(anchor, seconds, content, next, status, revision, last, updated)
    }

    constructor Load(row: Schedule)
      ensures Row() == row
    {
      anchor, seconds, content := row.anchor, row.seconds, row.content;
      next, status, revision, last, updated := row.next, row.status, row.revision, row.last, row.updated;
    }

    method Dispatch(now: Time) returns (r: Result<Time, Error>)
      requires Row().Valid()
      modifies this
      ensures match old(Row()).Dispatched(now)
              case Failure(e) => r == Failure(e) && Row() == old(Row())
              case Success(row) => r == Success(old(next)) && Row() == row && Row().Valid()
    {
      var due := next;
      if !status.ActiveSync? {
        return Failure(NotActive);
      }
      if due > now {
        return Failure(NotDue);
      }
      if updated > now {
        return Failure(TimeMovedBackwards);
      }
      DispatchKeepsValid(Row(), now);
      var step := seconds * SECOND;
      var elapsed := (now - due) / step;
      next := due + (elapsed + 1) * step;
      last := Some(due);
      updated := now;
      r := Success(due);
    }

    method Transition(target: Status, at: Time) returns (r: Result<(), Error>)
      modifies this
      ensures match old(Row()).Moved(target, at)
              case Failure(e) => r == Failure(e) && Row() == old(Row())
              case Success(row) => r == Success(()) && Row() == row
    {
      if !((status.ActiveSync? && !target.ActiveSync?) || (status.PausedSync? && !target.PausedSync?)) {
        return Failure(InvalidTransition);
      }
      if at < updated {
        return Failure(TimeMovedBackwards);
      }
      status, revision, updated := target, revision + 1, at;
      r := Success(());
    }
  }

  // ----- dispatching -----

  /** The deterministic identity `conversation-sync:<schedule>:<due>`. */
  datatype CommandId = CommandId(schedule: ScheduleId, due: Time)

  datatype SyncCommand = SyncCommand(content: nat, terminal: bool)

  datatype Tables = Tables(
    schedules: map<ScheduleId, Schedule>,
    dispatches: map<ScheduleId, seq<Time>>,  // due times, oldest first
    commands: map<CommandId, SyncCommand>)

  function Dues(t: Tables, i: ScheduleId): seq<Time> { if i in t.dispatches then t.dispatches[i] else [] }

  ghost predicate Increasing(dues: seq<Time>) { forall x, y :: 0 <= x < y < |dues| ==> dues[x] < dues[y] }

  predicate Ended(t: Tables, c: CommandId) { c in t.commands && t.commands[c].terminal }

  const EMPTY := Tables(map[], map[], map[])

  /** Dispatched slots strictly increase up to the recorded last one, and only its Command may still be open. */
  ghost predicate ScheduleOk(t: Tables, i: ScheduleId) {
    && i in t.schedules && t.schedules[i].Valid()
    && var s, dues := t.schedules[i], Dues(t, i);
    && Increasing(dues)
    && s.last == (if dues == [] then None else Some(dues[|dues| - 1]))
    && (forall x :: 0 <= x < |dues| ==> s.OnSlot(dues[x]) && CommandId(i, dues[x]) in t.commands)
    && (forall x :: 0 <= x < |dues| - 1 ==> Ended(t, CommandId(i, dues[x])))
  }

  /** One schedule per target, unless it is disabled. */
  predicate OnePerTarget(t: Tables) {
    forall i, j | i in t.schedules && j in t.schedules ::
      (t.schedules[i].content == t.schedules[j].content && !t.schedules[i].status.DisabledSync? && !t.schedules[j].status.DisabledSync?)
      ==> i == j
  }

  ghost predicate Consistent(t: Tables) {
    && (forall i {:trigger ScheduleOk(t, i)} | i in t.schedules :: ScheduleOk(t, i))
    && (forall i <- t.dispatches :: i in t.schedules) && OnePerTarget(t)
  }

  /** What no call undoes: configurations are fixed, histories grow at the end, Commands stay, what ended stays ended. */
  ghost predicate Grows(t: Tables, next: Tables) {
    && (forall i <- t.schedules :: i in next.schedules && Dues(t, i) <= Dues(next, i) && SameSchedule(t.schedules[i], next.schedules[i]))
    && (forall c <- t.commands ::
          c in next.commands && next.commands[c].content == t.commands[c].content
          && (t.commands[c].terminal ==> next.commands[c].terminal))
  }

  predicate SameSchedule(s: Schedule, next: Schedule) {
    && next.anchor == s.anchor && next.seconds == s.seconds && next.content == s.content && next.revision >= s.revision
    && (s.status.DisabledSync? ==> next.status.DisabledSync?)
  }

  lemma GrowsComposes(a: Tables, b: Tables, c: Tables)
    requires Grows(a, b) && Grows(b, c)
    ensures Grows(a, c)
  {
    forall i <- a.schedules ensures i in c.schedules && Dues(a, i) <= Dues(c, i) && SameSchedule(a.schedules[i], c.schedules[i]) {
      assert i in b.schedules && Dues(a, i) <= Dues(b, i) <= Dues(c, i);
    }
    forall k <- a.commands ensures k in c.commands && c.commands[k].content == a.commands[k].content
                                   && (a.commands[k].terminal ==> c.commands[k].terminal) {
      assert k in b.commands;
    }
  }

  lemma SameSlots(s: Schedule, row: Schedule)
    requires row.anchor == s.anchor && row.seconds == s.seconds
    ensures forall at :: row.OnSlot(at) <==> s.OnSlot(at)
  {
    forall at ensures row.OnSlot(at) <==> s.OnSlot(at) {
      assert forall n :: row.Slot(n) == s.Slot(n);
    }
  }

  /** A schedule is in order as long as its row, its history and its own Commands are. */
  lemma ScheduleStays(t: Tables, next: Tables, i: ScheduleId)
    requires ScheduleOk(t, i) && i in next.schedules && next.schedules[i] == t.schedules[i] && Dues(next, i) == Dues(t, i)
    requires forall c <- t.commands :: c.schedule == i ==> c in next.commands && (t.commands[c].terminal ==> next.commands[c].terminal)
    ensures ScheduleOk(next, i)
  {
  }

  // ----- a dispatch tick, all at once -----

  /** Active, due, with a post, and with its last Command ended. */
  predicate Ready(t: Tables, i: ScheduleId, roots: set<ScheduleId>, now: Time) {
    && i in t.schedules && t.schedules[i].status.ActiveSync? && t.schedules[i].next <= now && i in roots
    && var dues := Dues(t, i); (dues != [] ==> Ended(t, CommandId(i, dues[|dues| - 1])))
  }

  function ReadyAmong(t: Tables, list: seq<ScheduleId>, roots: set<ScheduleId>, now: Time): set<ScheduleId> {
    set i | i in list && Ready(t, i, roots, now)
  }

  /** The identity is taken by a Command with another content. */
  predicate Taken(t: Tables, i: ScheduleId)
    requires i in t.schedules
  {
    var c := CommandId(i, t.schedules[i].next);
    c in t.commands && t.commands[c].content != t.schedules[i].content
  }

  /** Why a ready schedule aborts the tick. */
  function Refusal(t: Tables, i: ScheduleId, now: Time): Option<Error>
    requires i in t.schedules
  {
    if Taken(t, i) then Some(CommandConflict) else if t.schedules[i].updated > now then Some(TimeMovedBackwards) else None
  }

  function Redated(s: Schedule, now: Time): Schedule {
    s.(next := if s.seconds > 0 then s.NextAfter(now) else s.next, last := Some(s.next), updated := now)
  }

  function NewCommands(t: Tables, d: set<ScheduleId>): map<CommandId, SyncCommand>
    requires d <= t.schedules.Keys
  {
    map i | i in d :: CommandId(i, t.schedules[i].next) := SyncCommand(t.schedules[i].content, false)
  }

  /** Each schedule of `d` gains exactly the slot it stood at and moves on; every other is as it was. */
  function Dispatches(t: Tables, d: set<ScheduleId>, now: Time): Tables
    requires d <= t.schedules.Keys
  {
    Tables(
      map i | i in t.schedules :: if i in d then Redated(t.schedules[i], now) else t.schedules[i],
      map i | i in t.dispatches.Keys + d :: if i in d then Dues(t, i) + [t.schedules[i].next] else t.dispatches[i],
      NewCommands(t, d) + t.commands)
  }

  lemma DispatchedDues(t: Tables, d: set<ScheduleId>, now: Time, i: ScheduleId)
    requires d <= t.schedules.Keys
    ensures Dues(Dispatches(t, d, now), i) == if i in d then Dues(t, i) + [t.schedules[i].next] else Dues(t, i)
    ensures forall c <- t.commands ::
              c in Dispatches(t, d, now).commands && Dispatches(t, d, now).commands[c] == t.commands[c]
    ensures i in d ==> CommandId(i, t.schedules[i].next) in Dispatches(t, d, now).commands
  {
    if i in d {
      assert CommandId(i, t.schedules[i].next) in NewCommands(t, d);
    }
  }

  lemma DispatchedScheduleOk(t: Tables, d: set<ScheduleId>, now: Time, i: ScheduleId)
    requires ScheduleOk(t, i) && d <= t.schedules.Keys && i in d && t.schedules[i].next <= now
    requires Dues(t, i) != [] ==> Ended(t, CommandId(i, Dues(t, i)[|Dues(t, i)| - 1]))
    ensures ScheduleOk(Dispatches(t, d, now), i)
  {
    var s, next := t.schedules[i], Dispatches(t, d, now);
    var row := next.schedules[i];
    RedatedIsValid(s, now);
    SameSlots(s, row);
    DispatchedDues(t, d, now, i);
  }

  lemma RedatedIsValid(s: Schedule, now: Time)
    requires s.Valid() && s.next <= now
    ensures Redated(s, now).Valid()
  {
    DispatchIsLeastSlot(s, now, 0);
    SameSlots(s, Redated(s, now));
  }

  lemma DispatchesKeeps(t: Tables, d: set<ScheduleId>, roots: set<ScheduleId>, now: Time)
    requires Consistent(t) && d <= t.schedules.Keys && forall i <- d :: Ready(t, i, roots, now)
    ensures Consistent(Dispatches(t, d, now)) && Grows(t, Dispatches(t, d, now))
  {
    var next := Dispatches(t, d, now);
    forall i <- next.schedules ensures ScheduleOk(next, i) && Dues(t, i) <= Dues(next, i) {
      EachDispatchedOk(t, d, roots, now, i);
    }
    DispatchedDues(t, d, now, 0);
    DispatchesKeepTargets(t, d, now);
  }

  lemma DispatchesKeepTargets(t: Tables, d: set<ScheduleId>, now: Time)
    requires OnePerTarget(t) && d <= t.schedules.Keys
    ensures OnePerTarget(Dispatches(t, d, now))
  {
    var next := Dispatches(t, d, now);
    assert forall i <- next.schedules ::
        next.schedules[i].content == t.schedules[i].content && next.schedules[i].status == t.schedules[i].status;
  }

  lemma EachDispatchedOk(t: Tables, d: set<ScheduleId>, roots: set<ScheduleId>, now: Time, i: ScheduleId)
    requires Consistent(t) && d <= t.schedules.Keys && (i in d ==> Ready(t, i, roots, now)) && i in t.schedules
    ensures var next := Dispatches(t, d, now); ScheduleOk(next, i) && Dues(t, i) <= Dues(next, i)
  {
    assert ScheduleOk(t, i);
    DispatchedDues(t, d, now, i);
    if i in d {
      DispatchedScheduleOk(t, d, now, i);
    } else {
      ScheduleStays(t, Dispatches(t, d, now), i);
    }
  }

  // ----- the dispatch loop -----

  /** One due schedule: left alone while its last Command is open or its post is missing, otherwise dispatched. */
  function DispatchOne(t: Tables, i: ScheduleId, hasRoot: bool, now: Time): Result<Tables, Error>
    requires i in t.schedules && t.schedules[i].seconds > 0
  {
    var s, dues := t.schedules[i], Dues(t, i);
    if dues != [] && CommandId(i, dues[|dues| - 1]) !in t.commands then Failure(CommandMissing)
    else if dues != [] && !Ended(t, CommandId(i, dues[|dues| - 1])) then Success(t)
    else if !hasRoot then Success(t)
    else
      var c := CommandId(i, s.next);
      if c in t.commands && t.commands[c].content != s.content then Failure(CommandConflict)
      else
        match s.Dispatched(now)
        case Failure(e) => Failure(e)
        case Success(row) =>
          Success(Tables(
                    t.schedules[i := row],
                    t.dispatches[i := dues + [s.next]],
                    if c in t.commands then t.commands else t.commands[c := SyncCommand(s.content, false)]))
  }

  /** The loop body on one row. */
  function Looked(t: Tables, i: ScheduleId, roots: set<ScheduleId>, now: Time): Result<Tables, Error> {
    if i in t.schedules && t.schedules[i].status.ActiveSync? && t.schedules[i].next <= now && t.schedules[i].seconds > 0
    then DispatchOne(t, i, i in roots, now)
    else Success(t)
  }

  lemma DispatchOneIs(t: Tables, d: set<ScheduleId>, i: ScheduleId, roots: set<ScheduleId>, now: Time)
    requires Consistent(t) && d <= t.schedules.Keys && i in t.schedules && i !in d
    ensures var tx := Dispatches(t, d, now);
            Looked(tx, i, roots, now)
            == if !Ready(t, i, roots, now) then Success(tx)
               else if Refusal(t, i, now).Some? then Failure(Refusal(t, i, now).value)
               else Success(Dispatches(t, d + {i}, now))
  {
    var tx := Dispatches(t, d, now);
    assert ScheduleOk(t, i);
    DispatchedDues(t, d, now, i);
    OwnCommands(t, d, now, i);
    if Ready(t, i, roots, now) && Refusal(t, i, now).None? {
      DispatchesGrow(t, d, now, i);
    }
  }

  lemma OwnCommands(t: Tables, d: set<ScheduleId>, now: Time, i: ScheduleId)
    requires d <= t.schedules.Keys && i !in d
    ensures forall c: CommandId :: c.schedule == i ==>
              && (c in Dispatches(t, d, now).commands <==> c in t.commands)
              && (c in t.commands ==> Dispatches(t, d, now).commands[c] == t.commands[c])
  {
  }

  lemma DispatchesGrow(t: Tables, d: set<ScheduleId>, now: Time, i: ScheduleId)
    requires d <= t.schedules.Keys && i in t.schedules && i !in d
    ensures var tx, s, c := Dispatches(t, d, now), t.schedules[i], CommandId(i, t.schedules[i].next);
            Dispatches(t, d + {i}, now)
            == Tables(
                 tx.schedules[i := Redated(s, now)],
                 tx.dispatches[i := Dues(t, i) + [s.next]],
                 if c in t.commands then tx.commands else tx.commands[c := SyncCommand(s.content, false)])
  {
    var tx, s, c := Dispatches(t, d, now), t.schedules[i], CommandId(i, t.schedules[i].next);
    var next := Dispatches(t, d + {i}, now);
    assert next.schedules == tx.schedules[i := Redated(s, now)];
    assert next.dispatches == tx.dispatches[i := Dues(t, i) + [s.next]];
    CommandsGrow(t, d, i);
  }

  lemma CommandsGrow(t: Tables, d: set<ScheduleId>, i: ScheduleId)
    requires d <= t.schedules.Keys && i in t.schedules && i !in d
    ensures var c := CommandId(i, t.schedules[i].next);
            NewCommands(t, d + {i}) + t.commands
            == if c in t.commands then NewCommands(t, d) + t.commands
               else (NewCommands(t, d) + t.commands)[c := SyncCommand(t.schedules[i].content, false)]
  {
    var c := CommandId(i, t.schedules[i].next);
    assert NewCommands(t, d + {i}) == NewCommands(t, d)[c := SyncCommand(t.schedules[i].content, false)];
  }

  /** A schedule that this tick has dispatched is not due again. */
  lemma DispatchedIsDone(t: Tables, d: set<ScheduleId>, now: Time, i: ScheduleId, roots: set<ScheduleId>)
    requires Consistent(t) && d <= t.schedules.Keys && i in d && t.schedules[i].next <= now
    ensures Looked(Dispatches(t, d, now), i, roots, now) == Success(Dispatches(t, d, now))
  {
    assert ScheduleOk(t, i);
    DispatchIsLeastSlot(t.schedules[i], now, 0);
  }

  lemma RowAfter(t: Tables, list: seq<ScheduleId>, i: ScheduleId, roots: set<ScheduleId>, now: Time)
    requires Consistent(t)
    ensures var d := ReadyAmong(t, list, roots, now);
            var tx := Dispatches(t, d, now);
            match Looked(tx, i, roots, now)
            case Failure(e) => Ready(t, i, roots, now) && Refusal(t, i, now) == Some(e)
            case Success(next) =>
              && next == Dispatches(t, ReadyAmong(t, list + [i], roots, now), now)
              && (i !in d && Ready(t, i, roots, now) ==> Refusal(t, i, now).None?)
              && |ReadyAmong(t, list + [i], roots, now)| == |d| + (if next == tx then 0 else 1)
  {
    var d := ReadyAmong(t, list, roots, now);
    ReadyGrows(t, list, i, roots, now);
    if i in d {
      DispatchedIsDone(t, d, now, i, roots);
    } else if i in t.schedules {
      DispatchOneIs(t, d, i, roots, now);
      DispatchShows(t, d, now, i);
    }
  }

  lemma ReadyGrows(t: Tables, list: seq<ScheduleId>, i: ScheduleId, roots: set<ScheduleId>, now: Time)
    ensures var d := ReadyAmong(t, list, roots, now);
            ReadyAmong(t, list + [i], roots, now) == if Ready(t, i, roots, now) && i !in d then d + {i} else d
  {
  }

  lemma DispatchShows(t: Tables, d: set<ScheduleId>, now: Time, i: ScheduleId)
    requires d <= t.schedules.Keys && i in t.schedules && i !in d
    ensures Dispatches(t, d + {i}, now) != Dispatches(t, d, now)
  {
    DispatchedDues(t, d, now, i);
    DispatchedDues(t, d + {i}, now, i);
  }

  /** What the loop has done after `n` rows. */
  ghost predicate LoopAt(t: Tables, tx: Tables, done: nat, rows: seq<ScheduleId>, n: nat, roots: set<ScheduleId>, now: Time)
    requires n <= |rows|
  {
    var d := ReadyAmong(t, rows[..n], roots, now);
    tx == Dispatches(t, d, now) && done == |d| && forall i <- d :: Refusal(t, i, now).None?
  }

  lemma OneMoreRow(t: Tables, tx: Tables, done: nat, rows: seq<ScheduleId>, n: nat, roots: set<ScheduleId>, now: Time)
    requires Consistent(t) && n < |rows| && LoopAt(t, tx, done, rows, n, roots, now)
    ensures match Looked(tx, rows[n], roots, now)
            case Failure(e) =>
              rows[n] in ReadyAmong(t, rows, roots, now) && Refusal(t, rows[n], now) == Some(e)
            case Success(next) => LoopAt(t, next, if next == tx then done else done + 1, rows, n + 1, roots, now)
    ensures rows[n] in tx.schedules ==> tx.schedules[rows[n]].seconds > 0
  {
    assert rows[..n + 1] == rows[..n] + [rows[n]];
    RowAfter(t, rows[..n], rows[n], roots, now);
    ReadyGrows(t, rows[..n], rows[n], roots, now);
    SecondsArePositive(t, ReadyAmong(t, rows[..n], roots, now), now);
  }

  lemma LoopDone(t: Tables, tx: Tables, done: nat, rows: seq<ScheduleId>, roots: set<ScheduleId>, now: Time)
    requires Consistent(t) && LoopAt(t, tx, done, rows, |rows|, roots, now)
    ensures var ready := ReadyAmong(t, rows, roots, now);
            tx == Dispatches(t, ready, now) && done == |ready| && forall i <- ready :: Refusal(t, i, now).None?
    ensures Consistent(tx) && Grows(t, tx)
  {
    assert rows[..|rows|] == rows;
    DispatchesKeeps(t, ReadyAmong(t, rows, roots, now), roots, now);
  }

  // ----- creating and moving schedules -----

  /** A new schedule: the constructor's checks, a fresh id, and one schedule per target unless it is disabled. */
  function Created(t: Tables, i: ScheduleId, anchor: Time, seconds: int, content: nat, next: Time, status: Status, at: Time)
    : Result<Tables, Error>
  {
    if !(MIN_INTERVAL <= seconds <= MAX_INTERVAL) || next <= anchor || (next - anchor) % (seconds * SECOND) != 0 then
      Failure(InvalidSchedule)
    else if i in t.schedules
            || (!status.DisabledSync? && exists j <- t.schedules ::
                  t.schedules[j].content == content && !t.schedules[j].status.DisabledSync?) then
      Failure(ScheduleExists)
    else
      Success(t.(schedules := t.schedules[i := Schedule(anchor, seconds, content, next, status, 1, None, at)]))
  }

  lemma SlotOfMultiple(s: Schedule)
    requires s.seconds > 0 && s.next > s.anchor && (s.next - s.anchor) % s.Step() == 0
    ensures s.OnSlot(s.next)
  {
    var n := (s.next - s.anchor) / s.Step();
    assert s.next - s.anchor == n * s.Step();
    assert n <= 0 ==> n * s.Step() <= 0;
    assert s.next == s.Slot(n);
  }

  lemma CreatedKeeps(t: Tables, i: ScheduleId, anchor: Time, seconds: int, content: nat, next: Time, status: Status, at: Time)
    requires Consistent(t)
    ensures var c := Created(t, i, anchor, seconds, content, next, status, at);
            c.Success? ==> Consistent(c.value) && Grows(t, c.value)
  {
    var c := Created(t, i, anchor, seconds, content, next, status, at);
    if c.Success? {
      NewScheduleKeeps(t, i, c.value.schedules[i]);
    }
  }

  lemma NewScheduleKeeps(t: Tables, i: ScheduleId, s: Schedule)
    requires Consistent(t) && i !in t.schedules
    requires MIN_INTERVAL <= s.seconds <= MAX_INTERVAL && s.next > s.anchor && (s.next - s.anchor) % s.Step() == 0
    requires s.revision == 1 && s.last.None?
    requires !s.status.DisabledSync? ==>
               forall j <- t.schedules :: t.schedules[j].content == s.content ==> t.schedules[j].status.DisabledSync?
    ensures var next := t.(schedules := t.schedules[i := s]); Consistent(next) && Grows(t, next)
  {
    var next := t.(schedules := t.schedules[i := s]);
    SlotOfMultiple(s);
    assert Dues(t, i) == [];
    forall j <- next.schedules ensures ScheduleOk(next, j) {
      if j != i {
        assert ScheduleOk(t, j);
        ScheduleStays(t, next, j);
      }
    }
  }

  function WithStatus(t: Tables, i: ScheduleId, target: Status, at: Time): Result<Tables, Error>
    requires i in t.schedules
  {
    var row :- t.schedules[i].Moved(target, at);
    Success(t.(schedules := t.schedules[i := row]))
  }

  lemma StatusKeeps(t: Tables, i: ScheduleId, target: Status, at: Time)
    requires Consistent(t) && i in t.schedules
    ensures var c := WithStatus(t, i, target, at); c.Success? ==> Consistent(c.value) && Grows(t, c.value)
  {
    var c := WithStatus(t, i, target, at);
    if c.Success? {
      forall j <- c.value.schedules ensures ScheduleOk(c.value, j) {
        EachMovedOk(t, i, target, at, j);
      }
      StatusKeepsTargets(t, i, c.value);
      StatusGrows(t, i, target, at);
    }
  }

  lemma EachMovedOk(t: Tables, i: ScheduleId, target: Status, at: Time, j: ScheduleId)
    requires Consistent(t) && i in t.schedules && WithStatus(t, i, target, at).Success? && j in t.schedules
    ensures ScheduleOk(WithStatus(t, i, target, at).value, j)
  {
    var next := WithStatus(t, i, target, at).value;
    assert ScheduleOk(t, j);
    if j == i {
      MovedOk(t, next, i);
    } else {
      ScheduleStays(t, next, j);
    }
  }

  lemma StatusGrows(t: Tables, i: ScheduleId, target: Status, at: Time)
    requires i in t.schedules && WithStatus(t, i, target, at).Success?
    ensures Grows(t, WithStatus(t, i, target, at).value)
  {
  }

  lemma MovedOk(t: Tables, next: Tables, i: ScheduleId)
    requires ScheduleOk(t, i) && next == t.(schedules := next.schedules) && i in next.schedules
    requires var s, row := t.schedules[i], next.schedules[i];
             row == s.(status := row.status, revision := row.revision, updated := row.updated) && row.revision >= 1
    ensures ScheduleOk(next, i)
  {
    SameSlots(t.schedules[i], next.schedules[i]);
  }

  lemma StatusKeepsTargets(t: Tables, i: ScheduleId, next: Tables)
    requires OnePerTarget(t) && i in t.schedules && i in next.schedules
    requires next == t.(schedules := t.schedules[i := next.schedules[i]])
    requires next.schedules[i].content == t.schedules[i].content && !t.schedules[i].status.DisabledSync?
    ensures OnePerTarget(next)
  {
  }

  function WithEnded(t: Tables, c: CommandId): Tables {
    if c in t.commands then t.(commands := t.commands[c := t.commands[c].(terminal := true)]) else t
  }

  lemma EndedKeeps(t: Tables, c: CommandId)
    requires Consistent(t)
    ensures Consistent(WithEnded(t, c)) && Grows(t, WithEnded(t, c))
  {
    forall j <- t.schedules ensures ScheduleOk(WithEnded(t, c), j) {
      assert ScheduleOk(t, j);
      ScheduleStays(t, WithEnded(t, c), j);
    }
  }

  class SyncScheduler {
    var t: Tables

    constructor ()
      ensures t == EMPTY && Consistent(t)
    {
      t := EMPTY;
    }

    method Create(i: ScheduleId, anchor: Time, seconds: int, content: nat, next: Time, status: Status, at: Time)
      returns (r: Result<(), Error>)
      requires Consistent(t)
      modifies this
      ensures Consistent(t) && Grows(old(t), t)
      ensures match Created(old(t), i, anchor, seconds, content, next, status, at)
              case Failure(e) => r == Failure(e) && t == old(t)
              case Success(created) => r == Success(()) && t == created && t.schedules[i].Valid()
    {
      var created := Created(t, i, anchor, seconds, content, next, status, at);
      if created.Failure? {
        return Failure(created.error);
      }
      CreatedKeeps(t, i, anchor, seconds, content, next, status, at);
      assert ScheduleOk(created.value, i);
      t := created.value;
      r := Success(());
    }

    /**
     * The dispatch loop over a listing of due schedules, one after the other, is exactly the dispatch of those that are
     * ready; if one of them is refused, everything is rolled back.
     */
    method DispatchDue(now: Time, limit: int, listing: seq<ScheduleId>, roots: set<ScheduleId>)
      returns (r: Result<nat, Error>)
      requires Consistent(t)
      modifies this
      ensures Consistent(t) && Grows(old(t), t)
      ensures !(1 <= limit <= MAX_BATCH) ==> r == Failure(InvalidLimit)
      ensures 1 <= limit <= MAX_BATCH ==>
                var ready := ReadyAmong(old(t), if |listing| < limit then listing else listing[..limit], roots, now);
                && (r.Success? <==> forall i <- ready :: Refusal(old(t), i, now).None?)
                && (r.Success? ==> r.value == |ready| && t == Dispatches(old(t), ready, now))
                && (r.Failure? ==> exists i <- ready :: Refusal(old(t), i, now) == Some(r.error))
      ensures r.Failure? ==> t == old(t)
    {
      if !(1 <= limit <= MAX_BATCH) {
        return Failure(InvalidLimit);
      }
      var rows := if |listing| < limit then listing else listing[..limit];
      var tx, done := t, 0;
      NothingDispatched(t, now, roots);
      for n := 0 to |rows|
        invariant t == old(t) && LoopAt(t, tx, done, rows, n, roots, now)
      {
        var i := rows[n];
        OneMoreRow(t, tx, done, rows, n, roots, now);
        if i in tx.schedules && tx.schedules[i].status.ActiveSync? && tx.schedules[i].next <= now {
          var next := DispatchOne(tx, i, i in roots, now);
          if next.Failure? {
            return Failure(next.error);
          }
          done := if next.value == tx then done else done + 1;
          tx := next.value;
        }
      }
      LoopDone(t, tx, done, rows, roots, now);
      t := tx;
      r := Success(done);
    }

    /** The runtime finishes a Command. */
    method EndCommand(c: CommandId)
      requires Consistent(t)
      modifies this
      ensures Consistent(t) && Grows(old(t), t) && t == WithEnded(old(t), c)
    {
      EndedKeeps(t, c);
      t := WithEnded(t, c);
    }

    /** An operator pauses, resumes or disables a schedule. */
    method Transition(i: ScheduleId, target: Status, at: Time) returns (r: Result<(), Error>)
      requires Consistent(t) && i in t.schedules
      modifies this
      ensures Consistent(t) && Grows(old(t), t)
      ensures match WithStatus(old(t), i, target, at)
              case Failure(e) => r == Failure(e) && t == old(t)
              case Success(next) => r == Success(()) && t == next
    {
      StatusKeeps(t, i, target, at);
      var schedule := new SyncSchedule.Load(t.schedules[i]);
      r := schedule.Transition(target, at);
      if r.Success? {
        t := t.(schedules := t.schedules[i := schedule.Row()]);
      }
    }
  }

  lemma NothingDispatched(t: Tables, now: Time, roots: set<ScheduleId>)
    ensures ReadyAmong(t, [], roots, now) == {} && Dispatches(t, {}, now) == t
  {
    assert Dispatches(t, {}, now).dispatches == t.dispatches;
    assert NewCommands(t, {}) + t.commands == t.commands;
  }

  lemma SecondsArePositive(t: Tables, d: set<ScheduleId>, now: Time)
    requires Consistent(t) && d <= t.schedules.Keys
    ensures forall i <- Dispatches(t, d, now).schedules :: Dispatches(t, d, now).schedules[i].seconds > 0
  {
    forall i <- t.schedules ensures t.schedules[i].seconds > 0 {
      assert ScheduleOk(t, i);
    }
  }
}
