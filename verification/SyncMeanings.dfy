/** What a dispatch tick of conversation syncs takes and leaves, row by row. */
module SyncMeanings {
  import opened Prelude
  import opened ConversationSync

  function LastDue(t: Tables, i: ScheduleId): Option<Time> {
    if i in t.dispatches && t.dispatches[i] != [] then Some(t.dispatches[i][|t.dispatches[i]| - 1]) else None
  }

  /** An active schedule that is due, whose post is known, and whose last Command has ended. */
  predicate MayDispatch(t: Tables, i: ScheduleId, roots: set<ScheduleId>, now: Time) {
    && i in t.schedules && t.schedules[i].status.ActiveSync? && t.schedules[i].next <= now && i in roots
    && match LastDue(t, i)
       case None => true
       case Some(due) => CommandId(i, due) in t.commands && t.commands[CommandId(i, due)].terminal
  }

  /** Its identity is another Command's, or its row is from the future. */
  predicate MustAbort(t: Tables, i: ScheduleId, now: Time) {
    i in t.schedules &&
    var s := t.schedules[i];
    || (CommandId(i, s.next) in t.commands && t.commands[CommandId(i, s.next)].content != s.content)
    || now < s.updated
  }

  lemma ReadyMeans(t: Tables, i: ScheduleId, roots: set<ScheduleId>, now: Time)
    ensures Ready(t, i, roots, now) <==> MayDispatch(t, i, roots, now)
    ensures i in t.schedules ==> (Refusal(t, i, now).Some? <==> MustAbort(t, i, now))
  {
  }

  /** `slot` is the first slot of the schedule's grid after `now`. */
  ghost predicate FirstSlotAfter(s: Schedule, slot: Time, now: Time) {
    && now < slot && s.OnSlot(slot)
    && forall n: int {:trigger s.Slot(n)} :: s.anchor + n * (s.seconds * 1_000_000) > now ==> slot <= s.Slot(n)
  }

  /** The schedule has dispatched the slot it stood at, under its own Command, and waits for the first slot after now. */
  ghost predicate DispatchedAs(t: Tables, next: Tables, i: ScheduleId, now: Time) {
    && i in t.schedules && i in next.schedules
    && var s, n := t.schedules[i], next.schedules[i];
    && n == Schedule(s.anchor, s.seconds, s.content, n.next, s.status, s.revision, Some(s.next), now)
    && FirstSlotAfter(s, n.next, now)
    && i in next.dispatches && next.dispatches[i] == (if i in t.dispatches then t.dispatches[i] else []) + [s.next]
    && CommandId(i, s.next) in next.commands && next.commands[CommandId(i, s.next)].content == s.content
    && (CommandId(i, s.next) !in t.commands ==> !next.commands[CommandId(i, s.next)].terminal)
  }

  ghost predicate LeftAlone(t: Tables, next: Tables, i: ScheduleId) {
    && i in t.schedules && i in next.schedules && next.schedules[i] == t.schedules[i]
    && (i in next.dispatches <==> i in t.dispatches) && (i in t.dispatches ==> next.dispatches[i] == t.dispatches[i])
  }

  lemma DispatchedMeans(t: Tables, d: set<ScheduleId>, now: Time, i: ScheduleId)
    requires Consistent(t) && d <= t.schedules.Keys && i in d && t.schedules[i].next <= now && !MustAbort(t, i, now)
    ensures DispatchedAs(t, Dispatches(t, d, now), i, now)
  {
    var s, next := t.schedules[i], Dispatches(t, d, now);
    assert ScheduleOk(t, i);
    forall n: int | s.Slot(n) > now ensures s.NextAfter(now) <= s.Slot(n) {
      DispatchIsLeastSlot(s, now, n);
    }
    DispatchIsLeastSlot(s, now, 0);
    DispatchedDues(t, d, now, i);
    NewCommandIs(t, d, i);
  }

  lemma NewCommandIs(t: Tables, d: set<ScheduleId>, i: ScheduleId)
    requires d <= t.schedules.Keys && i in d
    ensures var c := CommandId(i, t.schedules[i].next);
            && c in NewCommands(t, d) && NewCommands(t, d)[c] == SyncCommand(t.schedules[i].content, false)
  {
  }

  lemma OtherCommandsStay(t: Tables, d: set<ScheduleId>, now: Time, c: CommandId)
    requires d <= t.schedules.Keys
    ensures c in t.commands ==> c in Dispatches(t, d, now).commands && Dispatches(t, d, now).commands[c] == t.commands[c]
    ensures c in Dispatches(t, d, now).commands && c !in t.commands ==> c.schedule in d && c.due == t.schedules[c.schedule].next
  {
  }

  /**
   * A tick over listed schedules none of which must abort: exactly those that may dispatch have dispatched, every other
   * schedule is as it was, and the only new Commands are theirs.
   */
  lemma TickMeans(t: Tables, rows: seq<ScheduleId>, roots: set<ScheduleId>, now: Time)
    requires Consistent(t) && forall i <- rows :: MayDispatch(t, i, roots, now) ==> !MustAbort(t, i, now)
    ensures var next := Dispatches(t, ReadyAmong(t, rows, roots, now), now);
            && next.schedules.Keys == t.schedules.Keys
            && (forall i <- t.schedules :: if i in rows && MayDispatch(t, i, roots, now) then DispatchedAs(t, next, i, now)
                                           else LeftAlone(t, next, i))
            && (forall c <- t.commands :: c in next.commands && next.commands[c] == t.commands[c])
            && (forall c <- next.commands :: c in t.commands || (c.schedule in rows && MayDispatch(t, c.schedule, roots, now)))
  {
    var d := ReadyAmong(t, rows, roots, now);
    var next := Dispatches(t, d, now);
    forall i <- t.schedules
      ensures if i in rows && MayDispatch(t, i, roots, now) then DispatchedAs(t, next, i, now) else LeftAlone(t, next, i)
    {
      ReadyMeans(t, i, roots, now);
      if i in d {
        DispatchedMeans(t, d, now, i);
      }
    }
    forall c <- t.commands ensures c in next.commands && next.commands[c] == t.commands[c] {
      OtherCommandsStay(t, d, now, c);
    }
    forall c <- next.commands | c !in t.commands ensures c.schedule in rows && MayDispatch(t, c.schedule, roots, now) {
      OtherCommandsStay(t, d, now, c);
      ReadyMeans(t, c.schedule, roots, now);
    }
  }

  /** A valid interval, a first slot on its grid after the anchor, a new id, and no other live schedule of the target. */
  ghost predicate MayCreate(t: Tables, i: ScheduleId, anchor: Time, seconds: int, content: nat, next: Time, status: Status) {
    && 15 * 60 <= seconds <= 30 * 24 * 60 * 60
    && (exists n: nat :: n >= 1 && next == anchor + n * (seconds * 1_000_000))
    && i !in t.schedules
    && (status.DisabledSync? ||
        forall j <- t.schedules :: t.schedules[j].content == content ==> t.schedules[j].status.DisabledSync?)
  }

  lemma GridMeans(anchor: Time, next: Time, step: int)
    requires step > 0
    ensures next > anchor && (next - anchor) % step == 0 <==> exists n: nat :: n >= 1 && next == anchor + n * step
  {
    if next > anchor && (next - anchor) % step == 0 {
      var n := (next - anchor) / step;
      assert next - anchor == n * step;
      assert n <= 0 ==> n * step <= 0;
      assert next == anchor + n * step;
    }
    if n: nat :| n >= 1 && next == anchor + n * step {
      TimesAtLeast(n, step);
      var q, r := (n * step) / step, (n * step) % step;
      assert (n - q) * step == r;
      NoSmallMultiple(n - q, step);
    }
  }

  /** A schedule is created exactly if it may be, in its first revision, before any dispatch. */
  lemma CreatedMeans(t: Tables, i: ScheduleId, anchor: Time, seconds: int, content: nat, next: Time, status: Status, at: Time)
    ensures match Created(t, i, anchor, seconds, content, next, status, at)
            case Failure(_) => !MayCreate(t, i, anchor, seconds, content, next, status)
            case Success(after) =>
              && MayCreate(t, i, anchor, seconds, content, next, status)
              && after == t.(schedules := t.schedules[i := Schedule(anchor, seconds, content, next, status, 1, None, at)])
  {
    if seconds > 0 {
      GridMeans(anchor, next, seconds * SECOND);
    }
  }

  /** Active schedules may be paused or disabled, paused ones resumed or disabled, and DISABLED is final. */
  lemma MovedMeans(s: Schedule, target: Status, at: Time)
    ensures s.Moved(target, at).Success? <==> !s.status.DisabledSync? && target != s.status && s.updated <= at
    ensures s.Moved(target, at).Success? ==>
              s.Moved(target, at).value == Schedule(s.anchor, s.seconds, s.content, s.next, target, s.revision + 1, s.last, at)
  {
  }
}
