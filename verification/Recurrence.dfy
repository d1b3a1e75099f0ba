/**
 * Fixed-interval activities: cursors, the bounded generation loop and the materialisation of occurrences into
 * Commands (domain/account_activities.py, application/account_activity_recurrence.py and
 * application/account_activity_materialization.py).
 */
module Recurrence {
  import opened Prelude

  const SECOND := 1_000_000
  const MIN_INTERVAL := 900
  const MAX_INTERVAL := 2_592_000
  const MAX_BATCH := 100

  type TemplateId = nat
  type PlanId = nat
  type ActivityId = nat

  datatype PlanStatus = ActivePlan | PausedPlan | DisabledPlan

  datatype Interval = Interval(anchor: Time, seconds: int) {
    predicate Valid() { MIN_INTERVAL <= seconds <= MAX_INTERVAL }

    /** The n-th slot of the progression. */
    function Slot(n: int): Time { anchor + n * (seconds * SECOND) }
  }

  /** One template revision; `content` stands for the snapshot a Command is made from. */
  datatype Revision = Revision(plan: PlanId, recurrence: Option<Interval>, supported: bool, content: nat)

  datatype Key = Key(template: TemplateId, revision: nat)

  datatype Cursor = Cursor(next: Time, last: Option<Time>, count: nat) {
    function Advanced(seconds: int): Cursor { Cursor(next + seconds * SECOND, Some(next), count + 1) }
  }

  datatype Occurrence = Occurrence(key: Key, due: Time)

  datatype Materialization = Pending | Materialized | NonMaterializable

  datatype Activity = Activity(id: ActivityId, plan: PlanId, supported: bool, content: nat, status: Materialization)

  datatype Error = InvalidLimit | InvalidInterval | RevisionOutOfOrder | PlanChanged | PlanMissing | CommandConflict

  datatype Tables = Tables(
    revisions: map<TemplateId, seq<Revision>>,  // revision n is at index n - 1
    plans: map<PlanId, PlanStatus>,
    cursors: map<Key, Cursor>,
    activities: map<Occurrence, Activity>,
    commands: map<ActivityId, nat>,             // content of the Command `activity:<id>`
    unused: ActivityId)                         // the first id not drawn yet

  const EMPTY := Tables(map[], map[], map[], map[], map[], 0)

  // ----- what the tables mean -----

  predicate HasRevision(t: Tables, k: Key) {
    k.template in t.revisions && 1 <= k.revision <= |t.revisions[k.template]|
  }

  function RevisionAt(t: Tables, k: Key): Revision
    requires HasRevision(t, k)
  {
    t.revisions[k.template][k.revision - 1]
  }

  /** A cursor stands at its first slot plus as many intervals as it has generated. */
  predicate CursorOk(c: Cursor, i: Interval) {
    && i.Valid() && c.next == i.Slot(c.count)
    && c.last == if c.count == 0 then None else Some(i.Slot(c.count - 1))
  }

  predicate KeyOk(t: Tables, k: Key) {
    && k in t.cursors && HasRevision(t, k) && RevisionAt(t, k).recurrence.Some?
    && CursorOk(t.cursors[k], RevisionAt(t, k).recurrence.value)
  }

  /** The occurrences of a cursor are exactly its first `count` slots: no gap, no duplicate, nothing else. */
  ghost predicate Covered(t: Tables, k: Key)
    requires KeyOk(t, k)
  {
    var i := RevisionAt(t, k).recurrence.value;
    && (forall n :: 0 <= n < t.cursors[k].count ==> Occurrence(k, i.Slot(n)) in t.activities)
    && (forall due :: Occurrence(k, due) in t.activities ==> exists n :: 0 <= n < t.cursors[k].count && due == i.Slot(n))
  }

  ghost predicate CursorsOk(t: Tables) {
    && (forall k {:trigger KeyOk(t, k)} | k in t.cursors :: KeyOk(t, k) && Covered(t, k))
    && (forall o <- t.activities :: o.key in t.cursors)
  }

  ghost predicate PlansOk(t: Tables) {
    && (forall k {:trigger HasRevision(t, k)} :: HasRevision(t, k) ==> RevisionAt(t, k).plan in t.plans)
    && (forall o <- t.activities :: t.activities[o].plan in t.plans)
  }

  predicate UniqueIds(t: Tables) {
    forall o, p :: o in t.activities && p in t.activities && t.activities[o].id == t.activities[p].id ==> o == p
  }

  /** Ids identify occurrences, and a materialised occurrence has its Command, with its content. */
  ghost predicate CommandsOk(t: Tables) {
    && (forall o <- t.activities :: t.activities[o].id < t.unused)
    && UniqueIds(t)
    && (forall o <- t.activities ::
          t.activities[o].status.Materialized? ==>
            t.activities[o].id in t.commands && t.commands[t.activities[o].id] == t.activities[o].content)
  }

  ghost predicate Regular(t: Tables) { CursorsOk(t) && PlansOk(t) && CommandsOk(t) }

  predicate ValidLimit(limit: int) { 1 <= limit <= MAX_BATCH }

  /** Due, of the newest revision, and not switched off. */
  predicate Live(t: Tables, k: Key) {
    && HasRevision(t, k) && k.revision == |t.revisions[k.template]| && RevisionAt(t, k).recurrence.Some?
    && RevisionAt(t, k).plan in t.plans && !t.plans[RevisionAt(t, k).plan].DisabledPlan?
  }

  predicate Due(t: Tables, k: Key, now: Time) { k in t.cursors && t.cursors[k].next <= now }

  // ----- generation -----

  /** Rows the due query may return: every live one, and any whose template or plan changed since it was read. */
  function DueKeys(t: Tables, now: Time, skipped: set<Key>, stale: set<Key>): set<Key> {
    set k | k in t.cursors && Due(t, k, now) && k !in skipped && (Live(t, k) || k in stale)
  }

  predicate Sooner(t: Tables, a: Key, b: Key)
    requires a in t.cursors && b in t.cursors
  {
    if t.cursors[a].next != t.cursors[b].next then t.cursors[a].next < t.cursors[b].next
    else if a.template != b.template then a.template < b.template
    else a.revision < b.revision
  }

  predicate Soonest(t: Tables, s: set<Key>, m: Key)
    requires s <= t.cursors.Keys
  {
    m in s && forall x <- s :: x == m || Sooner(t, m, x)
  }

  lemma SoonestExists(t: Tables, s: set<Key>)
    requires s <= t.cursors.Keys && s != {}
    ensures exists m :: Soonest(t, s, m)
    decreases |s|
  {
    var x :| x in s;
    var rest := s - {x};
    if rest == {} {
      assert s == {x};
      assert Soonest(t, s, x);
    } else {
      SoonestExists(t, rest);
      var m :| Soonest(t, rest, m);
      var best := if Sooner(t, m, x) then m else x;
      forall y <- s ensures y == best || Sooner(t, best, y) {
        assert y == x || y in rest;
      }
      assert Soonest(t, s, best);
    }
  }

  lemma SoonestIsUnique(t: Tables, s: set<Key>, a: Key, b: Key)
    requires s <= t.cursors.Keys && Soonest(t, s, a) && Soonest(t, s, b)
    ensures a == b
  {
  }

  /** One occurrence and one step of its cursor. */
  function Generated(t: Tables, k: Key): Tables
    requires k in t.cursors && HasRevision(t, k) && RevisionAt(t, k).recurrence.Some?
  {
    var r := RevisionAt(t, k);
    var o := Occurrence(k, t.cursors[k].next);
    var added := if o in t.activities then t
    else t.(activities := t.activities[o := Activity(t.unused, r.plan, r.supported, r.content, Pending)], unused := t.unused + 1);
    added.(cursors := t.cursors[k := t.cursors[k].Advanced(r.recurrence.value.seconds)])
  }

  lemma SlotsIncrease(i: Interval, m: int, n: int)
    requires i.Valid() && m < n
    ensures i.Slot(m) < i.Slot(n)
  {
    var d := i.seconds * SECOND;
    assert n * d - m * d == (n - m) * d;
    TimesAtLeast(n - m, d);
  }

  lemma NextSlotIsNew(t: Tables, k: Key)
    requires KeyOk(t, k) && Covered(t, k)
    ensures Occurrence(k, t.cursors[k].next) !in t.activities
  {
    var i := RevisionAt(t, k).recurrence.value;
    if Occurrence(k, t.cursors[k].next) in t.activities {
      var n :| 0 <= n < t.cursors[k].count && t.cursors[k].next == i.Slot(n);
      SlotsIncrease(i, n, t.cursors[k].count);
    }
  }

  lemma GeneratedCovers(t: Tables, k: Key)
    requires KeyOk(t, k) && Covered(t, k)
    ensures KeyOk(Generated(t, k), k) && Covered(Generated(t, k), k)
  {
    var t', i := Generated(t, k), RevisionAt(t, k).recurrence.value;
    NextSlotIsNew(t, k);
    var count := t.cursors[k].count;
    assert i.Slot(count + 1) == i.Slot(count) + i.seconds * SECOND;
    forall due | Occurrence(k, due) in t'.activities ensures exists n :: 0 <= n < count + 1 && due == i.Slot(n) {
      if Occurrence(k, due) in t.activities {
        var n :| 0 <= n < count && due == i.Slot(n);
      } else {
        assert due == i.Slot(count);
      }
    }
  }

  lemma OtherKeysStay(t: Tables, k: Key, j: Key)
    requires KeyOk(t, k) && j != k && KeyOk(t, j) && Covered(t, j)
    ensures KeyOk(Generated(t, k), j) && Covered(Generated(t, k), j)
  {
    var t', i := Generated(t, k), RevisionAt(t, j).recurrence.value;
    forall due | Occurrence(j, due) in t'.activities ensures exists n :: 0 <= n < t'.cursors[j].count && due == i.Slot(n) {
      assert Occurrence(j, due) in t.activities;
    }
  }

  lemma GeneratedKeeps(t: Tables, k: Key)
    requires Regular(t) && k in t.cursors && HasRevision(t, k) && RevisionAt(t, k).recurrence.Some?
    ensures Regular(Generated(t, k))
    ensures Occurrence(k, t.cursors[k].next) !in t.activities
  {
    var t' := Generated(t, k);
    assert KeyOk(t, k);
    NextSlotIsNew(t, k);
    forall j <- t'.cursors ensures KeyOk(t', j) && Covered(t', j) {
      assert KeyOk(t, j);
      if j == k {
        GeneratedCovers(t, k);
      } else {
        OtherKeysStay(t, k, j);
      }
    }
    forall j | HasRevision(t', j) ensures RevisionAt(t', j).plan in t'.plans {
      assert HasRevision(t, j);
    }
  }

  // ----- what a generation tick does -----

  function LiveDue(t: Tables, now: Time): set<Key> { set k | k in t.cursors && Due(t, k, now) && Live(t, k) }

  predicate CanAdvance(t: Tables, k: Key) { k in t.cursors && HasRevision(t, k) && RevisionAt(t, k).recurrence.Some? }

  function Advanced(t: Tables, steps: seq<Key>): Tables {
    if steps == [] then t
    else
      var before, k := Advanced(t, steps[..|steps| - 1]), steps[|steps| - 1];
      if CanAdvance(before, k) then Generated(before, k) else before
  }

  /** Every step takes the soonest live due cursor of its moment. */
  ghost predicate SoonestFirst(t: Tables, steps: seq<Key>, now: Time) {
    forall i {:trigger TakesSoonest(t, steps, i, now)} :: 0 <= i < |steps| ==> TakesSoonest(t, steps, i, now)
  }

  ghost predicate TakesSoonest(t: Tables, steps: seq<Key>, i: nat, now: Time)
    requires i < |steps|
  {
    var at := Advanced(t, steps[..i]);
    Soonest(at, LiveDue(at, now), steps[i])
  }

  /** What a generation tick does: it takes the soonest again and again, until the limit or until nothing is left. */
  ghost predicate Generation(t: Tables, steps: seq<Key>, now: Time, limit: nat) {
    && |steps| <= limit && SoonestFirst(t, steps, now)
    && (|steps| < limit ==> LiveDue(Advanced(t, steps), now) == {})
  }

  function Bumped(cursors: map<Key, Cursor>, steps: seq<Key>, k: Key): int
    requires k in cursors
  {
    cursors[k].count + multiset(steps)[k]
  }

  /** From `t` to `next` exactly the cursors in `steps` advanced, once per mention, each adding one occurrence. */
  ghost predicate Progressed(t: Tables, next: Tables, steps: seq<Key>) {
    match next
    case Tables(revisions, plans, cursors, activities, commands, _) =>
      && revisions == t.revisions && plans == t.plans && commands == t.commands
      && cursors.Keys == t.cursors.Keys
      && (forall k <- cursors :: cursors[k].count == Bumped(t.cursors, steps, k))
      && (forall o <- t.activities :: o in activities && activities[o] == t.activities[o])
      && |activities| == |t.activities| + |steps|
  }

  /** Whatever was added was due, is still pending, and is a snapshot of its revision. */
  ghost predicate AddedDue(t: Tables, next: Tables, now: Time) {
    forall o <- next.activities :: o in t.activities || AddedAs(t, o, next.activities[o], now)
  }

  ghost predicate AddedAs(t: Tables, o: Occurrence, a: Activity, now: Time) {
    && o.due <= now && a.status.Pending? && HasRevision(t, o.key)
    && var r := RevisionAt(t, o.key); a.plan == r.plan && a.supported == r.supported && a.content == r.content
  }

  lemma GeneratedAdds(t: Tables, k: Key)
    requires k in t.cursors && HasRevision(t, k) && RevisionAt(t, k).recurrence.Some?
    requires Occurrence(k, t.cursors[k].next) !in t.activities
    ensures var next := Generated(t, k);
            && next.cursors.Keys == t.cursors.Keys && |next.activities| == |t.activities| + 1
            && (forall o <- t.activities :: o in next.activities && next.activities[o] == t.activities[o])
            && (forall j <- t.cursors :: next.cursors[j].count == t.cursors[j].count + (if j == k then 1 else 0))
  {
    var o := Occurrence(k, t.cursors[k].next);
    assert Generated(t, k).activities.Keys == t.activities.Keys + {o};
    assert |t.activities.Keys + {o}| == |t.activities.Keys| + 1;
  }

  lemma CountsAdd(t: Tables, mid: Tables, next: Tables, steps: seq<Key>, k: Key)
    requires k in mid.cursors && mid.cursors.Keys == t.cursors.Keys && next.cursors.Keys == mid.cursors.Keys
    requires forall j <- mid.cursors :: mid.cursors[j].count == Bumped(t.cursors, steps, j)
    requires forall j <- mid.cursors :: next.cursors[j].count == mid.cursors[j].count + (if j == k then 1 else 0)
    ensures forall j <- next.cursors :: next.cursors[j].count == Bumped(t.cursors, steps + [k], j)
  {
  }

  lemma ProgressStep(t: Tables, mid: Tables, steps: seq<Key>, k: Key)
    requires Progressed(t, mid, steps) && CanAdvance(mid, k) && Occurrence(k, mid.cursors[k].next) !in mid.activities
    ensures Progressed(t, Generated(mid, k), steps + [k])
  {
    GeneratedAdds(mid, k);
    CountsAdd(t, mid, Generated(mid, k), steps, k);
  }

  lemma AddedStep(t: Tables, mid: Tables, k: Key, now: Time)
    requires AddedDue(t, mid, now) && mid.revisions == t.revisions
    requires CanAdvance(mid, k) && Due(mid, k, now)
    ensures AddedDue(t, Generated(mid, k), now)
  {
    var next := Generated(mid, k);
    assert HasRevision(t, k) && RevisionAt(t, k) == RevisionAt(mid, k);
    forall o <- next.activities | o !in t.activities ensures AddedAs(t, o, next.activities[o], now) {
      if o in mid.activities {
        assert AddedAs(t, o, mid.activities[o], now);
      }
    }
  }

  /** A tick so far: cursors advanced once per mention, each by exactly its next slot, which was due. */
  ghost predicate Underway(t: Tables, next: Tables, steps: seq<Key>, now: Time) {
    Regular(next) && Progressed(t, next, steps) && AddedDue(t, next, now)
  }

  lemma UnderwayStep(t: Tables, mid: Tables, steps: seq<Key>, k: Key, now: Time)
    requires Underway(t, mid, steps, now) && CanAdvance(mid, k) && Due(mid, k, now)
    ensures Underway(t, Generated(mid, k), steps + [k], now)
  {
    GeneratedKeeps(mid, k);
    ProgressStep(t, mid, steps, k);
    AddedStep(t, mid, k, now);
  }

  lemma AdvancedOne(t: Tables, steps: seq<Key>, k: Key)
    ensures Advanced(t, steps + [k])
            == if CanAdvance(Advanced(t, steps), k) then Generated(Advanced(t, steps), k) else Advanced(t, steps)
  {
    assert (steps + [k])[..|steps|] == steps;
  }

  lemma {:induction false} AdvancedMeans(t: Tables, steps: seq<Key>, now: Time)
    requires Regular(t) && SoonestFirst(t, steps, now)
    ensures Underway(t, Advanced(t, steps), steps, now)
    decreases |steps|
  {
    if steps == [] {
    } else {
      var before, k := steps[..|steps| - 1], steps[|steps| - 1];
      assert before + [k] == steps;
      ShorterTick(t, before, k, now);
      AdvancedMeans(t, before, now);
      AdvancedOne(t, before, k);
      UnderwayStep(t, Advanced(t, before), before, k, now);
    }
  }

  lemma ShorterTick(t: Tables, before: seq<Key>, k: Key, now: Time)
    requires SoonestFirst(t, before + [k], now)
    ensures SoonestFirst(t, before, now)
    ensures Due(Advanced(t, before), k, now) && CanAdvance(Advanced(t, before), k)
  {
    var steps := before + [k];
    forall i | 0 <= i < |before| ensures TakesSoonest(t, before, i, now) {
      assert TakesSoonest(t, steps, i, now);
      assert before[..i] == steps[..i] && before[i] == steps[i];
    }
    assert TakesSoonest(t, steps, |before|, now);
    assert steps[..|before|] == before && steps[|before|] == k;
  }

  lemma LongerTick(t: Tables, steps: seq<Key>, now: Time, k: Key)
    requires SoonestFirst(t, steps, now)
    requires var at := Advanced(t, steps); Soonest(at, LiveDue(at, now), k)
    ensures SoonestFirst(t, steps + [k], now)
    ensures CanAdvance(Advanced(t, steps), k) && Advanced(t, steps + [k]) == Generated(Advanced(t, steps), k)
  {
    var longer := steps + [k];
    assert longer[..|steps|] == steps;
    forall i | 0 <= i < |longer| ensures TakesSoonest(t, longer, i, now) {
      if i < |steps| {
        assert TakesSoonest(t, steps, i, now);
        assert longer[..i] == steps[..i] && longer[i] == steps[i];
      }
    }
  }

  /**
   * A generation tick advances at most `limit` cursors, once per mention, each adding exactly its next slot, which was
   * due; and if it advances fewer, nothing that is still due could be generated.
   */
  lemma GenerationMeans(t: Tables, steps: seq<Key>, now: Time, limit: nat)
    requires Regular(t) && Generation(t, steps, now, limit)
    ensures var next := Advanced(t, steps);
            && Regular(next) && Extends(t, next) && Progressed(t, next, steps) && AddedDue(t, next, now)
            && (|steps| < limit ==> Exhausted(next, now))
  {
    AdvancedMeans(t, steps, now);
    ProgressExtends(t, Advanced(t, steps), steps);
    if |steps| < limit {
      NothingLive(Advanced(t, steps), now);
    }
  }

  lemma ShorterIsSame(t: Tables, a: seq<Key>, b: seq<Key>, now: Time, limit: nat)
    requires Generation(t, a, now, limit) && Generation(t, b, now, limit) && |a| <= |b|
    ensures a == b
  {
    SamePrefix(t, a, b, now, |a|);
    assert a == a[..|a|];
    if |a| < |b| {
      assert TakesSoonest(t, b, |a|, now);
      NothingSoonest(Advanced(t, b[..|a|]), now, b[|a|]);
    }
  }

  /** And there is only one way to do it. */
  lemma GenerationIsUnique(t: Tables, a: seq<Key>, b: seq<Key>, now: Time, limit: nat)
    requires Generation(t, a, now, limit) && Generation(t, b, now, limit)
    ensures a == b
  {
    if |a| <= |b| {
      ShorterIsSame(t, a, b, now, limit);
    } else {
      ShorterIsSame(t, b, a, now, limit);
    }
  }

  lemma NothingSoonest(t: Tables, now: Time, k: Key)
    requires Soonest(t, LiveDue(t, now), k)
    ensures LiveDue(t, now) != {}
  {
  }

  lemma NextIsSame(t: Tables, a: seq<Key>, b: seq<Key>, now: Time, i: nat)
    requires SoonestFirst(t, a, now) && SoonestFirst(t, b, now) && i < |a| && i < |b| && a[..i] == b[..i]
    ensures a[i] == b[i]
  {
    assert TakesSoonest(t, a, i, now) && TakesSoonest(t, b, i, now);
    var at := Advanced(t, a[..i]);
    SoonestIsUnique(at, LiveDue(at, now), a[i], b[i]);
  }

  lemma {:induction false} SamePrefix(t: Tables, a: seq<Key>, b: seq<Key>, now: Time, n: nat)
    requires SoonestFirst(t, a, now) && SoonestFirst(t, b, now) && n <= |a| <= |b|
    ensures a[..n] == b[..n]
  {
    if n == 0 {
    } else {
      SamePrefix(t, a, b, now, n - 1);
      NextIsSame(t, a, b, now, n - 1);
      assert a[..n] == a[..n - 1] + [a[n - 1]] && b[..n] == b[..n - 1] + [b[n - 1]];
    }
  }

  lemma NothingLive(t: Tables, now: Time)
    requires LiveDue(t, now) == {}
    ensures Exhausted(t, now)
  {
    forall k <- t.cursors | Due(t, k, now) ensures !Live(t, k) {
      assert k !in LiveDue(t, now);
    }
  }

  // ----- the generation loop -----

  lemma SkipShrinks(keys: set<Key>, skipped: set<Key>, k: Key)
    requires k in keys && k !in skipped
    ensures |keys - (skipped + {k})| < |keys - skipped|
  {
    assert keys - (skipped + {k}) == keys - skipped - {k};
  }

  lemma LiveStays(t: Tables, k: Key, j: Key)
    requires k in t.cursors && HasRevision(t, k) && RevisionAt(t, k).recurrence.Some?
    ensures Live(Generated(t, k), j) <==> Live(t, j)
  {
  }

  /** Nothing that is due could still be generated. */
  ghost predicate Exhausted(t: Tables, now: Time) { forall k <- t.cursors :: Due(t, k, now) ==> !Live(t, k) }

  /** Rows that are listed and then skipped do not matter: the first live row of the listing is the first live one. */
  lemma SkippingIsHarmless(t: Tables, now: Time, skipped: set<Key>, stale: set<Key>)
    requires forall k <- skipped :: !Live(t, k)
    ensures LiveDue(t, now) <= DueKeys(t, now, skipped, stale)
    ensures forall k :: Soonest(t, DueKeys(t, now, skipped, stale), k) && Live(t, k) ==> Soonest(t, LiveDue(t, now), k)
  {
  }

  // ----- materialisation -----

  /** One due occurrence: left alone, written off, or turned into the Command whose id is derived from its own. */
  function MaterializedOne(t: Tables, o: Occurrence): Result<Tables, Error>
    requires o in t.activities
  {
    var a := t.activities[o];
    if a.plan !in t.plans then Failure(PlanMissing)
    else if t.plans[a.plan].PausedPlan? then Success(t)
    else if t.plans[a.plan].DisabledPlan? || !a.supported then
      Success(t.(activities := t.activities[o := a.(status := NonMaterializable)]))
    else if a.id in t.commands && t.commands[a.id] != a.content then Failure(CommandConflict)
    else
      Success(t.(activities := t.activities[o := a.(status := Materialized)], commands := t.commands[a.id := a.content]))
  }

  /** What no call ever undoes: occurrences keep their identity and outcome, and Commands stay as they are. */
  ghost predicate Extends(t: Tables, next: Tables) {
    match next
    case Tables(revisions, _, cursors, activities, commands, _) =>
      && (forall x <- t.revisions :: x in revisions && t.revisions[x] <= revisions[x])
      && (forall k <- t.cursors :: k in cursors && cursors[k].count >= t.cursors[k].count)
      && (forall o <- t.activities ::
            && o in activities && activities[o].id == t.activities[o].id && activities[o].content == t.activities[o].content
            && (!t.activities[o].status.Pending? ==> activities[o] == t.activities[o]))
      && (forall c <- t.commands :: c in commands && commands[c] == t.commands[c])
  }

  lemma ExtendsComposes(a: Tables, b: Tables, c: Tables)
    requires Extends(a, b) && Extends(b, c)
    ensures Extends(a, c)
  {
    assert forall x <- a.revisions :: x in b.revisions && x in c.revisions && a.revisions[x] <= b.revisions[x] <= c.revisions[x];
    assert forall o <- a.activities :: o in b.activities && o in c.activities;
    assert forall k <- a.cursors :: k in b.cursors && k in c.cursors;
    assert forall i <- a.commands :: i in b.commands && i in c.commands;
  }

  lemma ProgressExtends(t: Tables, next: Tables, steps: seq<Key>)
    requires Progressed(t, next, steps)
    ensures Extends(t, next)
  {
  }

  /** What a tick at `now` makes of an occurrence it looks at. */
  function Verdict(t: Tables, o: Occurrence, now: Time): Materialization
    requires o in t.activities
  {
    var a := t.activities[o];
    if !a.status.Pending? || o.due > now || a.plan !in t.plans || t.plans[a.plan].PausedPlan? then a.status
    else if t.plans[a.plan].DisabledPlan? || !a.supported then NonMaterializable
    else Materialized
  }

  /** The occurrences of a listing that become Commands. */
  function Turned(t: Tables, now: Time, list: seq<Occurrence>): set<Occurrence> {
    set o | o in list && o in t.activities && t.activities[o].status.Pending? && Verdict(t, o, now).Materialized?
  }

  /** The Command of `o` would have an identity that is taken by a Command with another content. */
  predicate Conflicts(t: Tables, o: Occurrence)
    requires o in t.activities
  {
    t.activities[o].id in t.commands && t.commands[t.activities[o].id] != t.activities[o].content
  }

  function MadeFrom(t: Tables, s: set<Occurrence>): map<ActivityId, nat>
    requires s <= t.activities.Keys && UniqueIds(t)
  {
    map o | o in s :: t.activities[o].id := t.activities[o].content
  }

  function Judged(t: Tables, now: Time, list: seq<Occurrence>): map<Occurrence, Activity> {
    map o | o in t.activities :: if o in list then t.activities[o].(status := Verdict(t, o, now)) else t.activities[o]
  }

  /**
   * A materialisation tick, all at once and in no order: every listed occurrence gets its verdict, and those that are
   * turned into Commands have them, unless one of these conflicts, and then nothing happens.
   */
  function Settled(t: Tables, now: Time, list: seq<Occurrence>): Result<Tables, Error>
    requires UniqueIds(t)
  {
    var turned := Turned(t, now, list);
    if exists o <- turned :: Conflicts(t, o) then Failure(CommandConflict)
    else
      Success(t.(activities := Judged(t, now, list), commands := t.commands + MadeFrom(t, turned)))
  }

  lemma SameCoverage(t: Tables, next: Tables, k: Key)
    requires KeyOk(t, k) && Covered(t, k) && next.revisions == t.revisions && next.cursors == t.cursors
    requires next.activities.Keys == t.activities.Keys
    ensures KeyOk(next, k) && Covered(next, k)
  {
  }

  lemma CursorsStay(t: Tables, next: Tables)
    requires CursorsOk(t) && next.revisions == t.revisions && next.cursors == t.cursors
    requires next.activities.Keys == t.activities.Keys
    ensures CursorsOk(next)
  {
    forall k <- next.cursors ensures KeyOk(next, k) && Covered(next, k) {
      assert KeyOk(t, k);
      SameCoverage(t, next, k);
    }
  }

  lemma PlansStay(t: Tables, next: Tables)
    requires PlansOk(t) && next.revisions == t.revisions && t.plans.Keys <= next.plans.Keys
    requires next.activities.Keys == t.activities.Keys && forall o <- t.activities :: next.activities[o].plan == t.activities[o].plan
    ensures PlansOk(next)
  {
    forall k | HasRevision(next, k) ensures RevisionAt(next, k).plan in next.plans {
      assert HasRevision(t, k);
    }
  }

  lemma SettledCovers(t: Tables, now: Time, list: seq<Occurrence>)
    requires CursorsOk(t) && PlansOk(t) && UniqueIds(t) && Settled(t, now, list).Success?
    ensures CursorsOk(Settled(t, now, list).value) && PlansOk(Settled(t, now, list).value)
  {
    var next := Settled(t, now, list).value;
    assert next.activities.Keys == t.activities.Keys;
    CursorsStay(t, next);
    PlansStay(t, next);
  }

  lemma MadeFromIs(t: Tables, s: set<Occurrence>, o: Occurrence)
    requires s <= t.activities.Keys && UniqueIds(t) && o in t.activities
    ensures t.activities[o].id in MadeFrom(t, s) <==> o in s
    ensures o in s ==> MadeFrom(t, s)[t.activities[o].id] == t.activities[o].content
  {
  }

  lemma SettledKeeps(t: Tables, now: Time, list: seq<Occurrence>)
    requires Regular(t) && Settled(t, now, list).Success?
    ensures Regular(Settled(t, now, list).value) && Extends(t, Settled(t, now, list).value)
  {
    SettledCovers(t, now, list);
    var next, turned := Settled(t, now, list).value, Turned(t, now, list);
    forall o <- next.activities | next.activities[o].status.Materialized?
      ensures next.activities[o].id in next.commands && next.commands[next.activities[o].id] == next.activities[o].content
    {
      MadeFromIs(t, turned, o);
    }
    forall c <- t.commands ensures next.commands[c] == t.commands[c] {
      if c in MadeFrom(t, turned) {
        var o :| o in turned && c == t.activities[o].id;
        assert !Conflicts(t, o);
      }
    }
  }

  // ----- the materialisation loop -----

  /** Listing an occurrence again, an unknown one, or one whose verdict is what it was, changes nothing. */
  lemma ListedInVain(t: Tables, now: Time, list: seq<Occurrence>, o: Occurrence)
    requires UniqueIds(t) && (o !in t.activities || o in list || Verdict(t, o, now) == t.activities[o].status)
    ensures Settled(t, now, list + [o]) == Settled(t, now, list) && Turned(t, now, list + [o]) == Turned(t, now, list)
  {
    assert Turned(t, now, list + [o]) == Turned(t, now, list);
    assert Judged(t, now, list + [o]) == Judged(t, now, list);
  }

  lemma ListedWrittenOff(t: Tables, now: Time, list: seq<Occurrence>, o: Occurrence)
    requires UniqueIds(t) && o in t.activities && o !in list && Verdict(t, o, now).NonMaterializable? && t.activities[o].status.Pending?
    requires Settled(t, now, list).Success?
    ensures Settled(t, now, list + [o]) == MaterializedOne(Settled(t, now, list).value, o)
    ensures Turned(t, now, list + [o]) == Turned(t, now, list)
  {
    assert Turned(t, now, list + [o]) == Turned(t, now, list);
    JudgedGrows(t, now, list, o);
  }

  lemma JudgedGrows(t: Tables, now: Time, list: seq<Occurrence>, o: Occurrence)
    requires o in t.activities && o !in list
    ensures Judged(t, now, list + [o]) == Judged(t, now, list)[o := t.activities[o].(status := Verdict(t, o, now))]
    ensures Judged(t, now, list)[o] == t.activities[o]
  {
  }

  lemma ListedTurned(t: Tables, now: Time, list: seq<Occurrence>, o: Occurrence)
    requires UniqueIds(t) && o in t.activities && o !in list && Verdict(t, o, now).Materialized? && t.activities[o].status.Pending?
    requires Settled(t, now, list).Success?
    ensures Settled(t, now, list + [o]) == MaterializedOne(Settled(t, now, list).value, o)
    ensures Turned(t, now, list + [o]) == Turned(t, now, list) + {o} && o !in Turned(t, now, list)
  {
    var turned := Turned(t, now, list);
    assert Turned(t, now, list + [o]) == turned + {o};
    JudgedGrows(t, now, list, o);
    MadeFromIs(t, turned, o);
    MadeFromGrows(t, turned, o);
    AddOne(t.commands, MadeFrom(t, turned), t.activities[o].id, t.activities[o].content);
    if Conflicts(t, o) {
      assert o in turned + {o};
    }
  }

  lemma AddOne(commands: map<ActivityId, nat>, made: map<ActivityId, nat>, id: ActivityId, content: nat)
    ensures commands + made[id := content] == (commands + made)[id := content]
  {
  }

  lemma MadeFromGrows(t: Tables, s: set<Occurrence>, o: Occurrence)
    requires s <= t.activities.Keys && UniqueIds(t) && o in t.activities
    ensures MadeFrom(t, s + {o}) == MadeFrom(t, s)[t.activities[o].id := t.activities[o].content]
  {
    var more, grown := MadeFrom(t, s + {o}), MadeFrom(t, s)[t.activities[o].id := t.activities[o].content];
    forall c ensures c in more <==> c in grown {
      if c in grown && c != t.activities[o].id {
        var p :| p in s && c == t.activities[p].id;
        assert p in s + {o};
      }
      if c == t.activities[o].id {
        assert o in s + {o};
      }
    }
  }

  /** The loop body on one row. */
  function Looked(tx: Tables, o: Occurrence, now: Time): Result<Tables, Error> {
    if o in tx.activities && tx.activities[o].status.Pending? && o.due <= now then MaterializedOne(tx, o) else Success(tx)
  }

  predicate Turns(tx: Tables, next: Tables, o: Occurrence) {
    && o in tx.activities && tx.activities[o].status.Pending?
    && o in next.activities && next.activities[o].status.Materialized?
  }

  /** Looking at one more row after those of `list` is the tick over the longer listing. */
  lemma RowAfter(t: Tables, now: Time, list: seq<Occurrence>, o: Occurrence)
    requires Regular(t) && Settled(t, now, list).Success?
    ensures var tx := Settled(t, now, list).value;
            var step := Looked(tx, o, now);
            && Settled(t, now, list + [o]) == step
            && (step.Success? ==>
                  |Turned(t, now, list + [o])| == |Turned(t, now, list)| + (if Turns(tx, step.value, o) then 1 else 0))
  {
    if o in t.activities && o !in list && t.activities[o].status.Pending? && Verdict(t, o, now).NonMaterializable? {
      ListedWrittenOff(t, now, list, o);
    } else if o in t.activities && o !in list && t.activities[o].status.Pending? && Verdict(t, o, now).Materialized? {
      ListedTurned(t, now, list, o);
    } else {
      RowInVain(t, now, list, o);
    }
  }

  lemma RowInVain(t: Tables, now: Time, list: seq<Occurrence>, o: Occurrence)
    requires Regular(t) && Settled(t, now, list).Success?
    requires o !in t.activities || o in list || !t.activities[o].status.Pending? || Verdict(t, o, now).Pending?
    ensures var tx := Settled(t, now, list).value;
            && Settled(t, now, list + [o]) == Looked(tx, o, now) == Success(tx) && !Turns(tx, tx, o)
            && Turned(t, now, list + [o]) == Turned(t, now, list)
  {
    ListedInVain(t, now, list, o);
  }

  lemma OneMoreRow(t: Tables, now: Time, rows: seq<Occurrence>, i: nat)
    requires Regular(t) && i < |rows| && Settled(t, now, rows[..i]).Success?
    ensures var o, tx := rows[i], Settled(t, now, rows[..i]).value;
            var step := Looked(tx, o, now);
            && Settled(t, now, rows[..i + 1]) == step
            && (step.Success? ==>
                  |Turned(t, now, rows[..i + 1])| == |Turned(t, now, rows[..i])| + (if Turns(tx, step.value, o) then 1 else 0))
  {
    assert rows[..i + 1] == rows[..i] + [rows[i]];
    RowAfter(t, now, rows[..i], rows[i]);
  }

  lemma NothingToSettle(t: Tables, now: Time)
    requires UniqueIds(t)
    ensures Settled(t, now, []) == Success(t) && Turned(t, now, []) == {}
  {
    NoneTurned(t, now);
    MadeFromNothing(t);
    assert t.commands + map[] == t.commands;
  }

  lemma MadeFromNothing(t: Tables)
    requires UniqueIds(t)
    ensures MadeFrom(t, {}) == map[]
  {
  }

  lemma NoneTurned(t: Tables, now: Time)
    ensures Turned(t, now, []) == {} && Judged(t, now, []) == t.activities
  {
  }

  lemma ConflictStays(t: Tables, now: Time, list: seq<Occurrence>, n: nat)
    requires UniqueIds(t) && n <= |list| && Settled(t, now, list[..n]).Failure?
    ensures Settled(t, now, list) == Settled(t, now, list[..n])
  {
    var o :| o in Turned(t, now, list[..n]) && Conflicts(t, o);
    assert o in Turned(t, now, list);
  }

  // ----- templates and plans -----

  function WithRevision(t: Tables, k: Key, r: Revision): Result<Tables, Error> {
    var before := if k.template in t.revisions then t.revisions[k.template] else [];
    if before == [] && k.revision != 1 then Failure(RevisionOutOfOrder)
    else if before != [] && before[0].plan != r.plan then Failure(PlanChanged)
    else if k.revision != |before| + 1 then Failure(RevisionOutOfOrder)
    else if r.plan !in t.plans then Failure(PlanMissing)
    else if r.recurrence.Some? && !r.recurrence.value.Valid() then Failure(InvalidInterval)
    else
      Success(t.(
              revisions := t.revisions[k.template := before + [r]],
              cursors := if r.recurrence.Some? then t.cursors[k := Cursor(r.recurrence.value.anchor, None, 0)] else t.cursors))
  }

  lemma RevisionKeeps(t: Tables, k: Key, r: Revision)
    requires Regular(t) && WithRevision(t, k, r).Success?
    ensures Regular(WithRevision(t, k, r).value) && Extends(t, WithRevision(t, k, r).value)
  {
    var next := WithRevision(t, k, r).value;
    assert k in t.cursors ==> KeyOk(t, k);
    assert !HasRevision(t, k) && k !in t.cursors;
    forall j | HasRevision(next, j) && j != k ensures HasRevision(t, j) && RevisionAt(next, j) == RevisionAt(t, j) {
    }
    forall j <- next.cursors ensures KeyOk(next, j) && Covered(next, j) {
      if j == k {
        assert r.recurrence.value.Slot(0) == r.recurrence.value.anchor;
        assert forall o <- t.activities :: o.key != k;
      } else {
        assert KeyOk(t, j);
      }
    }
    forall j | HasRevision(next, j) ensures RevisionAt(next, j).plan in next.plans {
      assert j != k ==> HasRevision(t, j);
    }
  }

  function WithPlan(t: Tables, plan: PlanId, status: PlanStatus): Tables { t.(plans := t.plans[plan := status]) }

  lemma PlanKeeps(t: Tables, plan: PlanId, status: PlanStatus)
    requires Regular(t)
    ensures Regular(WithPlan(t, plan, status)) && Extends(t, WithPlan(t, plan, status))
  {
    CursorsStay(t, WithPlan(t, plan, status));
    PlansStay(t, WithPlan(t, plan, status));
  }

  class Scheduler {
    var t: Tables

    constructor ()
      ensures t == EMPTY && Regular(t)
    {
      t := EMPTY;
    }

    /** The first row of the due listing that is not excluded. */
    method NextDue(tx: Tables, now: Time, skipped: set<Key>, stale: set<Key>) returns (k: Option<Key>)
      requires forall j <- skipped :: !Live(tx, j)
      ensures k.None? ==> LiveDue(tx, now) == {}
      ensures k.Some? ==>
                && k.value in tx.cursors && k.value !in skipped && Due(tx, k.value, now)
                && Soonest(tx, DueKeys(tx, now, skipped, stale), k.value)
    {
      var due := DueKeys(tx, now, skipped, stale);
      if due == {} {
        SkippingIsHarmless(tx, now, skipped, stale);
        return None;
      }
      SoonestExists(tx, due);
      var first :| Soonest(tx, due, first);
      k := Some(first);
    }

    /** The generation loop, which lists rows that may have become stale and skips them, is exactly a generation tick. */
    method GenerateDue(now: Time, limit: int, stale: set<Key>) returns (r: Result<seq<Key>, Error>)
      requires Regular(t)
      modifies this
      ensures Regular(t) && Extends(old(t), t)
      ensures r.Failure? <==> !ValidLimit(limit)
      ensures r.Failure? ==> t == old(t)
      ensures r.Success? ==>
                && Generation(old(t), r.value, now, limit) && t == Advanced(old(t), r.value)
                && Progressed(old(t), t, r.value) && AddedDue(old(t), t, now)
                && (|r.value| < limit ==> Exhausted(t, now))
    {
      if !ValidLimit(limit) {
        return Failure(InvalidLimit);
      }
      var tx := t;
      var steps: seq<Key> := [];
      var skipped: set<Key> := {};
      while |steps| < limit
        invariant t == old(t) && |steps| <= limit && SoonestFirst(t, steps, now) && tx == Advanced(t, steps)
        invariant skipped <= tx.cursors.Keys && forall k <- skipped :: !Live(tx, k)
        decreases limit - |steps|, |tx.cursors.Keys - skipped|
      {
        var next := NextDue(tx, now, skipped, stale);
        if next.None? {
          break;
        }
        var k := next.value;
        if !Live(tx, k) {
          SkipShrinks(tx.cursors.Keys, skipped, k);
          skipped := skipped + {k};
        } else {
          SkippingIsHarmless(tx, now, skipped, stale);
          LongerTick(t, steps, now, k);
          forall j <- skipped ensures !Live(Generated(tx, k), j) {
            LiveStays(tx, k, j);
          }
          tx := Generated(tx, k);
          steps := steps + [k];
        }
      }
      GenerationMeans(t, steps, now, limit);
      t := tx;
      r := Success(steps);
    }

    /**
     * The materialisation loop over a listing of due pending occurrences, one after the other, is exactly the tick over
     * the rows it looks at; a conflict rolls everything back.
     */
    method MaterializeDue(now: Time, limit: int, listing: seq<Occurrence>) returns (r: Result<nat, Error>)
      requires Regular(t)
      modifies this
      ensures Regular(t) && Extends(old(t), t)
      ensures !ValidLimit(limit) ==> r == Failure(InvalidLimit) && t == old(t)
      ensures ValidLimit(limit) ==>
                var rows := if |listing| < limit then listing else listing[..limit];
                match Settled(old(t), now, rows)
                case Failure(e) => r == Failure(e) && t == old(t)
                case Success(next) => r == Success(|Turned(old(t), now, rows)|) && t == next
    {
      if !ValidLimit(limit) {
        return Failure(InvalidLimit);
      }
      var rows := if |listing| < limit then listing else listing[..limit];
      var tx, done := t, 0;
      NothingToSettle(t, now);
      for i := 0 to |rows|
        invariant t == old(t) && Settled(t, now, rows[..i]) == Success(tx) && done == |Turned(t, now, rows[..i])|
      {
        var o := rows[i];
        OneMoreRow(t, now, rows, i);
        if o in tx.activities && tx.activities[o].status.Pending? && o.due <= now {
          var next := MaterializedOne(tx, o);
          if next.Failure? {
            ConflictStays(t, now, rows, i + 1);
            return Failure(next.error);
          }
          done := if next.value.activities[o].status.Materialized? then done + 1 else done;
          tx := next.value;
        }
      }
      assert rows[..|rows|] == rows;
      SettledKeeps(t, now, rows);
      t := tx;
      r := Success(done);
    }

    method AddRevision(k: Key, revision: Revision) returns (r: Result<(), Error>)
      requires Regular(t)
      modifies this
      ensures Regular(t) && Extends(old(t), t)
      ensures r.Success? <==> WithRevision(old(t), k, revision).Success?
      ensures t == if r.Success? then WithRevision(old(t), k, revision).value else old(t)
    {
      var next := WithRevision(t, k, revision);
      if next.Failure? {
        return Failure(next.error);
      }
      RevisionKeeps(t, k, revision);
      t := next.value;
      r := Success(());
    }

    method SetPlan(plan: PlanId, status: PlanStatus)
      requires Regular(t)
      modifies this
      ensures Regular(t) && Extends(old(t), t) && t == WithPlan(old(t), plan, status)
    {
      PlanKeeps(t, plan, status);
      t := WithPlan(t, plan, status);
    }
  }
}
