/** Runs of the activity scheduler: any interleaving of its ticks with changes of templates, plans and other Commands. */
module RecurrenceRuns {
  import opened Prelude
  import opened Recurrence

  datatype Tick =
    | Generating(now: Time, limit: int, steps: seq<Key>)        // `steps` are the cursors it advances
    | Materializing(now: Time, limit: int, listing: seq<Occurrence>)
    | Revising(key: Key, revision: Revision)
    | Planning(plan: PlanId, status: PlanStatus)
    | Submitting(id: ActivityId, content: nat)                  // someone else's Command of the identity `activity:<id>`

  /** A generation tick advances exactly the cursors that its loop takes. */
  ghost predicate Allowed(t: Tables, e: Tick) {
    e.Generating? && ValidLimit(e.limit) ==> Generation(t, e.steps, e.now, e.limit)
  }

  function Rows(e: Tick): seq<Occurrence>
    requires e.Materializing? && ValidLimit(e.limit)
  {
    if |e.listing| < e.limit then e.listing else e.listing[..e.limit]
  }

  ghost function After(t: Tables, e: Tick): (next: Tables)
    requires Regular(t) && Allowed(t, e)
    ensures Regular(next) && Extends(t, next)
  {
    Still(t);
    match e
    case Generating(now, limit, steps) =>
      if !ValidLimit(limit) then t else GenerationMeans(t, steps, now, limit); Advanced(t, steps)
    case Materializing(now, limit, _) =>
      if !ValidLimit(limit) || Settled(t, now, Rows(e)).Failure? then t
      else SettledKeeps(t, now, Rows(e)); Settled(t, now, Rows(e)).value
    case Revising(key, revision) =>
      if WithRevision(t, key, revision).Failure? then t
      else RevisionKeeps(t, key, revision); WithRevision(t, key, revision).value
    case Planning(plan, status) => PlanKeeps(t, plan, status); WithPlan(t, plan, status)
    case Submitting(id, content) => SubmissionKeeps(t, id, content); Submitted(t, id, content)
  }

  lemma Still(t: Tables)
    ensures Extends(t, t)
  {
  }

  function Submitted(t: Tables, id: ActivityId, content: nat): Tables {
    if id in t.commands then t else t.(commands := t.commands[id := content])
  }

  lemma SubmissionKeeps(t: Tables, id: ActivityId, content: nat)
    requires Regular(t)
    ensures Regular(Submitted(t, id, content)) && Extends(t, Submitted(t, id, content))
  {
    CursorsStay(t, Submitted(t, id, content));
    PlansStay(t, Submitted(t, id, content));
  }

  ghost predicate Possible(t: Tables, ticks: seq<Tick>)
    requires Regular(t)
    decreases |ticks|
  {
    ticks == [] || (Allowed(t, ticks[0]) && Possible(After(t, ticks[0]), ticks[1..]))
  }

  ghost function Run(t: Tables, ticks: seq<Tick>): (end: Tables)
    requires Regular(t) && Possible(t, ticks)
    ensures Regular(end)
    decreases |ticks|
  {
    if ticks == [] then t else Run(After(t, ticks[0]), ticks[1..])
  }

  lemma EmptyIsRegular()
    ensures Regular(EMPTY)
  {
  }

  /** Nothing a run has done is ever undone. */
  lemma {:induction false} RunExtends(t: Tables, ticks: seq<Tick>)
    requires Regular(t) && Possible(t, ticks)
    ensures Extends(t, Run(t, ticks))
    decreases |ticks|
  {
    if ticks == [] {
      Still(t);
    } else {
      RunExtends(After(t, ticks[0]), ticks[1..]);
      ExtendsComposes(t, After(t, ticks[0]), Run(t, ticks));
    }
  }

  /**
   * Across any interleaving, a cursor stands at its first slot plus as many intervals as it has generated, and the
   * occurrences of its template revision are exactly the slots before that: none missing, none twice, none else.
   */
  lemma SlotsAreTheProgression(ticks: seq<Tick>, k: Key)
    requires Possible(EMPTY, ticks) && k in Run(EMPTY, ticks).cursors
    ensures var t := Run(EMPTY, ticks);
            && HasRevision(t, k) && RevisionAt(t, k).recurrence.Some?
            && var i, c := RevisionAt(t, k).recurrence.value, t.cursors[k];
            && c.next == i.anchor + c.count * (i.seconds * SECOND)
            && (forall due :: Occurrence(k, due) in t.activities <==>
                              exists n :: 0 <= n < c.count && due == i.Slot(n))
            && (forall m, n :: 0 <= m < n < c.count ==> i.Slot(m) < i.Slot(n) < c.next)
  {
    var t := Run(EMPTY, ticks);
    assert KeyOk(t, k);
    var i, c := RevisionAt(t, k).recurrence.value, t.cursors[k];
    forall m, n | 0 <= m < n < c.count ensures i.Slot(m) < i.Slot(n) < c.next {
      SlotsIncrease(i, m, n);
      SlotsIncrease(i, n, c.count);
    }
  }

  // ----- Commands -----

  function Foreign(ticks: seq<Tick>): set<ActivityId> {
    if ticks == [] then {}
    else (if ticks[0].Submitting? then {ticks[0].id} else {}) + Foreign(ticks[1..])
  }

  predicate MaterializedAs(t: Tables, o: Occurrence, c: ActivityId) {
    o in t.activities && t.activities[o].status.Materialized? && t.activities[o].id == c
  }

  /** Every Command was submitted by someone else or is that of a materialised occurrence. */
  ghost predicate Accounted(t: Tables, foreign: set<ActivityId>) {
    forall c <- t.commands :: c in foreign || exists o :: MaterializedAs(t, o, c)
  }

  lemma SettledAccounts(t: Tables, now: Time, list: seq<Occurrence>, foreign: set<ActivityId>)
    requires Regular(t) && Accounted(t, foreign) && Settled(t, now, list).Success?
    ensures Accounted(Settled(t, now, list).value, foreign)
  {
    var next, turned := Settled(t, now, list).value, Turned(t, now, list);
    forall c <- next.commands | c !in foreign ensures exists o :: MaterializedAs(next, o, c) {
      if c in t.commands {
        var o :| MaterializedAs(t, o, c);
        assert MaterializedAs(next, o, c);
      } else {
        var o :| o in turned && c == t.activities[o].id;
        assert MaterializedAs(next, o, c);
      }
    }
  }

  lemma OthersAccount(t: Tables, next: Tables, foreign: set<ActivityId>)
    requires Accounted(t, foreign) && Extends(t, next) && next.commands == t.commands
    ensures Accounted(next, foreign)
  {
    forall c <- next.commands | c !in foreign ensures exists o :: MaterializedAs(next, o, c) {
      var o :| MaterializedAs(t, o, c);
      assert MaterializedAs(next, o, c);
    }
  }

  lemma StepAccounts(t: Tables, e: Tick, foreign: set<ActivityId>)
    requires Regular(t) && Allowed(t, e) && Accounted(t, foreign)
    ensures Accounted(After(t, e), foreign + Foreign([e]))
  {
    var next := After(t, e);
    assert [e][1..] == [];
    match e
    case Materializing(now, limit, _) =>
      if ValidLimit(limit) && Settled(t, now, Rows(e)).Success? {
        SettledAccounts(t, now, Rows(e), foreign);
      }
    case Submitting(id, content) =>
      forall c <- next.commands | c != id && c !in foreign ensures exists o :: MaterializedAs(next, o, c) {
        var o :| MaterializedAs(t, o, c);
        assert MaterializedAs(next, o, c);
      }
    case Generating(now, limit, steps) =>
      if ValidLimit(limit) {
        GenerationMeans(t, steps, now, limit);
        OthersAccount(t, next, foreign);
      }
    case _ => OthersAccount(t, next, foreign);
  }

  lemma {:induction false} RunAccounts(t: Tables, ticks: seq<Tick>, foreign: set<ActivityId>)
    requires Regular(t) && Possible(t, ticks) && Accounted(t, foreign)
    ensures Accounted(Run(t, ticks), foreign + Foreign(ticks))
    decreases |ticks|
  {
    if ticks == [] {
      assert foreign + {} == foreign;
    } else {
      StepAccounts(t, ticks[0], foreign);
      assert [ticks[0]][1..] == [];
      RunAccounts(After(t, ticks[0]), ticks[1..], foreign + Foreign([ticks[0]]));
      assert foreign + Foreign([ticks[0]]) + Foreign(ticks[1..]) == foreign + Foreign(ticks);
    }
  }

  /**
   * Across any interleaving, materialised slots and the Commands nobody else submitted correspond one to one: every
   * materialised slot has one Command, made from its own snapshot, no two slots share one, and every such Command is
   * of a slot.
   */
  lemma OneCommandPerSlot(ticks: seq<Tick>)
    requires Possible(EMPTY, ticks)
    ensures var t := Run(EMPTY, ticks);
            && (forall o, c :: MaterializedAs(t, o, c) ==> c in t.commands && t.commands[c] == t.activities[o].content)
            && (forall o, p, c :: MaterializedAs(t, o, c) && MaterializedAs(t, p, c) ==> o == p)
            && (forall c <- t.commands :: c !in Foreign(ticks) ==> exists o :: MaterializedAs(t, o, c))
  {
    RunAccounts(EMPTY, ticks, {});
    assert {} + Foreign(ticks) == Foreign(ticks);
  }

  lemma PendingIsFree(t: Tables, o: Occurrence, foreign: set<ActivityId>)
    requires UniqueIds(t) && Accounted(t, foreign) && o in t.activities && t.activities[o].status.Pending?
    ensures t.activities[o].id in t.commands ==> t.activities[o].id in foreign
  {
  }

  /** So a materialisation tick fails exactly when one of its slots finds its identity taken by someone else's Command. */
  lemma ConflictsAreForeign(ticks: seq<Tick>, now: Time, list: seq<Occurrence>)
    requires Possible(EMPTY, ticks)
    ensures var t := Run(EMPTY, ticks);
            Settled(t, now, list).Failure? <==>
              exists o <- Turned(t, now, list) :: t.activities[o].id in Foreign(ticks) && Conflicts(t, o)
  {
    var t := Run(EMPTY, ticks);
    OneCommandPerSlot(ticks);
    forall o <- Turned(t, now, list) ensures t.activities[o].id in t.commands ==> t.activities[o].id in Foreign(ticks) {
      PendingIsFree(t, o, Foreign(ticks));
    }
  }
}
