/** What the ticks over recurring activities take and leave, row by row. */
module ScheduleMeanings {
  import opened Prelude
  import opened Recurrence

  // ----- generation -----

  /** A cursor of the newest revision of its template, which recurs, under a plan that is not disabled. */
  predicate Generates(t: Tables, k: Key) {
    && k.template in t.revisions && k.revision == |t.revisions[k.template]| > 0
    && var r := t.revisions[k.template][k.revision - 1];
    r.recurrence.Some? && r.plan in t.plans && (t.plans[r.plan].ActivePlan? || t.plans[r.plan].PausedPlan?)
  }

  lemma LiveMeans(t: Tables, k: Key)
    ensures Live(t, k) <==> Generates(t, k)
  {
  }

  /** Earlier slot first, then the smaller template, then the smaller revision. */
  predicate ComesFirst(t: Tables, a: Key, b: Key) {
    a in t.cursors && b in t.cursors &&
    var x, y := t.cursors[a].next, t.cursors[b].next;
    || x < y
    || (x == y && a.template < b.template)
    || (x == y && a.template == b.template && a.revision < b.revision)
  }

  /**
   * The i-th occurrence of a tick is one of the newest revision of a recurring template, due, under a plan that is not
   * disabled, and comes first among all of these; a tick that stops before its limit leaves none.
   */
  lemma TickTakesFirst(t: Tables, steps: seq<Key>, now: Time, limit: nat, i: nat)
    requires Generation(t, steps, now, limit) && i < |steps|
    ensures var at := Advanced(t, steps[..i]);
            && steps[i] in at.cursors && at.cursors[steps[i]].next <= now && Generates(at, steps[i])
            && (forall k <- at.cursors :: at.cursors[k].next <= now && Generates(at, k) && k != steps[i] ==> ComesFirst(at, steps[i], k))
  {
    assert TakesSoonest(t, steps, i, now);
    var at := Advanced(t, steps[..i]);
    forall k <- at.cursors | at.cursors[k].next <= now && Generates(at, k) && k != steps[i] ensures ComesFirst(at, steps[i], k) {
      LiveMeans(at, k);
      assert k in LiveDue(at, now);
    }
    LiveMeans(at, steps[i]);
  }

  lemma TickLeavesNone(t: Tables, steps: seq<Key>, now: Time, limit: nat)
    requires Generation(t, steps, now, limit) && |steps| < limit
    ensures var end := Advanced(t, steps);
            forall k <- end.cursors :: Generates(end, k) ==> now < end.cursors[k].next
  {
    var end := Advanced(t, steps);
    forall k <- end.cursors | Generates(end, k) ensures now < end.cursors[k].next {
      LiveMeans(end, k);
      assert k !in LiveDue(end, now);
    }
  }

  // ----- materialisation -----

  predicate Waiting(t: Tables, o: Occurrence, now: Time) {
    o in t.activities && t.activities[o].status.Pending? && o.due <= now && t.activities[o].plan in t.plans
  }

  /** A due occurrence of a supported kind under an active plan. */
  predicate BecomesCommand(t: Tables, o: Occurrence, now: Time) {
    Waiting(t, o, now) && t.plans[t.activities[o].plan].ActivePlan? && t.activities[o].supported
  }

  /** A due occurrence under a disabled plan, or of an unsupported kind under an active one. */
  predicate IsWrittenOff(t: Tables, o: Occurrence, now: Time) {
    && Waiting(t, o, now)
    && (t.plans[t.activities[o].plan].DisabledPlan? || (t.plans[t.activities[o].plan].ActivePlan? && !t.activities[o].supported))
  }

  /** The occurrences of the listing get their outcome, and nothing else moves. */
  ghost predicate OutcomesGiven(t: Tables, next: Tables, now: Time, list: seq<Occurrence>) {
    && next == t.(activities := next.activities, commands := next.commands)
    && next.activities.Keys == t.activities.Keys
    && (forall o <- t.activities ::
          var a := t.activities[o];
          next.activities[o] == Activity(a.id, a.plan, a.supported, a.content,
                                         if o in list && BecomesCommand(t, o, now) then Materialized
                                         else if o in list && IsWrittenOff(t, o, now) then NonMaterializable
                                         else a.status))
  }

  /** Exactly the occurrences that become Commands have one now, made from their content, and no Command changes. */
  ghost predicate CommandsMade(t: Tables, next: Tables, now: Time, list: seq<Occurrence>) {
    && (forall c <- t.commands :: c in next.commands && next.commands[c] == t.commands[c])
    && (forall o <- t.activities :: o in list && BecomesCommand(t, o, now) ==>
                                      t.activities[o].id in next.commands && next.commands[t.activities[o].id] == t.activities[o].content)
    && (forall c <- next.commands :: c in t.commands || exists o <- t.activities :: o in list && BecomesCommand(t, o, now)
                                                                                  && t.activities[o].id == c)
  }

  lemma VerdictMeans(t: Tables, o: Occurrence, now: Time)
    requires o in t.activities
    ensures t.activities[o].status.Pending? && Verdict(t, o, now).Materialized? <==> BecomesCommand(t, o, now)
    ensures Verdict(t, o, now) == if BecomesCommand(t, o, now) then Materialized
                                  else if IsWrittenOff(t, o, now) then NonMaterializable
                                  else t.activities[o].status
  {
  }

  lemma TurnedMeans(t: Tables, now: Time, list: seq<Occurrence>, o: Occurrence)
    requires o in t.activities
    ensures o in Turned(t, now, list) <==> o in list && BecomesCommand(t, o, now)
  {
    VerdictMeans(t, o, now);
  }

  lemma OutcomesMean(t: Tables, now: Time, list: seq<Occurrence>)
    requires UniqueIds(t) && Settled(t, now, list).Success?
    ensures OutcomesGiven(t, Settled(t, now, list).value, now, list)
  {
    forall o <- t.activities ensures Verdict(t, o, now) == if BecomesCommand(t, o, now) then Materialized
                                                           else if IsWrittenOff(t, o, now) then NonMaterializable
                                                           else t.activities[o].status
    {
      VerdictMeans(t, o, now);
    }
  }

  lemma CommandsMean(t: Tables, now: Time, list: seq<Occurrence>)
    requires UniqueIds(t) && Settled(t, now, list).Success?
    ensures CommandsMade(t, Settled(t, now, list).value, now, list)
  {
    var next, turned := Settled(t, now, list).value, Turned(t, now, list);
    forall o <- t.activities | o in list && BecomesCommand(t, o, now)
      ensures t.activities[o].id in next.commands && next.commands[t.activities[o].id] == t.activities[o].content
    {
      TurnedMeans(t, now, list, o);
      MadeFromIs(t, turned, o);
    }
    forall c <- t.commands ensures next.commands[c] == t.commands[c] {
      if c in MadeFrom(t, turned) {
        var o :| o in turned && c == t.activities[o].id;
        assert !Conflicts(t, o);
      }
    }
    forall c <- next.commands | c !in t.commands
      ensures exists o <- t.activities :: o in list && BecomesCommand(t, o, now) && t.activities[o].id == c
    {
      var o :| o in turned && c == t.activities[o].id;
      TurnedMeans(t, now, list, o);
    }
  }

  /**
   * A materialisation tick fails exactly if the id of one of its Commands is taken by another one; otherwise due
   * occurrences of supported kinds under active plans become Commands, those under disabled plans or of unsupported kinds
   * are written off, and those under paused plans stay.
   */
  lemma SettledMeans(t: Tables, now: Time, list: seq<Occurrence>)
    requires UniqueIds(t)
    ensures var clash := exists o <- t.activities :: o in list && BecomesCommand(t, o, now) && t.activities[o].id in t.commands
                                                     && t.commands[t.activities[o].id] != t.activities[o].content;
            match Settled(t, now, list)
            case Failure(e) => e == CommandConflict && clash
            case Success(next) => !clash && OutcomesGiven(t, next, now, list) && CommandsMade(t, next, now, list)
  {
    forall o <- t.activities ensures o in Turned(t, now, list) <==> o in list && BecomesCommand(t, o, now) {
      TurnedMeans(t, now, list, o);
    }
    if Settled(t, now, list).Success? {
      OutcomesMean(t, now, list);
      CommandsMean(t, now, list);
    } else {
      var o :| o in Turned(t, now, list) && Conflicts(t, o);
      assert o in t.activities && o in list && BecomesCommand(t, o, now);
    }
  }

  // ----- revisions -----

  function RevisionsOf(t: Tables, template: TemplateId): seq<Revision> {
    if template in t.revisions then t.revisions[template] else []
  }

  /** The next revision of its template, of the same plan, which exists, with an interval of 15 minutes to 30 days. */
  predicate RevisionFits(t: Tables, k: Key, r: Revision) {
    && k.revision == |RevisionsOf(t, k.template)| + 1
    && (RevisionsOf(t, k.template) != [] ==> r.plan == RevisionsOf(t, k.template)[0].plan)
    && r.plan in t.plans
    && (r.recurrence.Some? ==> 15 * 60 <= r.recurrence.value.seconds <= 30 * 24 * 60 * 60)
  }

  /** A revision is added exactly if it fits; a recurring one starts at its anchor and has generated nothing. */
  lemma RevisionMeans(t: Tables, k: Key, r: Revision)
    ensures match WithRevision(t, k, r)
            case Failure(_) => !RevisionFits(t, k, r)
            case Success(next) =>
              && RevisionFits(t, k, r)
              && next == t.(revisions := next.revisions, cursors := next.cursors)
              && next.revisions == t.revisions[k.template := RevisionsOf(t, k.template) + [r]]
              && (r.recurrence.None? ==> next.cursors == t.cursors)
              && (r.recurrence.Some? ==> next.cursors == t.cursors[k := Cursor(r.recurrence.value.anchor, None, 0)])
  {
  }
}
