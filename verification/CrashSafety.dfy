/** What a crash-safe trace means event by event, for a reader who has only the journal file. */
module CrashSafety {
  import opened Prelude
  import opened Journal
  import opened Publishing

  /** The record a reader finds after a crash at the end of this trace. */
  function LastWrote(trace: seq<Event>): Option<Operation> {
    if trace == [] then None
    else if trace[|trace| - 1].Wrote? then Some(trace[|trace| - 1].record)
    else LastWrote(trace[..|trace| - 1])
  }

  function Count(trace: seq<Event>, p: Event -> bool): nat {
    if trace == [] then 0 else Count(trace[..|trace| - 1], p) + (if p(trace[|trace| - 1]) then 1 else 0)
  }

  const IS_PUBLISH := (e: Event) => e.PublishSent?
  const IS_MODERATION := (e: Event) => e.ModerationSent?
  const IS_WRITE := (e: Event) => e.Wrote?

  lemma {:induction false} SeenCounts(trace: seq<Event>)
    ensures SeeAll(trace).Durable() == LastWrote(trace)
    ensures |SeeAll(trace).records| == Count(trace, IS_WRITE)
    ensures |SeeAll(trace).sends| == Count(trace, IS_PUBLISH)
    ensures |SeeAll(trace).mutations| == Count(trace, IS_MODERATION)
  {
    if trace == [] {
    } else {
      SeenCounts(trace[..|trace| - 1]);
    }
  }

  lemma {:induction false} SeenReply(trace: seq<Event>, reply: PublishReply)
    requires SeeAll(trace).reply == Some(reply)
    ensures PublishReplied(reply) in trace
  {
    var last := trace[|trace| - 1];
    if last != PublishReplied(reply) {
      SeenReply(trace[..|trace| - 1], reply);
    }
  }

  /** A read that counts as read again came after the answer to the publish request. */
  lemma {:induction false} SeenReread(trace: seq<Event>, reply: PublishReply, reread: GetReply)
    requires SeeAll(trace).reply == Some(reply) && SeeAll(trace).reread == Some(reread)
    ensures exists i, j :: 0 <= i < j < |trace| && trace[i] == PublishReplied(reply) && trace[j] == GetReplied(reread)
  {
    var before, last := trace[..|trace| - 1], trace[|trace| - 1];
    if last.GetReplied? {
      SeenReply(before, reply);
      var i :| 0 <= i < |before| && before[i] == PublishReplied(reply);
      assert trace[i] == PublishReplied(reply) && trace[|trace| - 1] == GetReplied(reread);
    } else {
      SeenReread(before, reply, reread);
      var i, j :| 0 <= i < j < |before| && before[i] == PublishReplied(reply) && before[j] == GetReplied(reread);
      assert trace[i] == PublishReplied(reply) && trace[j] == GetReplied(reread);
    }
  }

  lemma {:induction false} SeenConfirmed(trace: seq<Event>, answer: Moderated)
    requires SeeAll(trace).moderated == Some(answer)
    ensures ModerationReplied(answer) in trace
  {
    var last := trace[|trace| - 1];
    if last != ModerationReplied(answer) {
      SeenConfirmed(trace[..|trace| - 1], answer);
    }
  }

  /**
   * Cut anywhere, a run has sent at most one remote mutation, and written at most 25 records, that is at most
   * 24 updates.
   */
  lemma AtMostOnce(m: Manifest, trace: seq<Event>, n: nat)
    requires CrashSafe(m, trace) && n <= |trace|
    ensures Count(trace[..n], IS_PUBLISH) + Count(trace[..n], IS_MODERATION) <= 1
    ensures Count(trace[..n], IS_WRITE) <= 25
  {
    SeenCounts(trace[..n]);
    var s := SeeAll(trace[..n]);
    assert Ok(m, SeeAll(trace[..n]));
    if s.records != [] {
      ChainsAreShort(s.records);
    }
  }

  /** A publish request goes out only while the journal on disk says PUBLISH_REQUESTED for that very container. */
  lemma SentOnlyWhenDurable(m: Manifest, trace: seq<Event>, i: nat)
    requires CrashSafe(m, trace) && i < |trace| && trace[i].PublishSent?
    ensures LastWrote(trace[..i]).Some? && LastWrote(trace[..i]).value.phase.PublishRequested?
    ensures LastWrote(trace[..i]).value.container == Some(trace[i].container)
  {
    var before, after := SeeAll(trace[..i]), SeeAll(trace[..i + 1]);
    assert trace[..i + 1][..i] == trace[..i];
    assert Ok(m, SeeAll(trace[..i])) && Ok(m, SeeAll(trace[..i + 1]));
    assert after.sends == before.sends + [(before.records, trace[i].container)];
    SeenCounts(trace[..i]);
  }

  /** A moderation request goes out only while the journal on disk says MUTATION_REQUESTED for that very action. */
  lemma ModeratedOnlyWhenDurable(m: Manifest, trace: seq<Event>, i: nat)
    requires CrashSafe(m, trace) && i < |trace| && trace[i].ModerationSent?
    ensures LastWrote(trace[..i]).Some? && LastWrote(trace[..i]).value.phase.MutationRequested?
    ensures LastWrote(trace[..i]).value.action == Some(trace[i].action)
  {
    var before, after := SeeAll(trace[..i]), SeeAll(trace[..i + 1]);
    assert trace[..i + 1][..i] == trace[..i];
    assert Ok(m, SeeAll(trace[..i])) && Ok(m, SeeAll(trace[..i + 1]));
    assert after.mutations == before.mutations + [(before.records, trace[i].action)];
    SeenCounts(trace[..i]);
  }

  /** The publish request was refused for a listed reason, and afterwards the container was read again and is settled. */
  ghost predicate RefusedThenRead(trace: seq<Event>, container: Option<string>) {
    exists i, j, code, status ::
      && 0 <= i < j < |trace| && code in REJECTIONS && status in SETTLED
      && trace[i] == PublishReplied(ApiError(Some(code))) && trace[j] == GetReplied(Got(container, Some(status)))
  }

  lemma RefutedInOrder(trace: seq<Event>, container: Option<string>)
    requires Refuted(SeeAll(trace), container)
    ensures RefusedThenRead(trace, container)
  {
    var s := SeeAll(trace);
    SeenReread(trace, s.reply.value, s.reread.value);
    var i, j :| 0 <= i < j < |trace| && trace[i] == PublishReplied(s.reply.value) && trace[j] == GetReplied(s.reread.value);
    var code, status := s.reply.value.code.value, s.reread.value.status.value;
    assert trace[i] == PublishReplied(ApiError(Some(code))) && trace[j] == GetReplied(Got(container, Some(status)));
  }

  /** What the record found after a crash says is true of the remote side. */
  lemma JournalTellsTheTruth(m: Manifest, trace: seq<Event>, n: nat)
    requires CrashSafe(m, trace) && n <= |trace| && LastWrote(trace[..n]).Some?
    ensures var record := LastWrote(trace[..n]).value;
            && Valid(record)
            && (record.phase.Received? || record.phase.ChildrenCreating? || record.phase.ContainerCreated? ==>
                  Count(trace[..n], IS_PUBLISH) == 0)
            && (record.phase.Published? ==>
                  Count(trace[..n], IS_PUBLISH) == 1 && PublishReplied(Returned(record.media)) in trace[..n])
            && (record.phase.FailedFinal? && Count(trace[..n], IS_PUBLISH) > 0 ==>
                  RefusedThenRead(trace[..n], record.container))
  {
    var cut := trace[..n];
    var s := SeeAll(cut);
    SeenCounts(cut);
    assert Ok(m, SeeAll(trace[..n]));
    var record := LastWrote(cut).value;
    assert record in s.records;
    if record.phase.Published? {
      SeenReply(cut, s.reply.value);
    } else if record.phase.FailedFinal? && s.sends != [] {
      RefutedInOrder(cut, record.container);
    }
  }

  lemma KindIsFixed(records: seq<Operation>, earlier: seq<Operation>)
    requires Chain(records) && earlier != [] && earlier <= records
    ensures earlier[|earlier| - 1].kind == records[|records| - 1].kind && earlier[|earlier| - 1] in records
  {
    assert earlier[|earlier| - 1] == records[|earlier| - 1];
    ChainsAreShort(records);
    ChainsAreShort(earlier);
  }

  /** The same for a moderation record. */
  lemma ModerationTellsTheTruth(m: Manifest, trace: seq<Event>, n: nat)
    requires CrashSafe(m, trace) && n <= |trace| && LastWrote(trace[..n]).Some?
    requires LastWrote(trace[..n]).value.kind.ModerateReply?
    ensures var record := LastWrote(trace[..n]).value;
            && Count(trace[..n], IS_PUBLISH) == 0
            && (record.phase.Received? ==> Count(trace[..n], IS_MODERATION) == 0)
            && (record.phase.Confirmed? ==>
                  Count(trace[..n], IS_MODERATION) == 1 && ModerationReplied(ModerationConfirmed) in trace[..n])
            && (record.phase.Ambiguous? ==> Count(trace[..n], IS_MODERATION) == 1)
  {
    var cut := trace[..n];
    var s := SeeAll(cut);
    SeenCounts(cut);
    assert Ok(m, SeeAll(trace[..n]));
    if s.sends != [] {
      KindIsFixed(s.records, s.sends[0].0);
    }
    if LastWrote(cut).value.phase.Confirmed? {
      SeenConfirmed(cut, ModerationConfirmed);
    }
  }

  // ----- one operation over all processes on one store -----

  /** A process that worked on operation `id`, up to its end or its crash; `before` are the ids on disk when it began. */
  datatype Process = Process(id: Uuid, before: set<Uuid>, manifest: Manifest, trace: seq<Event>) {
    ghost predicate Possible() {
      && CrashSafe(manifest, trace) && (trace != [] ==> id !in before)
      && forall e <- trace :: e.Wrote? ==> e.record.id == id
    }

    /** The ids on disk when it ended, as far as it knows. */
    function After(): set<Uuid> { before + if LastWrote(trace).Some? then {id} else {} }

    function Sent(): nat { Count(trace, IS_PUBLISH) + Count(trace, IS_MODERATION) }
  }

  lemma {:induction false} RecordsWereWritten(trace: seq<Event>, e: Event)
    requires e in trace && e.Wrote?
    ensures e.record in SeeAll(trace).records
  {
    if e != trace[|trace| - 1] {
      RecordsWereWritten(trace[..|trace| - 1], e);
    } else {
      assert SeeAll(trace).records[|SeeAll(trace).records| - 1] == e.record;
    }
  }

  /** Wherever the runtime is cut, what it leaves behind is such a process. */
  lemma RuntimeIsPossible(r: Runtime, n: nat)
    requires r.Sound() && n <= |r.trace|
    ensures Process(r.id, r.before, r.manifest, r.trace[..n]).Possible()
  {
    var cut := r.trace[..n];
    forall k | 0 <= k <= |cut| ensures Ok(r.manifest, SeeAll(cut[..k])) {
      assert cut[..k] == r.trace[..k];
      assert Ok(r.manifest, SeeAll(r.trace[..k]));
    }
    forall e <- cut | e.Wrote? ensures e.record.id == r.id {
      assert e in r.trace;
      RecordsWereWritten(r.trace, e);
    }
  }

  /** Each process finds on disk at least what the one before it left: the store never drops a file. */
  ghost predicate OnOneStore(ps: seq<Process>) {
    && (forall p <- ps :: p.Possible())
    && forall i, j :: 0 <= i < j < |ps| ==> ps[i].After() <= ps[j].before
  }

  function SentFor(ps: seq<Process>, id: Uuid): nat {
    if ps == [] then 0
    else SentFor(ps[..|ps| - 1], id) + (if ps[|ps| - 1].id == id then ps[|ps| - 1].Sent() else 0)
  }

  lemma SendingLeavesRecord(p: Process)
    requires p.Possible() && p.Sent() > 0
    ensures p.id !in p.before && p.id in p.After() && p.Sent() == 1
  {
    AtMostOnce(p.manifest, p.trace, |p.trace|);
    assert p.trace[..|p.trace|] == p.trace;
    SeenCounts(p.trace);
    assert Ok(p.manifest, SeeAll(p.trace[..|p.trace|]));
  }

  lemma {:induction false} SomeoneSent(ps: seq<Process>, id: Uuid)
    requires OnOneStore(ps) && SentFor(ps, id) > 0
    ensures exists i :: 0 <= i < |ps| && ps[i].id == id && ps[i].Sent() > 0
  {
    var init, last := ps[..|ps| - 1], ps[|ps| - 1];
    if last.id == id && last.Sent() > 0 {
      assert ps[|ps| - 1].Sent() > 0;
    } else {
      SomeoneSent(init, id);
      var i :| 0 <= i < |init| && init[i].id == id && init[i].Sent() > 0;
      assert ps[i].id == id && ps[i].Sent() > 0;
    }
  }

  /** Over all processes that ever run on one store, an operation sends at most one remote mutation. */
  lemma {:induction false} OncePerOperation(ps: seq<Process>, id: Uuid)
    requires OnOneStore(ps)
    ensures SentFor(ps, id) <= 1
  {
    if ps == [] {
    } else {
      var init, last := ps[..|ps| - 1], ps[|ps| - 1];
      OncePerOperation(init, id);
      if last.id == id && last.Sent() > 0 {
        if SentFor(init, id) > 0 {
          SomeoneSent(init, id);
          var i :| 0 <= i < |init| && init[i].id == id && init[i].Sent() > 0;
          SendingLeavesRecord(init[i]);
          assert ps[i].After() <= ps[|ps| - 1].before;
        }
        SendingLeavesRecord(last);
      }
    }
  }

  /** A carousel past its children: one distinct child per item, in order, each seen FINISHED, and the same list in the parent. */
  lemma CarouselIsComplete(m: Manifest, trace: seq<Event>, n: nat)
    requires CrashSafe(m, trace) && n <= |trace| && LastWrote(trace[..n]).Some?
    requires var record := LastWrote(trace[..n]).value;
             record.kind.PostCarousel? && record.container.Some? && !record.phase.FailedFinal?
    ensures var record := LastWrote(trace[..n]).value;
            && |record.children| == |m.items| && Distinct(record.children)
            && |SeeAll(trace[..n]).created| == |m.items| + 1
            && (forall i :: 0 <= i < |m.items| ==> SeeAll(trace[..n]).created[i] == (Child(m.items[i]), record.children[i]))
            && SeeAll(trace[..n]).created[|m.items|..] == [(Parent(m.text, record.children), record.container.value)]
            && (forall c <- record.children :: c in SeeAll(trace[..n]).finished)
  {
    var s := SeeAll(trace[..n]);
    SeenCounts(trace[..n]);
    assert Ok(m, SeeAll(trace[..n]));
    var record := LastWrote(trace[..n]).value;
    assert record in s.records;
    assert MadeFrom(m, record, s);
  }
}
