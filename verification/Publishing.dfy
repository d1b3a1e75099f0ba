/**
 * The publishing runtime: every remote call and every durable write leaves an event, and a crash may cut the run
 * after any of them (standalone/mutations.py).
 */
module Publishing {
  import opened Prelude
  import opened Journal
  import opened JournalCodec
  import opened OperationStore

  // ----- the remote side -----

  datatype Item = Item(video: bool, url: string, altText: Option<string>)
  datatype Manifest = Manifest(items: seq<Item>, text: Option<string>)

  /** A single post is opaque; a carousel is made of child requests and one parent request. */
  datatype Request = Single(body: nat) | Child(item: Item) | Parent(text: Option<string>, children: seq<string>)

  /** What may come of a call: a value whose fields may be missing, an error, a cancellation, or an interrupt. */
  datatype CreateReply = Created(id: Option<string>) | CreateRaised(code: Option<string>) | CreateCancelled | CreateInterrupted
  datatype PublishReply =
    | Returned(media: Option<string>) | ApiError(code: Option<string>) | OtherError(code: Option<string>)
    | PublishCancelled | PublishInterrupted
  datatype GetReply =
    | Got(id: Option<string>, status: Option<string>) | GetRaised(code: Option<string>) | GetTimedOut | GetCancelled
    | GetInterrupted

  /** A moderation call answers with nothing, with something unexpected, or not at all. */
  datatype Moderated = ModerationConfirmed | ModerationUnexpected | ModerationFailed | ModerationInterrupted

  const REJECTIONS := {"THREADS_INVALID_REQUEST", "THREADS_AUTHENTICATION_FAILED", "THREADS_PERMISSION_DENIED",
                       "THREADS_OBJECT_NOT_FOUND"}
  const SETTLED := {"FINISHED", "ERROR", "EXPIRED"}

  datatype Event =
    | Wrote(record: Operation)
    | CreateSent(request: Request) | CreateReplied(created: CreateReply)
    | PublishSent(container: string) | PublishReplied(published: PublishReply)
    | GetSent(container: string) | GetReplied(got: GetReply)
    | ModerationSent(target: string, action: Action) | ModerationReplied(answer: Moderated)

  // ----- what a trace shows -----

  datatype Seen = Seen(
    records: seq<Operation>,            // every durable record, oldest first
    request: Option<Request>,           // the latest create request
    created: seq<(Request, string)>,    // answered create requests with the returned id
    asked: Option<string>,              // the latest container read
    finished: set<string>,              // containers read as FINISHED
    sends: seq<(seq<Operation>, string)>,  // publish requests: the durable records at that moment, the container
    reply: Option<PublishReply>,        // the answer to the publish request
    reread: Option<GetReply>,           // the latest read after that answer
    mutations: seq<(seq<Operation>, Action)>,  // moderation requests: the durable records at that moment, the action
    moderated: Option<Moderated>)       // the answer to the moderation request
  {
    function Durable(): Option<Operation> { if records == [] then None else Some(records[|records| - 1]) }

    predicate At(phase: Phase) { records != [] && records[|records| - 1].phase == phase }
  }

  const NOTHING := Seen([], None, [], None, {}, [], None, None, [], None)

  function See(s: Seen, e: Event): Seen {
    match e
    case Wrote(record) => s.(records := s.records + [record])
    case CreateSent(request) => s.(request := Some(request))
    case CreateReplied(reply) =>
      if reply.Created? && reply.id.Some? && s.request.Some?
      then s.(created := s.created + [(s.request.value, reply.id.value)])
      else s
    case PublishSent(container) => s.(sends := s.sends + [(s.records, container)])
    case PublishReplied(reply) => s.(reply := Some(reply), reread := None)
    case GetSent(container) => s.(asked := Some(container))
    case GetReplied(reply) =>
      s.(reread := Some(reply),
      finished := if reply.Got? && reply.id == s.asked && reply.id.Some? && reply.status == Some("FINISHED")
                  then s.finished + {reply.id.value} else s.finished)
    case ModerationSent(_, action) => s.(mutations := s.mutations + [(s.records, action)])
    case ModerationReplied(answer) => s.(moderated := Some(answer))
  }

  function SeeAll(trace: seq<Event>): Seen {
    if trace == [] then NOTHING else See(SeeAll(trace[..|trace| - 1]), trace[|trace| - 1])
  }

  // ----- what must hold at every instant -----

  /** The publish request was refused for a listed reason and the container was read again and is settled. */
  predicate Refuted(s: Seen, container: Option<string>) {
    && s.reply.Some? && s.reply.value.ApiError? && s.reply.value.code.Some? && s.reply.value.code.value in REJECTIONS
    && s.reread.Some? && s.reread.value.Got? && s.reread.value.id == container
    && s.reread.value.status.Some? && s.reread.value.status.value in SETTLED
  }

  /** The newest of the durable records at the moment of a request. */
  predicate SentUnder(s: Seen, records: seq<Operation>, phase: Phase) {
    records != [] && records <= s.records && records[|records| - 1].phase == phase
  }

  /** At most one remote mutation, and only while the durable record says it was requested. */
  predicate SentOnce(s: Seen) {
    && |s.sends| + |s.mutations| <= 1
    && (s.sends != [] ==>
          && SentUnder(s, s.sends[0].0, PublishRequested)
          && s.sends[0].0[|s.sends[0].0| - 1].container == Some(s.sends[0].1))
    && (s.mutations != [] ==>
          && SentUnder(s, s.mutations[0].0, MutationRequested)
          && s.mutations[0].0[|s.mutations[0].0| - 1].action == Some(s.mutations[0].1))
  }

  /** What the durable record lets a later reader conclude about the remote side. */
  predicate Truthful(s: Seen) {
    if s.records == [] then s.sends == [] && s.mutations == []
    else
      var record := s.records[|s.records| - 1];
      match record.phase
      case PublishRequested => true
      case MutationRequested => true
      case Published => s.sends != [] && s.reply == Some(Returned(record.media)) && record.media.Some?
      case Confirmed => s.mutations != [] && s.moderated == Some(ModerationConfirmed)
      case Ambiguous => s.sends != [] || s.mutations != []
      case FailedFinal => s.mutations == [] && (s.sends == [] || Refuted(s, record.container))
      case _ => s.sends == [] && s.mutations == []
  }

  function ChildRequests(items: seq<Item>, ids: seq<string>): (made: seq<(Request, string)>)
    requires |items| == |ids|
    ensures |made| == |items|
    ensures forall i :: 0 <= i < |items| ==> made[i] == (Child(items[i]), ids[i])
  {
    if items == [] then [] else ChildRequests(items[..|items| - 1], ids[..|ids| - 1]) + [(Child(items[|items| - 1]), ids[|ids| - 1])]
  }

  /** The parent was requested with exactly the recorded children, made one per item in order, each seen FINISHED. */
  predicate MadeFrom(m: Manifest, record: Operation, s: Seen) {
    && |record.children| == |m.items|
    && record.container.Some?
    && s.created == ChildRequests(m.items, record.children) + [(Parent(m.text, record.children), record.container.value)]
    && forall c <- record.children :: c in s.finished
  }

  predicate CarouselTruthful(m: Manifest, s: Seen) {
    s.records != [] ==>
      var record := s.records[|s.records| - 1];
      record.kind.PostCarousel? && record.container.Some? && !record.phase.FailedFinal? ==> MadeFrom(m, record, s)
  }

  ghost predicate Ok(m: Manifest, s: Seen) {
    match s
    case Seen(records, _, _, _, _, _, _, _, _, _) => Chain(records) && SentOnce(s) && Truthful(s) && CarouselTruthful(m, s)
  }

  /** A run may be cut after any event, so every prefix of its trace must be in order. */
  ghost predicate CrashSafe(m: Manifest, trace: seq<Event>) {
    forall n {:trigger Ok(m, SeeAll(trace[..n]))} :: 0 <= n <= |trace| ==> Ok(m, SeeAll(trace[..n]))
  }

  lemma InOrder(m: Manifest, trace: seq<Event>)
    requires CrashSafe(m, trace)
    ensures Ok(m, SeeAll(trace))
  {
    assert trace[..|trace|] == trace;
    assert Ok(m, SeeAll(trace[..|trace|]));
  }

  lemma OneMore(m: Manifest, trace: seq<Event>, e: Event)
    requires CrashSafe(m, trace) && Ok(m, See(SeeAll(trace), e))
    ensures CrashSafe(m, trace + [e]) && SeeAll(trace + [e]) == See(SeeAll(trace), e)
  {
    var longer := trace + [e];
    assert longer[..|trace|] == trace;
    forall n | 0 <= n <= |longer| ensures Ok(m, SeeAll(longer[..n])) {
      if n <= |trace| {
        assert longer[..n] == trace[..n];
        assert Ok(m, SeeAll(trace[..n]));
      } else {
        assert longer[..n] == longer;
      }
    }
  }

  // ----- the runtime -----

  datatype Outcome = Done(id: Uuid, media: string) | Raised(code: string, record: Option<Uuid>) | Interrupted
  datatype Readiness = Ready | NotReady(code: string) | WaitCancelled | WaitInterrupted

  const AMBIGUOUS := "PUBLISH_OUTCOME_AMBIGUOUS"
  const INVALID := "OPERATION_STATE_INVALID"
  const MISMATCH := "THREADS_DOCUMENTATION_CONTRACT_MISMATCH"
  const MODERATION_AMBIGUOUS := "MODERATION_OUTCOME_AMBIGUOUS"
  const CANCELLED := "OPERATION_CANCELLED"
  const TIMEOUT := "THREADS_CONTAINER_PROCESSING_TIMEOUT"
  const CONTAINER_ERROR := "THREADS_CONTAINER_ERROR"
  const CONTAINER_EXPIRED := "THREADS_CONTAINER_EXPIRED"
  const MAX_CHECKS := 10

  function SafeCodeOf(code: Option<string>): string {
    if code.Some? && SafeCode(code.value) then code.value else "THREADS_TRANSPORT_FAILURE"
  }

  predicate ValidRemote(id: Option<string>) { id.Some? && RemoteId(id.value) }

  lemma RecordsStay(s: Seen, e: Event)
    requires !e.Wrote?
    ensures See(s, e).records == s.records
  {
  }

  // ----- which events keep a trace in order -----

  /** The run still works on `o`, the newest durable record, and has asked the remote side for no mutation. */
  predicate Unsent(s: Seen, o: Operation) {
    s.records != [] && s.records[|s.records| - 1] == o && s.sends == [] && s.mutations == []
  }

  lemma CreatingOk(m: Manifest, s: Seen, e: Event)
    requires Ok(m, s) && (e.CreateSent? || e.CreateReplied?)
    requires s.records != [] ==> s.records[|s.records| - 1].container.None?
    ensures Ok(m, See(s, e)) && See(s, e).records == s.records
  {
  }

  lemma ReadingOk(m: Manifest, s: Seen, e: Event)
    requires Ok(m, s) && (e.GetSent? || e.GetReplied?) && !s.At(FailedFinal)
    ensures Ok(m, See(s, e)) && !See(s, e).At(FailedFinal)
  {
  }

  function AfterGet(s: Seen, container: string, reply: GetReply): Seen {
    s.(asked := Some(container), reread := Some(reply),
    finished := if reply.Got? && reply.id == Some(container) && reply.status == Some("FINISHED")
                then s.finished + {container} else s.finished)
  }

  lemma SeesGet(s: Seen, container: string, reply: GetReply)
    ensures See(See(s, GetSent(container)), GetReplied(reply)) == AfterGet(s, container, reply)
  {
  }

  function AfterCreate(s: Seen, request: Request, reply: CreateReply): Seen {
    s.(request := Some(request),
    created := if reply.Created? && reply.id.Some? then s.created + [(request, reply.id.value)] else s.created)
  }

  lemma SeesCreate(s: Seen, request: Request, reply: CreateReply)
    ensures See(See(s, CreateSent(request)), CreateReplied(reply)) == AfterCreate(s, request, reply)
  {
  }

  lemma ChainGrows(records: seq<Operation>, next: Operation)
    requires Chain(records) && records != [] && Valid(next) && MayUpdate(records[|records| - 1], next)
    ensures Chain(records + [next])
  {
    var longer := records + [next];
    forall i, j | 0 <= i < j < |longer| && j == i + 1 ensures MayUpdate(longer[i], longer[j]) {
      assert j < |records| ==> MayUpdate(records[i], records[j]);
    }
  }

  /** Before anything was sent, any record that claims no mutation may be written. */
  lemma QuietWriteOk(m: Manifest, s: Seen, o: Operation, next: Operation)
    requires Ok(m, s) && Unsent(s, o) && Valid(next) && MayUpdate(o, next)
    requires !next.phase.Published? && !next.phase.Ambiguous? && !next.phase.Confirmed?
    requires next.kind.PostCarousel? && next.container.Some? && !next.phase.FailedFinal? ==> MadeFrom(m, next, s)
    ensures Ok(m, See(s, Wrote(next)))
  {
    ChainGrows(s.records, next);
  }

  lemma QuietWriteFits(m: Manifest, trace: seq<Event>, s: Seen, o: Operation, next: Operation)
    requires CrashSafe(m, trace) && s == SeeAll(trace) && Unsent(s, o)
    requires !next.phase.Published? && !next.phase.Ambiguous? && !next.phase.Confirmed?
    requires next.kind.PostCarousel? && next.container.Some? && !next.phase.FailedFinal? ==> MadeFrom(m, next, s)
    ensures Valid(next) && MayUpdate(o, next) ==> Ok(m, See(s, Wrote(next)))
  {
    InOrder(m, trace);
    if Valid(next) && MayUpdate(o, next) {
      QuietWriteOk(m, s, o, next);
    }
  }

  /** The newest record is a later one of the same publish. */
  predicate Follows(s: Seen, o: Operation) {
    s.records != [] && s.records[|s.records| - 1].id == o.id && s.records[|s.records| - 1].container == o.container
  }

  /** The publish request is out and its outcome not yet recorded. */
  predicate Awaiting(s: Seen, o: Operation) {
    s.records != [] && s.records[|s.records| - 1] == o && s.sends != [] && o.phase.PublishRequested?
  }

  function AfterPublish(s: Seen, container: string, reply: PublishReply): Seen {
    s.(sends := s.sends + [(s.records, container)], reply := Some(reply), reread := None)
  }

  lemma SendingOk(m: Manifest, s: Seen, o: Operation, container: string, reply: PublishReply)
    requires Ok(m, s) && Unsent(s, o) && o.phase.PublishRequested? && o.container == Some(container)
    ensures Ok(m, See(s, PublishSent(container)))
    ensures Ok(m, See(See(s, PublishSent(container)), PublishReplied(reply)))
    ensures See(See(s, PublishSent(container)), PublishReplied(reply)) == AfterPublish(s, container, reply)
    ensures Awaiting(AfterPublish(s, container, reply), o)
  {
  }

  /** The records that may end a publish: each says no more than what was seen. */
  predicate Warranted(s: Seen, next: Operation) {
    || next.phase.Ambiguous?
    || (next.phase.Published? && next.media.Some? && s.reply == Some(Returned(next.media)))
    || (next.phase.FailedFinal? && Refuted(s, next.container))
  }

  lemma OutcomeWriteOk(m: Manifest, s: Seen, o: Operation, next: Operation)
    requires Ok(m, s) && Awaiting(s, o) && Valid(next) && MayUpdate(o, next) && Warranted(s, next)
    requires next.container == o.container && next.children == o.children
    ensures Ok(m, See(s, Wrote(next)))
  {
    ChainGrows(s.records, next);
    assert s.sends[0].0 <= s.records + [next];
  }

  lemma OutcomeWriteFits(m: Manifest, trace: seq<Event>, s: Seen, o: Operation, next: Operation)
    requires CrashSafe(m, trace) && s == SeeAll(trace) && Awaiting(s, o) && Warranted(s, next)
    requires next.container == o.container && next.children == o.children
    ensures Valid(next) && MayUpdate(o, next) ==> Ok(m, See(s, Wrote(next)))
  {
    InOrder(m, trace);
    if Valid(next) && MayUpdate(o, next) {
      OutcomeWriteOk(m, s, o, next);
    }
  }

  /** The moderation request is out and its outcome not yet recorded. */
  predicate AwaitingModeration(s: Seen, o: Operation) {
    s.records != [] && s.records[|s.records| - 1] == o && s.mutations != [] && o.phase.MutationRequested?
  }

  lemma ModeratingOk(m: Manifest, s: Seen, o: Operation, target: string, action: Action, answer: Moderated)
    requires Ok(m, s) && Unsent(s, o) && o.phase.MutationRequested? && o.action == Some(action)
    ensures Ok(m, See(s, ModerationSent(target, action)))
    ensures var after := See(See(s, ModerationSent(target, action)), ModerationReplied(answer));
            && Ok(m, after) && AwaitingModeration(after, o) && after.moderated == Some(answer)
            && after.mutations == s.mutations + [(s.records, action)] && after.sends == s.sends
  {
  }

  predicate ModerationWarranted(s: Seen, next: Operation) {
    (next.phase.Confirmed? && s.moderated == Some(ModerationConfirmed)) || next.phase.Ambiguous?
  }

  lemma ModerationWriteOk(m: Manifest, s: Seen, o: Operation, next: Operation)
    requires Ok(m, s) && AwaitingModeration(s, o) && Valid(next) && MayUpdate(o, next)
    requires ModerationWarranted(s, next)
    ensures Ok(m, See(s, Wrote(next)))
  {
    ChainGrows(s.records, next);
    assert s.mutations[0].0 <= s.records + [next];
  }

  lemma ModerationWriteFits(m: Manifest, trace: seq<Event>, s: Seen, o: Operation, next: Operation)
    requires CrashSafe(m, trace) && s == SeeAll(trace) && AwaitingModeration(s, o) && ModerationWarranted(s, next)
    ensures Valid(next) && MayUpdate(o, next) ==> Ok(m, See(s, Wrote(next)))
  {
    InOrder(m, trace);
    if Valid(next) && MayUpdate(o, next) {
      ModerationWriteOk(m, s, o, next);
    }
  }

  /** Nothing but reads of one container, answered in this order. */
  function Reads(container: string, replies: seq<GetReply>): seq<Event> {
    if replies == [] then []
    else Reads(container, replies[..|replies| - 1]) + [GetSent(container)] + [GetReplied(replies[|replies| - 1])]
  }

  lemma OneMoreRead(container: string, replies: seq<GetReply>, reply: GetReply, trace: seq<Event>)
    ensures trace + Reads(container, replies + [reply])
            == trace + Reads(container, replies) + [GetSent(container)] + [GetReplied(reply)]
  {
    assert (replies + [reply])[..|replies|] == replies;
  }

  /** The newest durable record is PUBLISHED under the returned id. */
  predicate PublishedAs(s: Seen, kind: Kind, r: Outcome)
    requires r.Done?
  {
    s.At(Published) &&
    var record := s.records[|s.records| - 1];
    record.kind == kind && record.id == r.id && record.media == Some(r.media)
  }

  // ----- what a run whose every write succeeded comes to -----

  lemma OutcomeCodesAreSafe()
    ensures SafeCode(AMBIGUOUS) && SafeCode(INVALID) && SafeCode(MISMATCH)
  {
  }

  lemma ModerationCodeIsSafe()
    ensures SafeCode(MODERATION_AMBIGUOUS)
  {
  }

  lemma CancellationIsSafe()
    ensures SafeCode(CANCELLED)
  {
  }

  lemma ContainerCodesAreSafe()
    ensures SafeCode(TIMEOUT) && SafeCode(CONTAINER_ERROR) && SafeCode(CONTAINER_EXPIRED)
  {
  }

  lemma CodeIsSafe(code: Option<string>)
    ensures SafeCode(SafeCodeOf(code))
  {
  }

  lemma RejectionsAreSafe(code: string)
    requires code in REJECTIONS
    ensures SafeCode(code)
  {
  }

  lemma FirstIsValid(id: Uuid, account: Uuid, kind: Kind, action: Option<Action>)
    requires action.Some? <==> kind.ModerateReply?
    ensures Valid(NewRecord(id, account, kind, action))
  {
  }

  lemma FirstWriteOk(m: Manifest, o: Operation)
    requires Valid(o) && o.phase.Received?
    ensures Ok(m, See(NOTHING, Wrote(o))) && See(NOTHING, Wrote(o)) == NOTHING.(records := [o])
  {
    assert [] + [o] == [o];
  }

  lemma MayBeGivenUp(m: Manifest, trace: seq<Event>, o: Operation, code: string)
    requires CrashSafe(m, trace) && Unsent(SeeAll(trace), o) && Unfinished(o) && SafeCode(code)
    ensures var next := o.(phase := FailedFinal, outcome := Some(code)); Valid(next) && MayUpdate(o, next)
  {
    InOrder(m, trace);
    assert o in SeeAll(trace).records;
  }

  lemma MayBeRequested(o: Operation)
    requires Valid(o) && o.phase.ContainerCreated? && !o.kind.ModerateReply?
    ensures var next := o.(phase := PublishRequested); Valid(next) && MayUpdate(o, next)
  {
  }

  /** The newest record of a publish that is out. */
  lemma AwaitingIsValid(m: Manifest, trace: seq<Event>, o: Operation)
    requires CrashSafe(m, trace) && Awaiting(SeeAll(trace), o)
    ensures Valid(o) && !o.kind.ModerateReply?
  {
    InOrder(m, trace);
    assert o in SeeAll(trace).records;
  }

  lemma MayBeDoubted(o: Operation, code: string)
    requires Valid(o) && !o.kind.ModerateReply? && o.phase.PublishRequested? && SafeCode(code)
    ensures var next := o.(phase := Ambiguous, outcome := Some(code)); Valid(next) && MayUpdate(o, next) && next.media.None?
  {
  }

  lemma MayBeRefused(o: Operation, code: string)
    requires Valid(o) && !o.kind.ModerateReply? && o.phase.PublishRequested? && SafeCode(code)
    ensures var next := o.(phase := FailedFinal, outcome := Some(code)); Valid(next) && MayUpdate(o, next) && next.media.None?
  {
  }

  lemma MayBePublished(o: Operation, media: string)
    requires Valid(o) && !o.kind.ModerateReply? && o.phase.PublishRequested? && RemoteId(media)
    ensures var next := o.(phase := Published, media := Some(media)); Valid(next) && MayUpdate(o, next) && next.outcome.None?
  {
  }

  lemma MayBeCreated(m: Manifest, trace: seq<Event>, o: Operation, container: string)
    requires CrashSafe(m, trace) && Unsent(SeeAll(trace), o) && o.phase.Received? && RemoteId(container)
    requires !o.kind.ModerateReply? && !o.kind.PostCarousel?
    ensures var next := o.(phase := ContainerCreated, container := Some(container)); Valid(next) && MayUpdate(o, next)
  {
    InOrder(m, trace);
    assert o in SeeAll(trace).records;
  }

  lemma MayModerate(m: Manifest, trace: seq<Event>, o: Operation)
    requires CrashSafe(m, trace) && Unsent(SeeAll(trace), o) && o.kind.ModerateReply? && o.phase.Received?
    ensures var next := o.(phase := MutationRequested); Valid(next) && MayUpdate(o, next)
  {
    InOrder(m, trace);
    assert o in SeeAll(trace).records;
  }

  lemma ModerationMayBeConcluded(o: Operation)
    requires Valid(o) && o.kind.ModerateReply? && o.phase.MutationRequested?
    ensures var next := o.(phase := Confirmed); Valid(next) && MayUpdate(o, next)
    ensures var next := o.(phase := Ambiguous, outcome := Some(MODERATION_AMBIGUOUS)); Valid(next) && MayUpdate(o, next)
  {
    ModerationCodeIsSafe();
  }

  /** The remote side ended the run itself: the last event is an interrupted call. */
  predicate CutOff(trace: seq<Event>) {
    trace != [] && (trace[|trace| - 1] == CreateReplied(CreateInterrupted) || trace[|trace| - 1] == GetReplied(GetInterrupted))
  }

  /** A publish before its request. */
  predicate Unfinished(o: Operation) {
    !o.kind.ModerateReply? && (o.phase.Received? || o.phase.ChildrenCreating? || o.phase.ContainerCreated?)
  }

  /** Nothing was sent: the run was cut off, or the record is FAILED_FINAL with the code that was raised. */
  predicate GivenUp(trace: seq<Event>, s: Seen, r: Outcome) {
    && s.sends == [] && s.mutations == [] && s.records != []
    && if CutOff(trace) then r.Interrupted?
       else
         var record := s.records[|s.records| - 1];
         record.phase.FailedFinal? && record.outcome.Some? && r == Raised(record.outcome.value, Some(record.id))
  }

  /** The request brought no id, or one that cannot be used. */
  ghost predicate NotMade(s: Seen, after: Seen, request: Request, children: seq<string>) {
    && after.finished == s.finished
    && (|| after.created == s.created
        || exists id: string :: after.created == s.created + [(request, id)] && (!RemoteId(id) || id in children))
  }

  predicate SameButReads(s: Seen, after: Seen) {
    after.created == s.created && after.sends == s.sends && s.finished <= after.finished
  }

  predicate SentFor(s: Seen, container: string) { |s.sends| == 1 && s.sends[0].1 == container }

  /** The container was published exactly if it needed no processing or was found FINISHED, and the run is concluded. */
  predicate Delivered(container: string, waits: bool, before: Seen, trace: seq<Event>, s: Seen, r: Outcome) {
    && Concluded(trace, s, r)
    && if s.sends != [] then SentFor(s, container) && (waits ==> container in s.finished)
       else waits && s.finished == before.finished
  }

  predicate LeftAs(s: Seen, phase: Phase, outcome: Option<string>, media: Option<string>) {
    s.records != [] &&
    var record := s.records[|s.records| - 1];
    record.phase == phase && record.outcome == outcome && record.media == media
  }

  /** The code of a refusal, or what the container was found to be instead. */
  function RefusalCode(code: string, status: string): string {
    if status == "ERROR" then CONTAINER_ERROR
    else if status == "EXPIRED" then CONTAINER_EXPIRED
    else code
  }

  /**
   * What each answer to the publish request comes to.  PUBLISHED exactly for a usable media id; FAILED_FINAL exactly
   * for a refusal that the container, read again, bears out; AMBIGUOUS for everything else.
   */
  predicate Answered(s: Seen, r: Outcome) {
    s.records != [] && s.reply.Some? &&
    var record := s.records[|s.records| - 1];
    match s.reply.value
    case Returned(media) =>
      if ValidRemote(media) then LeftAs(s, Published, None, media) && r == Done(record.id, media.value)
      else LeftAs(s, Ambiguous, Some(MISMATCH), None) && r == Raised(AMBIGUOUS, Some(record.id))
    case ApiError(code) =>
      if Refuted(s, record.container) then
        && LeftAs(s, FailedFinal, Some(RefusalCode(code.value, s.reread.value.status.value)), None)
        && r == Raised(RefusalCode(code.value, s.reread.value.status.value), Some(record.id))
      else
        && LeftAs(s, Ambiguous, Some(SafeCodeOf(code)), None)
        && r == (if s.reread == Some(GetInterrupted) then Interrupted else Raised(AMBIGUOUS, Some(record.id)))
    case OtherError(code) => LeftAs(s, Ambiguous, Some(SafeCodeOf(code)), None) && r == Raised(AMBIGUOUS, Some(record.id))
    case PublishCancelled => LeftAs(s, Ambiguous, Some(AMBIGUOUS), None) && r == Raised(AMBIGUOUS, Some(record.id))
    case PublishInterrupted => LeftAs(s, Ambiguous, Some(AMBIGUOUS), None) && r == Interrupted
  }

  /** A publish that was sent is answered for; one that was not is given up. */
  predicate Concluded(trace: seq<Event>, s: Seen, r: Outcome) {
    if s.sends == [] then GivenUp(trace, s, r) else Answered(s, r)
  }

  /** The one answer to the moderation request is CONFIRMED or AMBIGUOUS on disk. */
  predicate ModerationAnswered(s: Seen, id: Uuid, target: string, action: Action, r: Outcome) {
    |s.mutations| == 1 && s.mutations[0].1 == action && s.moderated.Some? &&
    if s.moderated.value.ModerationConfirmed? then LeftAs(s, Confirmed, None, None) && r == Done(id, target)
    else
      && LeftAs(s, Ambiguous, Some(MODERATION_AMBIGUOUS), None)
      && r == (if s.moderated.value.ModerationInterrupted? then Interrupted else Raised(MODERATION_AMBIGUOUS, Some(id)))
  }

  /** Every read but the last found the container in progress, and the last one decides. */
  predicate PolledTo(container: string, replies: seq<GetReply>, r: Readiness) {
    && 1 <= |replies| <= MAX_CHECKS
    && (forall i :: 0 <= i < |replies| - 1 ==> replies[i] == Got(Some(container), Some("IN_PROGRESS")))
    && match replies[|replies| - 1]
       case GetRaised(code) => r == NotReady(SafeCodeOf(code))
       case GetTimedOut => r == NotReady(TIMEOUT)
       case GetCancelled => r == WaitCancelled
       case GetInterrupted => r == WaitInterrupted
       case Got(id, status) =>
         if id != Some(container) || status.None? then r == NotReady(MISMATCH)
         else
           match status.value
           case "FINISHED" => r == Ready
           case "ERROR" => r == NotReady(CONTAINER_ERROR)
           case "EXPIRED" => r == NotReady(CONTAINER_EXPIRED)
           case "IN_PROGRESS" => |replies| == MAX_CHECKS && r == NotReady(TIMEOUT)
           case _ => r == NotReady(MISMATCH)
  }

  lemma PollEnds(container: string, replies: seq<GetReply>, r: Readiness, trace: seq<Event>)
    requires PolledTo(container, replies, r)
    ensures r.WaitInterrupted? ==> CutOff(trace + Reads(container, replies))
    ensures r.NotReady? ==> SafeCode(r.code)
  {
    ContainerCodesAreSafe();
    OutcomeCodesAreSafe();
    var last := replies[|replies| - 1];
    if last.GetRaised? {
      CodeIsSafe(last.code);
    }
  }

  /** A quota is known and used up. */
  predicate Reached(usage: Option<int>, total: Option<int>) { usage.Some? && total.Some? && total.value <= usage.value }

  /** What publishing a single container comes to, once the operation is started. */
  ghost predicate SinglePublished(body: nat, waits: bool, trace: seq<Event>, s: Seen, r: Outcome) {
    && Concluded(trace, s, r)
    && |s.created| <= 1 && (forall c <- s.created :: c.0 == Single(body))
    && (s.sends != [] <==> s.created != [] && RemoteId(s.created[0].1) && (waits ==> s.created[0].1 in s.finished))
    && (s.sends != [] ==> SentFor(s, s.created[0].1))
  }

  /** Every child and the parent came back with an id of its own that can be used, and each was seen FINISHED. */
  predicate AllMade(m: Manifest, s: Seen) {
    && |s.created| == |m.items| + 1
    && (forall i :: 0 <= i < |s.created| ==> RemoteId(s.created[i].1) && s.created[i].1 in s.finished)
    && (forall i, j :: 0 <= i < j < |s.created| ==> s.created[i].1 != s.created[j].1)
  }

  /** What publishing a carousel comes to, once the operation is started. */
  ghost predicate CarouselPublished(m: Manifest, trace: seq<Event>, s: Seen, r: Outcome) {
    && Concluded(trace, s, r)
    && (s.sends != [] <==> AllMade(m, s))
    && (s.sends != [] ==> SentFor(s, s.created[|m.items|].1))
  }

  lemma MadeIsAll(m: Manifest, o: Operation, s: Seen)
    requires Valid(o) && o.kind.PostCarousel? && o.phase.ContainerCreated? && MadeFrom(m, o, s)
    ensures s.created[|m.items|].1 == o.container.value
    ensures o.container.value in s.finished <==> AllMade(m, s)
  {
    forall i | 0 <= i < |m.items| ensures s.created[i].1 == o.children[i] {
      assert s.created[i] == ChildRequests(m.items, o.children)[i];
    }
  }

  lemma UnusableParent(m: Manifest, o: Operation, s: Seen, after: Seen)
    requires |o.children| == |m.items| && s.created == ChildRequests(m.items, o.children)
    requires NotMade(s, after, Parent(m.text, o.children), o.children)
    ensures !AllMade(m, after)
  {
    if after.created != s.created {
      var id: string :| after.created == s.created + [(Parent(m.text, o.children), id)] && (!RemoteId(id) || id in o.children);
      assert after.created[|m.items|].1 == id;
      if id in o.children {
        var k :| 0 <= k < |o.children| && o.children[k] == id;
        assert after.created[k].1 == id;
      }
    }
  }

  lemma DeliveredMeans(m: Manifest, o: Operation, before: Seen, trace: seq<Event>, s: Seen, r: Outcome)
    requires Valid(o) && o.kind.PostCarousel? && o.phase.ContainerCreated? && MadeFrom(m, o, before)
    requires o.container.value !in before.finished && s.created == before.created && before.finished <= s.finished
    ensures Delivered(o.container.value, true, before, trace, s, r) ==> CarouselPublished(m, trace, s, r)
  {
    if Delivered(o.container.value, true, before, trace, s, r) {
      MadeIsAll(m, o, s);
    }
  }

  lemma MayBeginCarousel(m: Manifest, trace: seq<Event>, o: Operation)
    requires CrashSafe(m, trace) && Unsent(SeeAll(trace), o) && o.kind.PostCarousel? && o.phase.Received?
    ensures var next := o.(phase := ChildrenCreating); Valid(next) && MayUpdate(o, next)
  {
    InOrder(m, trace);
    assert o in SeeAll(trace).records;
  }

  lemma MayBeParented(o: Operation, container: string)
    requires Valid(o) && o.kind.PostCarousel? && o.phase.ChildrenCreating? && |o.children| >= MIN_ITEMS
    requires RemoteId(container) && container !in o.children
    ensures var next := o.(phase := ContainerCreated, container := Some(container)); Valid(next) && MayUpdate(o, next)
  {
  }

  class Runtime {
    const store: Store
    const id: Uuid
    ghost const manifest: Manifest
    ghost const before: set<Uuid>
    ghost var trace: seq<Event>
    ghost var seen: Seen
    ghost var healthy: bool     // whether the disk has let every write happen so far

    /** The trace is crash safe, of an id that was free, and the file on disk is the newest durable record. */
    ghost predicate Sound()
      reads this, store
    {
      CrashSafe(manifest, trace) && seen == SeeAll(trace) && OnDisk(seen.records) && Free()
    }

    /** Only the files of this operation are new, and the run leaves no event for an id that was taken. */
    ghost predicate Free()
      reads this, store
    {
      && before <= store.files.Keys && (trace != [] ==> seen.records != [] && id !in before)
      && forall o <- seen.records :: o.id == id
    }

    ghost predicate OnDisk(records: seq<Operation>)
      reads store
    {
      records != [] ==>
        var o := records[|records| - 1];
        o.id in store.files && Valid(o) && Encode(o) == Some(store.files[o.id])
    }

    constructor (store: Store, id: Uuid, ghost manifest: Manifest)
      ensures Sound() && trace == [] && this.store == store && this.id == id && this.manifest == manifest
      ensures before == store.files.Keys && healthy
    {
      this.store := store;
      this.id := id;
      this.manifest := manifest;
      before := store.files.Keys;
      trace, seen, healthy := [], NOTHING, true;
    }

    ghost method Log(e: Event)
      requires Sound() && seen.records != [] && !e.Wrote? && Ok(manifest, See(seen, e))
      modifies this
      ensures Sound() && trace == old(trace) + [e] && seen == See(old(seen), e) && healthy == old(healthy)
    {
      OneMore(manifest, trace, e);
      RecordsStay(seen, e);
      trace, seen := trace + [e], See(seen, e);
    }

    /** A checked update of the journal; the run goes on with the new record only if it is durable. */
    method Persist(o: Operation) returns (written: bool)
      requires Sound() && seen.records != [] && seen.records[|seen.records| - 1].id == o.id
      requires Valid(o) && MayUpdate(seen.records[|seen.records| - 1], o) ==> Ok(manifest, See(seen, Wrote(o)))
      modifies this, store
      ensures Sound()
      ensures written ==> Valid(o) && trace == old(trace) + [Wrote(o)] && seen == old(seen).(records := old(seen.records) + [o])
      ensures !written ==> trace == old(trace) && seen == old(seen)
      ensures healthy ==> old(healthy)
      ensures healthy && Valid(o) && MayUpdate(old(seen).records[|old(seen).records| - 1], o) ==> written
    {
      StoreReadsBackFile(store.files[o.id], seen.records[|seen.records| - 1]);
      var disk: bool := *;
      healthy := healthy && disk;
      var r := store.Update(o, disk);
      written := r.Success?;
      if written {
        LogWrote(o);
      }
    }

    ghost method LogWrote(o: Operation)
      requires CrashSafe(manifest, trace) && seen == SeeAll(trace) && Free() && seen.records != []
      requires o.id == id && Valid(o) && id in store.files && Encode(o) == Some(store.files[id])
      requires Ok(manifest, See(seen, Wrote(o)))
      modifies this
      ensures Sound() && trace == old(trace) + [Wrote(o)] && seen == See(old(seen), Wrote(o)) && healthy == old(healthy)
    {
      OneMore(manifest, trace, Wrote(o));
      trace, seen := trace + [Wrote(o)], See(seen, Wrote(o));
    }

    ghost method LogFirst(o: Operation)
      requires Sound() && trace == [] && o.id == id && id !in before && o.phase.Received?
      requires Valid(o) && id in store.files && Encode(o) == Some(store.files[id])
      modifies this
      ensures Sound() && seen == NOTHING.(records := [o]) && healthy == old(healthy)
    {
      FirstWriteOk(manifest, o);
      OneMore(manifest, trace, Wrote(o));
      trace, seen := trace + [Wrote(o)], See(seen, Wrote(o));
    }

    /** The first record of an operation. */
    method Start(account: Uuid, kind: Kind, action: Option<Action>) returns (r: Option<Operation>)
      requires Sound() && trace == []
      modifies this, store
      ensures Sound()
      ensures r.Some? ==> Unsent(seen, r.value) && r.value == NewRecord(id, account, kind, action) && seen.created == []
      ensures id in old(store.files) ==> r.None?
      ensures r.None? ==> trace == [] && store.files == old(store.files)
      ensures healthy && id !in old(store.files) && Valid(NewRecord(id, account, kind, action)) ==> r.Some?
      ensures healthy ==> old(healthy)
      ensures r.Some? ==> seen.finished == {}
    {
      var disk: bool := *;
      healthy := healthy && disk;
      var created := store.CreateReceived(id, account, kind, action, disk);
      if created.Failure? {
        return None;
      }
      LogFirst(created.value);
      r := Some(created.value);
    }

    /** A request and its answer. */
    ghost method LogExchange(sent: Event, replied: Event)
      requires Sound() && seen.records != [] && !sent.Wrote? && !replied.Wrote?
      requires Ok(manifest, See(seen, sent)) && Ok(manifest, See(See(seen, sent), replied))
      modifies this
      ensures Sound() && trace == old(trace) + [sent] + [replied] && seen == See(See(old(seen), sent), replied)
      ensures healthy == old(healthy)
    {
      RecordsStay(seen, sent);
      Log(sent);
      Log(replied);
    }

    method CreateContainer(request: Request) returns (reply: CreateReply)
      requires Sound() && seen.records != [] && seen.records[|seen.records| - 1].container.None?
      modifies this
      ensures Sound() && healthy == old(healthy)
      ensures seen == AfterCreate(old(seen), request, reply)
      ensures trace == old(trace) + [CreateSent(request)] + [CreateReplied(reply)]
    {
      var answer: CreateReply := *;
      InOrder(manifest, trace);
      CreatingOk(manifest, seen, CreateSent(request));
      CreatingOk(manifest, See(seen, CreateSent(request)), CreateReplied(answer));
      SeesCreate(seen, request, answer);
      LogExchange(CreateSent(request), CreateReplied(answer));
      reply := answer;
    }

    method GetContainer(container: string) returns (reply: GetReply)
      requires Sound() && seen.records != [] && !seen.At(FailedFinal)
      modifies this
      ensures Sound() && healthy == old(healthy)
      ensures seen == AfterGet(old(seen), container, reply)
      ensures trace == old(trace) + [GetSent(container)] + [GetReplied(reply)]
    {
      var answer: GetReply := *;
      InOrder(manifest, trace);
      ReadingOk(manifest, seen, GetSent(container));
      ReadingOk(manifest, See(seen, GetSent(container)), GetReplied(answer));
      SeesGet(seen, container, answer);
      LogExchange(GetSent(container), GetReplied(answer));
      reply := answer;
    }

    /** Polls a container until it is settled, a bounded number of times. */
    method WaitForReady(container: string) returns (r: Readiness, ghost replies: seq<GetReply>)
      requires Sound() && seen.records != [] && !seen.At(FailedFinal)
      modifies this
      ensures Sound() && healthy == old(healthy)
      ensures seen == old(seen).(asked := seen.asked, reread := seen.reread, finished := seen.finished)
      ensures seen.finished == if r.Ready? then old(seen.finished) + {container} else old(seen.finished)
      ensures PolledTo(container, replies, r) && trace == old(trace) + Reads(container, replies)
    {
      replies := [];
      for check := 0 to MAX_CHECKS
        invariant Sound() && seen.records != [] && |replies| == check && trace == old(trace) + Reads(container, replies)
        invariant seen == old(seen).(asked := seen.asked, reread := seen.reread) && healthy == old(healthy)
        invariant forall i :: 0 <= i < check ==> replies[i] == Got(Some(container), Some("IN_PROGRESS"))
      {
        var reply := GetContainer(container);
        OneMoreRead(container, replies, reply, old(trace));
        replies := replies + [reply];
        match reply
        case GetRaised(code) => return NotReady(SafeCodeOf(code)), replies;
        case GetTimedOut => return NotReady(TIMEOUT), replies;
        case GetCancelled => return WaitCancelled, replies;
        case GetInterrupted => return WaitInterrupted, replies;
        case Got(id, status) =>
          if id != Some(container) {
            return NotReady(MISMATCH), replies;
          }
          if status == Some("FINISHED") {
            return Ready, replies;
          }
          if status == Some("ERROR") {
            return NotReady(CONTAINER_ERROR), replies;
          }
          if status == Some("EXPIRED") {
            return NotReady(CONTAINER_EXPIRED), replies;
          }
          if status != Some("IN_PROGRESS") {
            return NotReady(MISMATCH), replies;
          }
      }
      r := NotReady(TIMEOUT);
    }

    /** Writes a record that claims no remote mutation. */
    method WriteQuietly(o: Operation, next: Operation) returns (written: bool)
      requires Sound() && Unsent(seen, o) && next.id == o.id
      requires !next.phase.Published? && !next.phase.Ambiguous? && !next.phase.Confirmed?
      requires next.kind.PostCarousel? && next.container.Some? && !next.phase.FailedFinal? ==> MadeFrom(manifest, next, seen)
      modifies this, store
      ensures Sound()
      ensures written ==> Valid(next) && Unsent(seen, next) && seen == old(seen).(records := old(seen.records) + [next])
      ensures !written ==> seen == old(seen)
      ensures healthy ==> old(healthy)
      ensures healthy && Valid(next) && MayUpdate(o, next) ==> written && trace == old(trace) + [Wrote(next)]
    {
      QuietWriteFits(manifest, trace, seen, o, next);
      written := Persist(next);
    }

    /** Gives an operation up before anything was sent; the write may fail, and then the older record stays. */
    method GiveUp(o: Operation, code: string) returns (r: Outcome)
      requires Sound() && Unsent(seen, o)
      modifies this, store
      ensures Sound() && !r.Done?
      ensures seen == old(seen).(records := seen.records)
      ensures healthy ==> old(healthy)
      ensures healthy && Unfinished(o) && SafeCode(code) ==> GivenUp(trace, seen, r)
    {
      if Unfinished(o) && SafeCode(code) {
        MayBeGivenUp(manifest, trace, o, code);
      }
      var _ := WriteQuietly(o, o.(phase := FailedFinal, outcome := Some(code)));
      r := Raised(code, Some(o.id));
    }

    /** Writes what is known of a publish that was sent. */
    method WriteOutcome(o: Operation, next: Operation) returns (written: bool)
      requires Sound() && Awaiting(seen, o) && Warranted(seen, next)
      requires next.id == o.id && next.container == o.container && next.children == o.children
      modifies this, store
      ensures Sound()
      ensures written ==> seen == old(seen).(records := old(seen.records) + [next])
      ensures !written ==> seen == old(seen)
      ensures healthy ==> old(healthy)
      ensures healthy && Valid(next) && MayUpdate(o, next) ==> written
    {
      OutcomeWriteFits(manifest, trace, seen, o, next);
      written := Persist(next);
    }

    /** Records that nobody knows whether the publish happened; the write may fail and PUBLISH_REQUESTED stays. */
    method MarkAmbiguous(o: Operation, code: string) returns (r: Outcome)
      requires Sound() && Awaiting(seen, o)
      modifies this, store
      ensures Sound() && !r.Done? && r == Raised(AMBIGUOUS, Some(o.id))
      ensures seen == old(seen).(records := seen.records)
      ensures healthy ==> old(healthy)
      ensures healthy && SafeCode(code) ==> LeftAs(seen, Ambiguous, Some(code), None) && Follows(seen, o)
    {
      if SafeCode(code) {
        AwaitingIsValid(manifest, trace, o);
        MayBeDoubted(o, code);
      }
      var _ := WriteOutcome(o, o.(phase := Ambiguous, outcome := Some(code)));
      r := Raised(AMBIGUOUS, Some(o.id));
    }

    /** Records a refuted publish, or failing that an ambiguous one. */
    method MarkFailed(o: Operation, code: string) returns (r: Outcome)
      requires Sound() && Awaiting(seen, o) && Refuted(seen, o.container)
      modifies this, store
      ensures Sound() && !r.Done?
      ensures seen == old(seen).(records := seen.records)
      ensures healthy ==> old(healthy)
      ensures healthy && SafeCode(code) ==>
                LeftAs(seen, FailedFinal, Some(code), None) && Follows(seen, o) && r == Raised(code, Some(o.id))
    {
      if SafeCode(code) {
        AwaitingIsValid(manifest, trace, o);
        MayBeRefused(o, code);
      }
      var written := WriteOutcome(o, o.(phase := FailedFinal, outcome := Some(code)));
      if written {
        return Raised(code, Some(o.id));
      }
      r := MarkAmbiguous(o, code);
    }

    /** A refused publish is final only for a listed reason and after the container was read again and is settled. */
    method SettleRefusal(o: Operation, container: string, refusal: Option<string>) returns (r: Outcome)
      requires Sound() && Awaiting(seen, o) && o.container == Some(container)
      requires seen.reply == Some(ApiError(refusal))
      modifies this, store
      ensures Sound() && !r.Done?
      ensures SameButReads(old(seen), seen) && (healthy ==> old(healthy) && Answered(seen, r))
    {
      var reply := GetContainer(container);
      r := SettleRead(o, container, refusal, reply);
    }

    /** What the container, read again, makes of a refusal. */
    method SettleRead(o: Operation, container: string, refusal: Option<string>, reply: GetReply) returns (r: Outcome)
      requires Sound() && Awaiting(seen, o) && o.container == Some(container)
      requires seen.reply == Some(ApiError(refusal)) && seen.reread == Some(reply)
      modifies this, store
      ensures Sound() && !r.Done?
      ensures SameButReads(old(seen), seen) && (healthy ==> old(healthy) && Answered(seen, r))
    {
      var code := SafeCodeOf(refusal);
      CodeIsSafe(refusal);
      if !reply.Got? {
        r := MarkAmbiguous(o, code);
        return if reply.GetInterrupted? then Interrupted else r;
      }
      if reply.id != Some(container) || reply.status.None? || refusal.None? || refusal.value !in REJECTIONS {
        r := MarkAmbiguous(o, code);
        return;
      }
      r := SettleStatus(o, refusal.value, reply.status.value);
    }

    method SettleStatus(o: Operation, code: string, status: string) returns (r: Outcome)
      requires Sound() && Awaiting(seen, o) && code in REJECTIONS
      requires seen.reply == Some(ApiError(Some(code))) && seen.reread == Some(Got(o.container, Some(status)))
      modifies this, store
      ensures Sound() && !r.Done?
      ensures SameButReads(old(seen), seen) && (healthy ==> old(healthy) && Answered(seen, r))
    {
      RejectionsAreSafe(code);
      ContainerCodesAreSafe();
      match status
      case "FINISHED" => r := MarkFailed(o, code);
      case "ERROR" => r := MarkFailed(o, CONTAINER_ERROR);
      case "EXPIRED" => r := MarkFailed(o, CONTAINER_EXPIRED);
      case _ => r := MarkAmbiguous(o, code);
    }

    method SendPublish(o: Operation, container: string) returns (reply: PublishReply)
      requires Sound() && Unsent(seen, o) && o.phase.PublishRequested? && o.container == Some(container)
      modifies this
      ensures Sound() && Awaiting(seen, o) && seen == AfterPublish(old(seen), container, reply) && healthy == old(healthy)
    {
      var answer: PublishReply := *;
      InOrder(manifest, trace);
      SendingOk(manifest, seen, o, container, answer);
      LogExchange(PublishSent(container), PublishReplied(answer));
      reply := answer;
    }

    method PublishReady(o: Operation) returns (r: Outcome)
      requires Sound() && Unsent(seen, o) && Valid(o) && o.phase.ContainerCreated? && !o.kind.ModerateReply?
      modifies this, store
      ensures Sound() && (r.Done? ==> PublishedAs(seen, o.kind, r))
      ensures seen.created == old(seen.created) && old(seen.finished) <= seen.finished
      ensures healthy ==> old(healthy) && SentFor(seen, o.container.value) && Answered(seen, r)
    {
      var container := o.container.value;
      var requested := o.(phase := PublishRequested);
      InOrder(manifest, trace);
      assert CarouselTruthful(manifest, seen);
      MayBeRequested(o);
      var written := WriteQuietly(o, requested);
      if !written {
        return Raised(INVALID, Some(o.id));
      }
      var reply := SendPublish(requested, container);
      r := RecordReply(requested, container, reply);
    }

    /** What the answer to the publish request makes of the record. */
    method RecordReply(o: Operation, container: string, reply: PublishReply) returns (r: Outcome)
      requires Sound() && Awaiting(seen, o) && o.container == Some(container) && seen.reply == Some(reply)
      modifies this, store
      ensures Sound() && (r.Done? ==> PublishedAs(seen, o.kind, r))
      ensures SameButReads(old(seen), seen) && (healthy ==> old(healthy) && Answered(seen, r))
    {
      OutcomeCodesAreSafe();
      match reply
      case PublishCancelled => r := MarkAmbiguous(o, AMBIGUOUS);
      case PublishInterrupted =>
        var _ := MarkAmbiguous(o, AMBIGUOUS);
        r := Interrupted;
      case OtherError(code) =>
        CodeIsSafe(code);
        r := MarkAmbiguous(o, SafeCodeOf(code));
      case ApiError(code) => r := SettleRefusal(o, container, code);
      case Returned(media) => r := RecordPublished(o, media);
    }

    method RecordPublished(o: Operation, media: Option<string>) returns (r: Outcome)
      requires Sound() && Awaiting(seen, o) && seen.reply == Some(Returned(media))
      modifies this, store
      ensures Sound() && (r.Done? ==> PublishedAs(seen, o.kind, r))
      ensures seen == old(seen).(records := seen.records) && (healthy ==> old(healthy) && Answered(seen, r))
    {
      OutcomeCodesAreSafe();
      AwaitingIsValid(manifest, trace, o);
      if !ValidRemote(media) {
        r := MarkAmbiguous(o, MISMATCH);
        return;
      }
      MayBePublished(o, media.value);
      var written := WriteOutcome(o, o.(phase := Published, media := media));
      if written {
        return Done(o.id, media.value);
      }
      r := MarkAmbiguous(o, INVALID);
    }

    /** Creates a container whose id is usable and is not one of the children, or gives the operation up. */
    method RequestContainer(o: Operation, request: Request) returns (r: Result<string, Outcome>)
      requires Sound() && Unsent(seen, o) && o.container.None?
      modifies this, store
      ensures Sound()
      ensures match r
              case Failure(end) =>
                && !end.Done? && NotMade(old(seen), seen, request, o.children)
                && (healthy && Unfinished(o) ==> GivenUp(trace, seen, end))
              case Success(id) =>
                && RemoteId(id) && id !in o.children && Unsent(seen, o)
                && seen == old(seen).(request := Some(request), created := old(seen.created) + [(request, id)])
      ensures healthy ==> old(healthy)
    {
      OutcomeCodesAreSafe();
      var reply := CreateContainer(request);
      if !reply.Created? {
        var end := Abandon(o, reply);
        return Failure(end);
      }
      if !ValidRemote(reply.id) || reply.id.value in o.children {
        var end := GiveUp(o, MISMATCH);
        return Failure(end);
      }
      r := Success(reply.id.value);
    }

    /** Text, quote, image, video and reply posts. */
    method PublishContainer(account: Uuid, kind: Kind, body: nat, waits: bool, credential: bool,
                            usage: Option<int>, total: Option<int>)
      returns (r: Outcome)
      requires Sound() && trace == [] && !kind.ModerateReply? && !kind.PostCarousel?
      modifies this, store
      ensures Sound() && (r.Done? ==> PublishedAs(seen, kind, r))
      ensures id in old(store.files) ==> trace == [] && store.files == old(store.files)
      ensures !credential ==> trace == [] && r == Raised("NOT_CONFIGURED", None)
      ensures credential && Reached(usage, total) ==>
                trace == [] && r == Raised(if kind.CreateReply? then "THREADS_REPLY_QUOTA_REACHED"
                                           else "THREADS_PUBLISHING_QUOTA_REACHED", None)
      ensures healthy && credential && !Reached(usage, total) ==>
                if id in old(store.files) then r == Raised(INVALID, Some(id)) else SinglePublished(body, waits, trace, seen, r)
    {
      if !credential || (usage.Some? && total.Some? && usage.value >= total.value) {
        return Raised(if !credential then "NOT_CONFIGURED" else if kind.CreateReply? then "THREADS_REPLY_QUOTA_REACHED"
                      else "THREADS_PUBLISHING_QUOTA_REACHED", None);
      }
      FirstIsValid(id, account, kind, None);
      var started := Start(account, kind, None);
      if started.None? {
        return Raised(INVALID, Some(id));
      }
      r := CreateAndDeliver(started.value, body, waits);
    }

    method CreateAndDeliver(o: Operation, body: nat, waits: bool) returns (r: Outcome)
      requires Sound() && Unsent(seen, o) && o.container.None? && !o.kind.ModerateReply? && !o.kind.PostCarousel?
      modifies this, store
      ensures Sound() && (r.Done? ==> PublishedAs(seen, o.kind, r))
      ensures healthy ==> old(healthy)
      ensures healthy && o.phase.Received? && old(seen.created) == [] && old(seen.finished) == {} ==>
                SinglePublished(body, waits, trace, seen, r)
    {
      var container := RequestContainer(o, Single(body));
      if container.Failure? {
        return container.error;
      }
      if o.phase.Received? {
        MayBeCreated(manifest, trace, o, container.value);
      }
      var created := o.(phase := ContainerCreated, container := Some(container.value));
      var written := WriteQuietly(o, created);
      if !written {
        return Raised(INVALID, Some(id));
      }
      r := Deliver(created, waits);
    }

    /** Waits for the container where it needs processing, then publishes it. */
    method Deliver(o: Operation, waits: bool) returns (r: Outcome)
      requires Sound() && Unsent(seen, o) && Valid(o) && o.phase.ContainerCreated? && !o.kind.ModerateReply?
      modifies this, store
      ensures Sound() && (r.Done? ==> PublishedAs(seen, o.kind, r))
      ensures seen.created == old(seen.created) && old(seen.finished) <= seen.finished
      ensures healthy ==> old(healthy) && Delivered(o.container.value, waits, old(seen), trace, seen, r)
    {
      if waits {
        var stopped := WaitOrStop(o, o.container.value);
        if stopped.Some? {
          return stopped.value;
        }
      }
      r := PublishReady(o);
    }

    /** Waits for a container, and gives the operation up if it does not become FINISHED. */
    method WaitOrStop(o: Operation, container: string) returns (r: Option<Outcome>)
      requires Sound() && Unsent(seen, o) && !o.phase.FailedFinal?
      modifies this, store
      ensures Sound() && seen.created == old(seen.created) && (healthy ==> old(healthy))
      ensures match r
              case None => Unsent(seen, o) && seen.finished == old(seen.finished) + {container}
              case Some(end) =>
                && !end.Done? && seen.finished == old(seen.finished) && seen.sends == []
                && (healthy && Unfinished(o) ==> GivenUp(trace, seen, end))
    {
      var ready, replies := WaitForReady(container);
      if ready.Ready? {
        return None;
      }
      PollEnds(container, replies, ready, old(trace));
      var end := StopWaiting(o, ready);
      r := Some(end);
    }

    // ----- carousels -----

    /** The children made so far match the first items of the manifest, and each was seen FINISHED. */
    ghost predicate Childs(o: Operation, items: seq<Item>)
      reads this
    {
      && Unsent(seen, o) && Valid(o) && o.kind.PostCarousel? && o.phase.ChildrenCreating?
      && |o.children| == |items| && seen.created == ChildRequests(items, o.children)
      && (forall c <- o.children :: c in seen.finished) && (forall c <- seen.finished :: c in o.children)
    }

    /** One more child: created, recorded, and seen FINISHED. */
    method AddChild(o: Operation, ghost made: seq<Item>, item: Item, ghost more: seq<Item>) returns (r: Result<Operation, Outcome>)
      requires Sound() && Childs(o, made) && more == made + [item]
      modifies this, store
      ensures Sound() && (healthy ==> old(healthy))
      ensures match r
              case Failure(end) =>
                !end.Done? && |seen.created| <= |more| && (healthy ==> GivenUp(trace, seen, end))
              case Success(next) => Childs(next, more)
    {
      OutcomeCodesAreSafe();
      var child := RequestContainer(o, Child(item));
      if child.Failure? {
        return Failure(child.error);
      }
      var next := o.(children := o.children + [child.value]);
      var written := WriteQuietly(o, next);
      if !written {
        var end := GiveUp(o, INVALID);
        return Failure(end);
      }
      var stopped := WaitOrStop(next, child.value);
      if stopped.Some? {
        return Failure(stopped.value);
      }
      ChildRequestsGrow(made, item, o.children, child.value);
      r := Success(next);
    }

    /** A create request that failed before a container id was known. */
    method Abandon(o: Operation, reply: CreateReply) returns (r: Outcome)
      requires Sound() && Unsent(seen, o) && !reply.Created?
      requires trace != [] && trace[|trace| - 1] == CreateReplied(reply)
      modifies this, store
      ensures Sound() && !r.Done?
      ensures seen == old(seen).(records := seen.records)
      ensures healthy ==> old(healthy)
      ensures healthy && Unfinished(o) ==> GivenUp(trace, seen, r)
    {
      CancellationIsSafe();
      match reply
      case CreateInterrupted => r := Interrupted;
      case CreateCancelled => r := GiveUp(o, CANCELLED);
      case CreateRaised(code) =>
        CodeIsSafe(code);
        r := GiveUp(o, SafeCodeOf(code));
    }

    method StopWaiting(o: Operation, ready: Readiness) returns (r: Outcome)
      requires Sound() && Unsent(seen, o) && !ready.Ready?
      requires ready.WaitInterrupted? ==> CutOff(trace)
      requires ready.NotReady? ==> SafeCode(ready.code)
      modifies this, store
      ensures Sound() && !r.Done?
      ensures seen == old(seen).(records := seen.records)
      ensures healthy ==> old(healthy)
      ensures healthy && Unfinished(o) ==> GivenUp(trace, seen, r)
    {
      CancellationIsSafe();
      match ready
      case WaitInterrupted => r := Interrupted;
      case WaitCancelled => r := GiveUp(o, CANCELLED);
      case NotReady(code) => r := GiveUp(o, code);
    }

    /** The parent container, requested with exactly the recorded children. */
    method AddParent(o: Operation, m: Manifest) returns (r: Result<Operation, Outcome>)
      requires Sound() && m == manifest && Childs(o, m.items)
      modifies this, store
      ensures Sound()
      ensures match r
              case Failure(end) =>
                && !end.Done?
                && (healthy ==> GivenUp(trace, seen, end) && (MIN_ITEMS <= |m.items| ==> !AllMade(m, seen)))
              case Success(next) =>
                && Unsent(seen, next) && Valid(next) && next.phase.ContainerCreated? && next.kind.PostCarousel?
                && MadeFrom(manifest, next, seen) && next.container.value !in seen.finished
      ensures healthy ==> old(healthy)
    {
      var parent := RequestContainer(o, Parent(m.text, o.children));
      if parent.Failure? {
        UnusableParent(m, o, old(seen), seen);
        return Failure(parent.error);
      }
      OutcomeCodesAreSafe();
      if MIN_ITEMS <= |m.items| {
        MayBeParented(o, parent.value);
      }
      var next := o.(phase := ContainerCreated, container := Some(parent.value));
      assert MadeFrom(m, next, seen);
      ghost var made := seen;
      var written := WriteQuietly(o, next);
      if !written {
        var end := GiveUp(o, INVALID);
        return Failure(end);
      }
      assert seen.created == made.created && seen.finished == made.finished;
      r := Success(next);
    }

    method AddChildren(first: Operation, items: seq<Item>) returns (r: Result<Operation, Outcome>)
      requires Sound() && Childs(first, [])
      modifies this, store
      ensures Sound() && (healthy ==> old(healthy))
      ensures match r
              case Failure(end) => !end.Done? && |seen.created| <= |items| && (healthy ==> GivenUp(trace, seen, end))
              case Success(o) => Childs(o, items)
    {
      var o := first;
      assert items[..0] == [];
      for i := 0 to |items|
        invariant Sound() && Childs(o, items[..i]) && (healthy ==> old(healthy))
      {
        var step := AddChild(o, items[..i], items[i], items[..i + 1]);
        if step.Failure? {
          return Failure(step.error);
        }
        o := step.value;
      }
      assert items[..|items|] == items;
      r := Success(o);
    }

    method BeginCarousel(account: Uuid) returns (r: Result<Operation, Outcome>)
      requires Sound() && trace == []
      modifies this, store
      ensures Sound() && (healthy ==> old(healthy))
      ensures match r case Failure(end) => !end.Done? case Success(o) => Childs(o, [])
      ensures id in old(store.files) ==>
                r == Failure(Raised(INVALID, Some(id))) && trace == [] && store.files == old(store.files)
      ensures healthy && id !in old(store.files) ==> r.Success?
    {
      FirstIsValid(id, account, PostCarousel, None);
      var started := Start(account, PostCarousel, None);
      if started.None? {
        return Failure(Raised(INVALID, Some(id)));
      }
      MayBeginCarousel(manifest, trace, started.value);
      var o := started.value.(phase := ChildrenCreating);
      var written := WriteQuietly(started.value, o);
      if !written {
        var end := GiveUp(started.value, INVALID);
        return Failure(end);
      }
      r := Success(o);
    }

    method PublishCarousel(account: Uuid, m: Manifest, credential: bool, usage: Option<int>, total: Option<int>)
      returns (r: Outcome)
      requires Sound() && trace == [] && m == manifest && MIN_ITEMS <= |m.items| <= MAX_ITEMS
      modifies this, store
      ensures Sound() && (r.Done? ==> PublishedAs(seen, PostCarousel, r))
      ensures id in old(store.files) ==> trace == [] && store.files == old(store.files)
      ensures !credential ==> trace == [] && r == Raised("NOT_CONFIGURED", None)
      ensures credential && Reached(usage, total) ==> trace == [] && r == Raised("THREADS_PUBLISHING_QUOTA_REACHED", None)
      ensures healthy && credential && !Reached(usage, total) ==>
                if id in old(store.files) then r == Raised(INVALID, Some(id)) else CarouselPublished(m, trace, seen, r)
    {
      if !credential || (usage.Some? && total.Some? && usage.value >= total.value) {
        return Raised(if credential then "THREADS_PUBLISHING_QUOTA_REACHED" else "NOT_CONFIGURED", None);
      }
      var begun := BeginCarousel(account);
      if begun.Failure? {
        return begun.error;
      }
      var children := AddChildren(begun.value, m.items);
      if children.Failure? {
        return children.error;
      }
      r := DeliverCarousel(children.value, m);
    }

    method DeliverCarousel(o: Operation, m: Manifest) returns (r: Outcome)
      requires Sound() && m == manifest && Childs(o, m.items) && MIN_ITEMS <= |m.items|
      modifies this, store
      ensures Sound() && (r.Done? ==> PublishedAs(seen, PostCarousel, r))
      ensures healthy ==> old(healthy) && CarouselPublished(m, trace, seen, r)
    {
      var made := AddParent(o, m);
      if made.Failure? {
        return made.error;
      }
      ghost var before := seen;
      r := Deliver(made.value, true);
      DeliveredMeans(m, made.value, before, trace, seen, r);
    }

    // ----- moderation -----

    method SendModeration(o: Operation, target: string, action: Action) returns (reply: Moderated)
      requires Sound() && Unsent(seen, o) && o.phase.MutationRequested? && o.action == Some(action)
      modifies this
      ensures Sound() && AwaitingModeration(seen, o) && seen.moderated == Some(reply) && healthy == old(healthy)
      ensures seen.mutations == old(seen.mutations) + [(old(seen.records), action)]
      ensures trace == old(trace) + [ModerationSent(target, action)] + [ModerationReplied(reply)]
    {
      var answer: Moderated := *;
      InOrder(manifest, trace);
      ModeratingOk(manifest, seen, o, target, action, answer);
      LogExchange(ModerationSent(target, action), ModerationReplied(answer));
      reply := answer;
    }

    method WriteModeration(o: Operation, next: Operation) returns (written: bool)
      requires Sound() && AwaitingModeration(seen, o) && next.id == o.id
      requires ModerationWarranted(seen, next)
      modifies this, store
      ensures Sound()
      ensures written ==> seen == old(seen).(records := old(seen.records) + [next]) && trace == old(trace) + [Wrote(next)]
      ensures !written ==> seen == old(seen) && trace == old(trace)
      ensures healthy ==> old(healthy)
      ensures healthy && Valid(next) && MayUpdate(o, next) ==> written
    {
      ModerationWriteFits(manifest, trace, seen, o, next);
      written := Persist(next);
    }

    /** Hide, unhide, approve or ignore a reply: one request, CONFIRMED only on the expected empty answer. */
    method ModerateReply(account: Uuid, target: string, action: Action) returns (r: Outcome)
      requires Sound() && trace == []
      modifies this, store
      ensures Sound()
      ensures r.Done? ==> seen.At(Confirmed) && r.id == id
      ensures id in old(store.files) ==> trace == [] && store.files == old(store.files) && r == Raised(INVALID, Some(id))
      ensures healthy && id !in old(store.files) ==>
                ModerationAnswered(seen, id, target, action, r) && ModerationSent(target, action) in trace
    {
      FirstIsValid(id, account, Kind.ModerateReply, Some(action));
      var started := Start(account, Kind.ModerateReply, Some(action));
      if started.None? {
        return Raised(INVALID, Some(id));
      }
      r := Moderate(started.value, target, action);
    }

    /** The request is recorded before it is sent. */
    method Moderate(o: Operation, target: string, action: Action) returns (r: Outcome)
      requires Sound() && Unsent(seen, o) && o.id == id && o.kind.ModerateReply? && o.phase.Received? && o.action == Some(action)
      modifies this, store
      ensures Sound() && (r.Done? ==> seen.At(Confirmed) && r.id == id)
      ensures healthy ==>
                old(healthy) && ModerationAnswered(seen, id, target, action, r) && ModerationSent(target, action) in trace
    {
      MayModerate(manifest, trace, o);
      var requested := o.(phase := MutationRequested);
      var written := WriteQuietly(o, requested);
      if !written {
        return Raised(INVALID, Some(id));
      }
      ghost var n := |trace|;
      var reply := SendModeration(requested, target, action);
      assert trace[n] == ModerationSent(target, action);
      r := RecordModeration(requested, target, action, reply);
      assert trace[n] == ModerationSent(target, action);
    }

    /** What the answer to the moderation request makes of the record. */
    method RecordModeration(o: Operation, target: string, action: Action, reply: Moderated) returns (r: Outcome)
      requires Sound() && AwaitingModeration(seen, o) && Valid(o) && o.kind.ModerateReply? && o.id == id
      requires |seen.mutations| == 1 && seen.mutations[0].1 == action && seen.moderated == Some(reply)
      modifies this, store
      ensures Sound() && old(trace) <= trace && (r.Done? ==> seen.At(Confirmed) && r.id == id)
      ensures healthy ==> old(healthy) && ModerationAnswered(seen, id, target, action, r)
    {
      ModerationMayBeConcluded(o);
      if reply.ModerationConfirmed? {
        var written := WriteModeration(o, o.(phase := Confirmed));
        return if written then Done(id, target) else Raised(MODERATION_AMBIGUOUS, Some(id));
      }
      var _ := WriteModeration(o, o.(phase := Ambiguous, outcome := Some(MODERATION_AMBIGUOUS)));
      r := if reply.ModerationInterrupted? then Interrupted else Raised(MODERATION_AMBIGUOUS, Some(id));
    }
  }

  lemma ChildRequestsGrow(items: seq<Item>, item: Item, ids: seq<string>, id: string)
    requires |items| == |ids|
    ensures ChildRequests(items + [item], ids + [id]) == ChildRequests(items, ids) + [(Child(item), id)]
  {
    assert (items + [item])[..|items|] == items && (ids + [id])[..|ids|] == ids;
  }

  lemma StoreReadsBackFile(text: string, o: Operation)
    requires Valid(o) && Encode(o) == Some(text)
    ensures Decode(text, o.id) == Some(o)
  {
    DecodeInvertsEncode(o);
  }
}
