/** The record of one standalone mutation: its shape, its phases and its file format (standalone/mutations.py). */
module Journal {
  import opened Prelude
  import opened JsonText

  datatype Kind = PostText | PostQuote | CreateReply | PostImage | PostVideo | PostCarousel | ModerateReply

  datatype Phase =
    | Received | ChildrenCreating | MutationRequested | ContainerCreated | PublishRequested | Published | Confirmed
    | Ambiguous | FailedFinal

  datatype Action = Hide | Unhide | Approve | Ignore

  const VERSION := 1
  const MIN_ITEMS := 2
  const MAX_ITEMS := 20
  const MAX_BYTES := 8192

  // ----- identifiers -----

  predicate LowerHex(c: char) { '0' <= c <= '9' || 'a' <= c <= 'f' }

  /** The canonical text of a UUID. */
  predicate IsUuid(s: string) {
    && |s| == 36 && s[8] == '-' && s[13] == '-' && s[18] == '-' && s[23] == '-'
    && forall i :: 0 <= i < 36 ==> i == 8 || i == 13 || i == 18 || i == 23 || LowerHex(s[i])
  }

  const NIL := "00000000-0000-0000-0000-000000000000"
  type Uuid = s: string | IsUuid(s) witness NIL

  predicate RemoteChar(c: char) {
    'A' <= c <= 'Z' || 'a' <= c <= 'z' || '0' <= c <= '9' || c == '.' || c == '_' || c == ':' || c == '-'
  }

  predicate RemoteId(s: string) { 1 <= |s| <= 255 && forall c <- s :: RemoteChar(c) }

  predicate SafeCode(s: string) {
    1 <= |s| <= 64 && 'A' <= s[0] <= 'Z' && forall c <- s :: 'A' <= c <= 'Z' || '0' <= c <= '9' || c == '_'
  }

  // ----- the record -----

  datatype Operation = Operation(
    version: int,
    id: Uuid,
    account: Uuid,
    kind: Kind,
    phase: Phase,
    container: Option<string>,
    media: Option<string>,
    outcome: Option<string>,
    children: seq<string>,
    action: Option<Action>)

  predicate Distinct(s: seq<string>) { forall i, j :: 0 <= i < j < |s| ==> s[i] != s[j] }

  /** What every phase of a publish requires of the ids and the outcome code. */
  predicate PublishShape(o: Operation) {
    match o.phase
    case Received => o.container.None? && o.media.None? && o.outcome.None?
    case ChildrenCreating => o.container.None? && o.media.None? && o.outcome.None?
    case ContainerCreated => o.container.Some? && o.media.None? && o.outcome.None?
    case PublishRequested => o.container.Some? && o.media.None? && o.outcome.None?
    case Published => o.container.Some? && o.media.Some? && o.outcome.None?
    case Ambiguous => o.container.Some? && o.media.None? && o.outcome.Some?
    case FailedFinal => o.media.None? && o.outcome.Some?
    case MutationRequested => false
    case Confirmed => false
  }

  predicate CarouselShape(o: Operation) {
    && (o.phase.Received? ==> o.children == [])
    && (o.phase.ContainerCreated? || o.phase.PublishRequested? || o.phase.Published? || o.phase.Ambiguous? ==>
          |o.children| >= MIN_ITEMS)
    && (o.container.Some? && !o.phase.Received? && !o.phase.ChildrenCreating? ==> o.container.value !in o.children)
  }

  predicate Valid(o: Operation) {
    && o.version == VERSION
    && |o.children| <= MAX_ITEMS && (forall c <- o.children :: RemoteId(c)) && Distinct(o.children)
    && (o.container.Some? ==> RemoteId(o.container.value))
    && (o.media.Some? ==> RemoteId(o.media.value))
    && (o.outcome.Some? ==> SafeCode(o.outcome.value))
    && match o.kind
       case ModerateReply =>
         && o.action.Some? && o.container.None? && o.media.None? && o.children == []
         && (o.phase.Received? || o.phase.MutationRequested? || o.phase.Confirmed? || o.phase.Ambiguous?)
         && (o.outcome.Some? <==> o.phase.Ambiguous?)
       case PostCarousel => o.action.None? && PublishShape(o) && CarouselShape(o)
       case _ => o.action.None? && PublishShape(o) && o.children == [] && !o.phase.ChildrenCreating?
  }

  // ----- updates -----

  predicate PublishStep(from: Phase, to: Phase) {
    match from
    case Received => to.ChildrenCreating? || to.ContainerCreated? || to.FailedFinal?
    case ChildrenCreating => to.ChildrenCreating? || to.ContainerCreated? || to.FailedFinal?
    case ContainerCreated => to.PublishRequested? || to.FailedFinal?
    case PublishRequested => to.Published? || to.Ambiguous? || to.FailedFinal?
    case _ => false
  }

  predicate ModerationStep(from: Phase, to: Phase) {
    match from
    case Received => to.MutationRequested?
    case MutationRequested => to.Confirmed? || to.Ambiguous?
    case _ => false
  }

  /** The child list only grows, one id at a time, and only while children are being created. */
  predicate ChildStep(o: Operation, next: Operation) {
    && o.children <= next.children
    && if o.phase.Received? then
         (next.phase.ChildrenCreating? || next.phase.FailedFinal?) && o.children == [] && next.children == []
       else if o.phase.ChildrenCreating? && next.phase.ChildrenCreating? then |next.children| == |o.children| + 1
       else next.children == o.children
  }

  predicate MayUpdate(o: Operation, next: Operation) {
    && next.account == o.account && next.kind == o.kind && next.action == o.action
    && (if o.kind.ModerateReply? then ModerationStep(o.phase, next.phase) else PublishStep(o.phase, next.phase))
    && (o.kind.PostCarousel? ==> ChildStep(o, next))
  }

  /** How many updates a record can still see. */
  function Rank(o: Operation): nat
    requires Valid(o)
  {
    match o.phase
    case Received => if o.kind.PostCarousel? then MAX_ITEMS + 4 else if o.kind.ModerateReply? then 2 else 3
    case ChildrenCreating => MAX_ITEMS - |o.children| + 3
    case ContainerCreated => 2
    case PublishRequested => 1
    case MutationRequested => 1
    case _ => 0
  }

  lemma UpdatesUseRank(o: Operation, next: Operation)
    requires Valid(o) && Valid(next) && MayUpdate(o, next)
    ensures Rank(next) < Rank(o)
  {
  }

  ghost predicate Chain(records: seq<Operation>) {
    && (forall o <- records :: Valid(o))
    && (forall i, j :: 0 <= i < j < |records| && j == i + 1 ==> MayUpdate(records[i], records[j]))
  }

  /** Any record sees at most 24 updates; through them account, kind and action are fixed and children only added. */
  lemma {:induction false} ChainsAreShort(records: seq<Operation>)
    requires records != [] && Chain(records)
    ensures |records| - 1 <= Rank(records[0]) - Rank(records[|records| - 1]) <= 24
    ensures var first, last := records[0], records[|records| - 1];
            && last.account == first.account && last.kind == first.kind && last.action == first.action
            && first.children <= last.children
    decreases |records|
  {
    if |records| > 1 {
      var rest := records[1..];
      forall i, j | 0 <= i < j < |rest| && j == i + 1 ensures MayUpdate(rest[i], rest[j]) {
        assert rest[i] == records[i + 1] && rest[j] == records[j + 1];
      }
      ChainsAreShort(rest);
      assert MayUpdate(records[0], records[1]);
      UpdatesUseRank(records[0], records[1]);
      if !records[0].kind.PostCarousel? {
        assert records[0].children == [];
      }
    }
  }
}
