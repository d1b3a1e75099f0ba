/** The journal file format: one compact JSON object with sorted keys and a final newline. */
module JournalCodec {
  import opened Prelude
  import opened JsonText
  import opened Journal

  function KindName(k: Kind): string {
    match k
    case PostText => "POST_TEXT"
    case PostQuote => "POST_QUOTE"
    case CreateReply => "CREATE_REPLY"
    case PostImage => "POST_IMAGE"
    case PostVideo => "POST_VIDEO"
    case PostCarousel => "POST_CAROUSEL"
    case ModerateReply => "MODERATE_REPLY"
  }

  function PhaseName(p: Phase): string {
    match p
    case Received => "RECEIVED"
    case ChildrenCreating => "CHILDREN_CREATING"
    case MutationRequested => "MUTATION_REQUESTED"
    case ContainerCreated => "CONTAINER_CREATED"
    case PublishRequested => "PUBLISH_REQUESTED"
    case Published => "PUBLISHED"
    case Confirmed => "CONFIRMED"
    case Ambiguous => "AMBIGUOUS"
    case FailedFinal => "FAILED_FINAL"
  }

  function ActionName(a: Action): string {
    match a
    case Hide => "hide"
    case Unhide => "unhide"
    case Approve => "approve"
    case Ignore => "ignore"
  }

  const KINDS := [PostText, PostQuote, CreateReply, PostImage, PostVideo, PostCarousel, ModerateReply]
  const PHASES := [Received, ChildrenCreating, MutationRequested, ContainerCreated, PublishRequested, Published, Confirmed,
                   Ambiguous, FailedFinal]
  const ACTIONS := [Hide, Unhide, Approve, Ignore]

  /** The value with a given name. */
  function Named<T>(values: seq<T>, name: T -> string, text: string): Option<T> {
    if values == [] then None
    else if name(values[0]) == text then Some(values[0])
    else Named(values[1..], name, text)
  }

  // ----- writing -----

  /** A member that is written only when it has a value. */
  datatype Slot = Slot(key: string, value: Option<Json>)

  function Texts(ids: seq<string>): (items: seq<Json>)
    ensures |items| == |ids| && forall i :: 0 <= i < |ids| ==> items[i] == Text(ids[i])
  {
    if ids == [] then [] else [Text(ids[0])] + Texts(ids[1..])
  }

  function AsText(s: Option<string>): Option<Json> { if s.Some? then Some(Text(s.value)) else None }

  function Slots(o: Operation): (slots: seq<Slot>)
    ensures |slots| == 10
  {
    [Slot("account_id", Some(Text(o.account))),
     Slot("action", if o.action.Some? then Some(Text(ActionName(o.action.value))) else None),
     Slot("child_container_ids", if o.children != [] then Some(Array(Texts(o.children))) else None),
     Slot("container_id", AsText(o.container)),
     Slot("id", Some(Text(o.id))),
     Slot("kind", Some(Text(KindName(o.kind)))),
     Slot("media_id", AsText(o.media)),
     Slot("outcome_code", AsText(o.outcome)),
     Slot("phase", Some(Text(PhaseName(o.phase)))),
     Slot("version", Some(Number("1")))]
  }

  function Pack(slots: seq<Slot>): seq<Member> {
    if slots == [] then []
    else if slots[0].value.None? then Pack(slots[1..])
    else [Member(slots[0].key, slots[0].value.value)] + Pack(slots[1..])
  }

  function ToJson(o: Operation): Json { Object(Pack(Slots(o))) }

  /** The file contents, or `None` where the source refuses to write. */
  function Encode(o: Operation): Option<string> {
    if Valid(o) then Some(Print(ToJson(o)) + "\n") else None
  }

  // ----- reading -----

  function Get(members: seq<Member>, key: string): Option<Json> {
    if members == [] then None
    else if members[0].key == key then Some(members[0].value)
    else Get(members[1..], key)
  }

  const KEYS := ["account_id", "action", "child_container_ids", "container_id", "id", "kind", "media_id", "outcome_code",
                 "phase", "version"]

  function TextAt(members: seq<Member>, key: string): Option<string> {
    var v :- Get(members, key);
    if v.Text? then Some(v.chars) else None
  }

  /** An optional text: absent or null is `Some(None)`, another type `None`. */
  function OptionalText(members: seq<Member>, key: string): Option<Option<string>> {
    match Get(members, key)
    case None => Some(None)
    case Some(Null) => Some(None)
    case Some(Text(s)) => Some(Some(s))
    case _ => None
  }

  function AllTexts(items: seq<Json>): Option<seq<string>> {
    if items == [] then Some([])
    else if !items[0].Text? then None
    else
      var rest :- AllTexts(items[1..]);
      Some([items[0].chars] + rest)
  }

  function ChildrenAt(members: seq<Member>, kind: Kind): Option<seq<string>> {
    match Get(members, "child_container_ids")
    case None => Some([])
    case Some(Array(items)) => if kind.PostCarousel? then AllTexts(items) else None
    case _ => None
  }

  function ActionAt(members: seq<Member>, kind: Kind): Option<Option<Action>> {
    match Get(members, "action")
    case None => Some(None)
    case Some(Null) => if kind.ModerateReply? then Some(None) else None
    case Some(Text(s)) =>
      if !kind.ModerateReply? then None
      else
        var a :- Named(ACTIONS, ActionName, s);
        Some(Some(a))
    case _ => None
  }

  function FromJson(v: Json, id: Uuid): (o: Option<Operation>)
    ensures o.Some? ==> Valid(o.value) && o.value.id == id
  {
    if !v.Object? || exists m <- v.members :: m.key !in KEYS then None
    else
      var ms := v.members;
      var rawId :- TextAt(ms, "id");
      var rawAccount :- TextAt(ms, "account_id");
      var rawKind :- TextAt(ms, "kind");
      var rawPhase :- TextAt(ms, "phase");
      if rawId != id || !IsUuid(rawAccount) || Get(ms, "version") != Some(Number("1")) then None
      else
        var kind :- Named(KINDS, KindName, rawKind);
        var phase :- Named(PHASES, PhaseName, rawPhase);
        var container :- OptionalText(ms, "container_id");
        var media :- OptionalText(ms, "media_id");
        var outcome :- OptionalText(ms, "outcome_code");
        var children :- ChildrenAt(ms, kind);
        var action :- ActionAt(ms, kind);
        var o := Operation(VERSION, id, rawAccount, kind, phase, container, media, outcome, children, action);
        if Valid(o) then Some(o) else None
  }

  /** Reading a file: nothing over the size limit, one JSON object, and only a valid record of the asked id. */
  function Decode(text: string, id: Uuid): Option<Operation> {
    if |text| > MAX_BYTES then None
    else
      var v :- Load(text);
      FromJson(v, id)
  }

  // ----- names are distinct -----

  lemma KindNamesDiffer(a: Kind, b: Kind)
    requires KindName(a) == KindName(b)
    ensures a == b
  {
    assert |KindName(a)| == |KindName(b)|;
    assert KindName(a)[5] == KindName(b)[5];
  }

  lemma PhaseNamesDiffer(a: Phase, b: Phase)
    requires PhaseName(a) == PhaseName(b)
    ensures a == b
  {
    assert |PhaseName(a)| == |PhaseName(b)|;
    assert PhaseName(a)[0] == PhaseName(b)[0];
  }

  lemma ActionNamesDiffer(a: Action, b: Action)
    requires ActionName(a) == ActionName(b)
    ensures a == b
  {
    assert |ActionName(a)| == |ActionName(b)|;
    assert ActionName(a)[0] == ActionName(b)[0];
  }

  lemma {:induction false} NamedFinds<T>(values: seq<T>, name: T -> string, v: T)
    requires v in values && forall w <- values :: name(w) == name(v) ==> w == v
    ensures Named(values, name, name(v)) == Some(v)
  {
    if values[0] != v {
      assert v in values[1..];
      NamedFinds(values[1..], name, v);
    }
  }

  lemma NamesRoundTrip(k: Kind, p: Phase, a: Action)
    ensures Named(KINDS, KindName, KindName(k)) == Some(k)
    ensures Named(PHASES, PhaseName, PhaseName(p)) == Some(p)
    ensures Named(ACTIONS, ActionName, ActionName(a)) == Some(a)
  {
    forall w <- KINDS | KindName(w) == KindName(k) ensures w == k {
      KindNamesDiffer(w, k);
    }
    assert k == KINDS[match k case PostText => 0 case PostQuote => 1 case CreateReply => 2 case PostImage => 3
                              case PostVideo => 4 case PostCarousel => 5 case ModerateReply => 6];
    NamedFinds(KINDS, KindName, k);
    forall w <- PHASES | PhaseName(w) == PhaseName(p) ensures w == p {
      PhaseNamesDiffer(w, p);
    }
    assert p == PHASES[match p case Received => 0 case ChildrenCreating => 1 case MutationRequested => 2
                               case ContainerCreated => 3 case PublishRequested => 4 case Published => 5
                               case Confirmed => 6 case Ambiguous => 7 case FailedFinal => 8];
    NamedFinds(PHASES, PhaseName, p);
    forall w <- ACTIONS | ActionName(w) == ActionName(a) ensures w == a {
      ActionNamesDiffer(w, a);
    }
    assert a == ACTIONS[match a case Hide => 0 case Unhide => 1 case Approve => 2 case Ignore => 3];
    NamedFinds(ACTIONS, ActionName, a);
  }

  // ----- packed members -----

  predicate DistinctKeys(slots: seq<Slot>) {
    forall i, j :: 0 <= i < j < |slots| ==> slots[i].key != slots[j].key
  }

  lemma {:induction false} PackedFrom(slots: seq<Slot>, m: Member)
    requires m in Pack(slots)
    ensures exists i :: 0 <= i < |slots| && slots[i] == Slot(m.key, Some(m.value))
    decreases |slots|
  {
    if slots[0].value.Some? && m == Member(slots[0].key, slots[0].value.value) {
      assert slots[0] == Slot(m.key, Some(m.value));
    } else {
      PackedFrom(slots[1..], m);
      var i :| 0 <= i < |slots[1..]| && slots[1..][i] == Slot(m.key, Some(m.value));
      assert slots[i + 1] == Slot(m.key, Some(m.value));
    }
  }

  lemma {:induction false} PackGets(slots: seq<Slot>, i: nat)
    requires DistinctKeys(slots) && i < |slots|
    ensures Get(Pack(slots), slots[i].key) == slots[i].value
    decreases |slots|
  {
    var rest := slots[1..];
    if i == 0 {
      if slots[0].value.None? {
        PackMisses(rest, slots[0].key);
      } else {
        assert Pack(slots)[1..] == Pack(rest);
      }
    } else {
      assert rest[i - 1] == slots[i];
      PackGets(rest, i - 1);
      if slots[0].value.Some? {
        assert Pack(slots)[1..] == Pack(rest);
      }
    }
  }

  lemma {:induction false} PackMisses(slots: seq<Slot>, key: string)
    requires forall s <- slots :: s.key != key
    ensures Get(Pack(slots), key) == None
    decreases |slots|
  {
    if slots == [] {
    } else {
      assert slots[0] in slots;
      assert forall s <- slots[1..] :: s in slots;
      PackMisses(slots[1..], key);
      if slots[0].value.Some? {
        assert Pack(slots)[1..] == Pack(slots[1..]);
      }
    }
  }

  lemma {:induction false} PackIsUnique(slots: seq<Slot>)
    requires DistinctKeys(slots)
    ensures UniqueKeys(Pack(slots))
    decreases |slots|
  {
    if slots == [] {
    } else {
      PackIsUnique(slots[1..]);
      if slots[0].value.Some? {
        var rest := Pack(slots[1..]);
        forall j | 0 <= j < |rest| ensures rest[j].key != slots[0].key {
          assert rest[j] in rest;
          PackedFrom(slots[1..], rest[j]);
        }
      }
    }
  }

  lemma SlotKeys(o: Operation)
    ensures DistinctKeys(Slots(o)) && |Slots(o)| == |KEYS|
    ensures forall i :: 0 <= i < |KEYS| ==> Slots(o)[i].key == KEYS[i]
  {
    var slots := Slots(o);
    forall i, j | 0 <= i < j < |slots| ensures slots[i].key != slots[j].key {
      assert |slots[i].key| != |slots[j].key| || slots[i].key[0] != slots[j].key[0];
    }
  }

  // ----- every valid record is read back -----

  lemma KindNameIsPlain(k: Kind)
    ensures Plain(KindName(k)) && |KindName(k)| <= 14
  {
  }

  lemma PhaseNameIsPlain(p: Phase)
    ensures Plain(PhaseName(p)) && |PhaseName(p)| <= 18
  {
  }

  lemma ActionNameIsPlain(a: Action)
    ensures Plain(ActionName(a)) && |ActionName(a)| <= 7
  {
  }

  lemma IdsArePlain(s: string)
    requires IsUuid(s) || RemoteId(s) || SafeCode(s)
    ensures Plain(s)
  {
    forall c <- s ensures ' ' <= c <= '~' && c != '"' && c != '\\' {
      var i :| 0 <= i < |s| && s[i] == c;
    }
  }

  predicate SlotOk(s: Slot) { Plain(s.key) && (s.value.Some? ==> Printable(s.value.value)) }

  lemma OptionalIsPlain(s: Option<string>)
    requires s.Some? ==> RemoteId(s.value) || SafeCode(s.value)
    ensures AsText(s).Some? ==> Printable(AsText(s).value)
  {
    if s.Some? {
      IdsArePlain(s.value);
    }
  }

  lemma ChildrenArePlain(ids: seq<string>)
    requires forall c <- ids :: RemoteId(c)
    ensures Printable(Array(Texts(ids)))
  {
    forall i <- Texts(ids) ensures Printable(i) {
      var k :| 0 <= k < |ids| && i == Text(ids[k]);
      IdsArePlain(ids[k]);
    }
  }

  lemma KeysArePlain(i: nat)
    requires i < |KEYS|
    ensures Plain(KEYS[i])
  {
  }

  lemma ValuesArePrintable(o: Operation, i: nat)
    requires Valid(o) && i < |Slots(o)|
    ensures Slots(o)[i].value.Some? ==> Printable(Slots(o)[i].value.value)
  {
    match i
    case 0 => IdsArePlain(o.account);
    case 1 => ActionNameIsPlain(if o.action.Some? then o.action.value else Hide);
    case 2 => ChildrenArePlain(o.children);
    case 3 => OptionalIsPlain(o.container);
    case 4 => IdsArePlain(o.id);
    case 5 => KindNameIsPlain(o.kind);
    case 6 => OptionalIsPlain(o.media);
    case 7 => OptionalIsPlain(o.outcome);
    case 8 => PhaseNameIsPlain(o.phase);
    case 9 =>
  }

  lemma SlotsArePrintable(o: Operation, i: nat)
    requires Valid(o) && i < |Slots(o)|
    ensures SlotOk(Slots(o)[i])
  {
    SlotKeys(o);
    KeysArePlain(i);
    ValuesArePrintable(o, i);
  }

  lemma RecordsArePrintable(o: Operation)
    requires Valid(o)
    ensures Printable(ToJson(o))
  {
    var slots := Slots(o);
    SlotKeys(o);
    PackIsUnique(slots);
    forall m <- Pack(slots) ensures Plain(m.key) && Printable(m.value) {
      PackedFrom(slots, m);
      var i :| 0 <= i < |slots| && slots[i] == Slot(m.key, Some(m.value));
      SlotsArePrintable(o, i);
    }
  }

  lemma {:induction false} TextsRoundTrip(ids: seq<string>)
    ensures AllTexts(Texts(ids)) == Some(ids)
    decreases |ids|
  {
    if ids == [] {
    } else {
      assert Texts(ids)[1..] == Texts(ids[1..]);
      TextsRoundTrip(ids[1..]);
      assert [ids[0]] + ids[1..] == ids;
    }
  }

  /** Every member of a record is found under its key. */
  lemma RecordGets(o: Operation)
    ensures var ms := Pack(Slots(o));
            && Get(ms, "account_id") == Some(Text(o.account))
            && Get(ms, "action") == (if o.action.Some? then Some(Text(ActionName(o.action.value))) else None)
            && Get(ms, "child_container_ids") == (if o.children != [] then Some(Array(Texts(o.children))) else None)
            && Get(ms, "container_id") == AsText(o.container)
            && Get(ms, "id") == Some(Text(o.id))
            && Get(ms, "kind") == Some(Text(KindName(o.kind)))
            && Get(ms, "media_id") == AsText(o.media)
            && Get(ms, "outcome_code") == AsText(o.outcome)
            && Get(ms, "phase") == Some(Text(PhaseName(o.phase)))
            && Get(ms, "version") == Some(Number("1"))
  {
    SlotKeys(o);
    var slots := Slots(o);
    PackGets(slots, 0);
    PackGets(slots, 1);
    PackGets(slots, 2);
    PackGets(slots, 3);
    PackGets(slots, 4);
    PackGets(slots, 5);
    PackGets(slots, 6);
    PackGets(slots, 7);
    PackGets(slots, 8);
    PackGets(slots, 9);
  }

  lemma RecordKeysAreKnown(o: Operation)
    ensures forall m <- Pack(Slots(o)) :: m.key in KEYS
  {
    SlotKeys(o);
    forall m <- Pack(Slots(o)) ensures m.key in KEYS {
      PackedFrom(Slots(o), m);
      var i :| 0 <= i < |Slots(o)| && Slots(o)[i] == Slot(m.key, Some(m.value));
      assert KEYS[i] == m.key;
    }
  }

  lemma RecordFields(o: Operation)
    requires Valid(o)
    ensures var ms := Pack(Slots(o));
            && OptionalText(ms, "container_id") == Some(o.container)
            && OptionalText(ms, "media_id") == Some(o.media)
            && OptionalText(ms, "outcome_code") == Some(o.outcome)
            && ChildrenAt(ms, o.kind) == Some(o.children)
            && ActionAt(ms, o.kind) == Some(o.action)
  {
    RecordGets(o);
    NamesRoundTrip(o.kind, o.phase, if o.action.Some? then o.action.value else Hide);
    TextsRoundTrip(o.children);
  }

  lemma RecordNames(o: Operation)
    ensures var ms := Pack(Slots(o));
            && TextAt(ms, "id") == Some(o.id) && TextAt(ms, "account_id") == Some(o.account)
            && TextAt(ms, "kind") == Some(KindName(o.kind)) && TextAt(ms, "phase") == Some(PhaseName(o.phase))
            && Get(ms, "version") == Some(Number("1"))
            && Named(KINDS, KindName, KindName(o.kind)) == Some(o.kind)
            && Named(PHASES, PhaseName, PhaseName(o.phase)) == Some(o.phase)
  {
    RecordGets(o);
    NamesRoundTrip(o.kind, o.phase, Hide);
  }

  lemma FromJsonInverts(o: Operation)
    requires Valid(o)
    ensures FromJson(ToJson(o), o.id) == Some(o)
  {
    RecordKeysAreKnown(o);
    RecordNames(o);
    RecordFields(o);
  }

  // ----- the size limit -----

  function Weight(s: Slot): nat { if s.value.Some? then |s.key| + 4 + |Print(s.value.value)| else 0 }

  function TotalWeight(slots: seq<Slot>): nat { if slots == [] then 0 else Weight(slots[0]) + TotalWeight(slots[1..]) }

  lemma {:induction false} PackLength(slots: seq<Slot>)
    ensures Pack(slots) != [] ==> |PrintMembers(Pack(slots))| + 1 <= TotalWeight(slots)
    decreases |slots|
  {
    if slots == [] {
    } else {
      PackLength(slots[1..]);
      if slots[0].value.Some? {
        var ms := Pack(slots);
        assert ms[1..] == Pack(slots[1..]);
        assert |PrintMember(ms[0])| == |slots[0].key| + 3 + |Print(slots[0].value.value)|;
      }
    }
  }

  lemma {:induction false} WeightsAdd(a: seq<Slot>, b: seq<Slot>)
    ensures TotalWeight(a + b) == TotalWeight(a) + TotalWeight(b)
    decreases |a|
  {
    if a == [] {
      assert a + b == b;
    } else {
      assert (a + b)[1..] == a[1..] + b;
      WeightsAdd(a[1..], b);
    }
  }

  lemma {:induction false} LightSlots(slots: seq<Slot>)
    requires forall s <- slots :: Weight(s) <= 280
    ensures TotalWeight(slots) <= 280 * |slots|
    decreases |slots|
  {
    if slots == [] {
    } else {
      assert slots[0] in slots;
      assert forall s <- slots[1..] :: s in slots;
      LightSlots(slots[1..]);
    }
  }

  lemma {:induction false} ItemsLength(ids: seq<string>)
    requires ids != [] && forall c <- ids :: |c| <= 255
    ensures |PrintItems(Texts(ids))| <= 258 * |ids| - 1
    decreases |ids|
  {
    assert ids[0] in ids;
    if |ids| > 1 {
      assert Texts(ids)[1..] == Texts(ids[1..]);
      assert forall c <- ids[1..] :: c in ids;
      ItemsLength(ids[1..]);
    }
  }

  lemma ChildrenWeigh(ids: seq<string>)
    requires |ids| <= MAX_ITEMS && forall c <- ids :: RemoteId(c)
    ensures |Print(Array(Texts(ids)))| <= 5161
  {
    if ids != [] {
      ItemsLength(ids);
    }
  }

  lemma OneSlotIsHeavy(o: Operation, i: nat)
    requires Valid(o) && i < |Slots(o)|
    ensures Weight(Slots(o)[i]) <= if i == 2 then 5184 else 280
  {
    match i
    case 1 => ActionNameIsPlain(if o.action.Some? then o.action.value else Hide);
    case 2 => ChildrenWeigh(o.children);
    case 5 => KindNameIsPlain(o.kind);
    case 8 => PhaseNameIsPlain(o.phase);
    case _ =>
  }

  lemma RecordWeight(o: Operation)
    requires Valid(o)
    ensures TotalWeight(Slots(o)) <= 5184 + 9 * 280
  {
    var slots := Slots(o);
    forall i | 0 <= i < |slots| ensures Weight(slots[i]) <= if i == 2 then 5184 else 280 {
      OneSlotIsHeavy(o, i);
    }
    HeavyAtTwo(slots);
  }

  lemma HeavyAtTwo(slots: seq<Slot>)
    requires |slots| == 10 && forall i :: 0 <= i < |slots| ==> Weight(slots[i]) <= if i == 2 then 5184 else 280
    ensures TotalWeight(slots) <= 5184 + 9 * 280
  {
    forall s <- slots[..2] ensures Weight(s) <= 280 {
      var i :| 0 <= i < 2 && slots[..2][i] == s;
      assert slots[i] == s;
    }
    forall s <- slots[3..] ensures Weight(s) <= 280 {
      var i :| 0 <= i < 7 && slots[3..][i] == s;
      assert slots[i + 3] == s;
    }
    assert slots == slots[..2] + ([slots[2]] + slots[3..]);
    WeightsAdd(slots[..2], [slots[2]] + slots[3..]);
    WeightsAdd([slots[2]], slots[3..]);
    assert [slots[2]][1..] == [];
    LightSlots(slots[..2]);
    LightSlots(slots[3..]);
  }

  /** The longest record, twenty children of 255 characters included, stays under the limit the reader enforces. */
  lemma RecordsFit(o: Operation)
    requires Valid(o)
    ensures |Print(ToJson(o)) + "\n"| <= MAX_BYTES
  {
    RecordWeight(o);
    PackLength(Slots(o));
  }

  /** Every character is ASCII, so the byte length the reader checks is the character length. */
  lemma {:induction false} PrintedIsAscii(v: Json)
    requires Printable(v)
    ensures forall c <- Print(v) :: ' ' <= c <= '~'
    decreases v, 0
  {
    match v
    case Null =>
    case Flag(_) =>
    case Number(_) =>
    case Text(_) =>
    case Array(items) =>
      if items != [] {
        ItemsAreAscii(items);
      }
    case Object(members) =>
      if members != [] {
        MembersAreAscii(members);
      }
  }

  lemma {:induction false} ItemsAreAscii(items: seq<Json>)
    requires items != [] && forall i <- items :: Printable(i)
    ensures forall c <- PrintItems(items) :: ' ' <= c <= '~'
    decreases items, |items|
  {
    PrintedIsAscii(items[0]);
    if |items| > 1 {
      ItemsAreAscii(items[1..]);
    }
  }

  lemma {:induction false} MembersAreAscii(members: seq<Member>)
    requires members != [] && forall m <- members :: Plain(m.key) && Printable(m.value)
    ensures forall c <- PrintMembers(members) :: ' ' <= c <= '~'
    decreases members, |members|
  {
    PrintedIsAscii(members[0].value);
    assert forall c <- PrintMember(members[0]) :: ' ' <= c <= '~';
    if |members| > 1 {
      MembersAreAscii(members[1..]);
    }
  }

  /** Whatever the store writes it can read, and it reads the same record. */
  lemma DecodeInvertsEncode(o: Operation)
    requires Valid(o)
    ensures Encode(o).Some? && Decode(Encode(o).value, o.id) == Some(o)
    ensures |Encode(o).value| <= MAX_BYTES && forall c <- Encode(o).value :: c == '\n' || ' ' <= c <= '~'
  {
    RecordsFit(o);
    RecordsArePrintable(o);
    LoadsPrinted(ToJson(o));
    FromJsonInverts(o);
    PrintedIsAscii(ToJson(o));
  }
}
