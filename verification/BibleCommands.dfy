/** What Service.Change does to the recorded history, as a function of the command and what its ports answer. */
module BibleCommands {
  import opened Wrappers
  import opened Ids
  import opened Rows
  import opened BibleContent
  import opened BibleHistory
  import opened BibleInvariant

  datatype Error = InvalidContent | Unavailable | NotFound | Conflict | ImpactConflict | IdempotencyConflict
    | CorruptHistory

  datatype LookInput = LookInput(name: string, description: string, isDefault: bool, appliesTo: seq<LookScope>)

  datatype ReferenceInput = ReferenceInput(role: ImageRole, asset: Id)

  datatype VoiceInput =
    | CatalogInput(instructions: string, modelKey: string, expectedVersion: int, voiceKey: string, params: string)
    | SampleInput(instructions: string, name: string, asset: Id)

  datatype Action =
    | Create(labels: Labels)
    | CreateResult(operation: Id, output: Id)
    | Update(labels: Labels)
    | LookCreate(input: LookInput)
    | LookUpdate(look: Id, input: LookInput)
    | LookDelete(look: Id)
    | LookDefault(look: Id)
    | References(look: Id, references: seq<ReferenceInput>)
    | VoiceBind(voice: VoiceInput)
    | VoiceUnbind
    | AdoptResult(operation: Id, output: Id)
    | Confirm
    | Delete
    | Restore
    | Merge(target: Id, expectedTarget: int)
    | Split(labels: Labels)
  {
    predicate Creating() {
      Create? || CreateResult?
    }

    predicate MakesVersion() {
      Update? || LookCreate? || LookUpdate? || LookDelete? || LookDefault? || References?
        || VoiceBind? || VoiceUnbind? || AdoptResult?
    }

    predicate FromResult() {
      CreateResult? || AdoptResult?
    }

    predicate CharacterOnly() {
      LookCreate? || LookUpdate? || LookDelete? || LookDefault? || References?
        || VoiceBind? || VoiceUnbind? || Merge? || Split?
    }
  }

  datatype Command = Command(key: Id, kind: Kind, entry: Id, expected: int, action: Action)

  datatype Generated = Generated(labels: Labels, source: ResultSource)

  /** The fresh identities one change may use. */
  datatype NewIdentities = NewIdentities(
    head: Id, version: Id, look: Id, record: Id, childHead: Id, childVersion: Id, childLook: Id)
  {
    function All(): seq<Id> {
      [head, version, look, record, childHead, childVersion, childLook]
    }
  }

  /** The clock, the fresh identities and the answers of the owning ports during one change. */
  datatype Env = Env(
    now: Time, ids: NewIdentities, media: map<Id, MediaFact>, voice: Option<CatalogVoice>, result: Option<Generated>,
    dependenciesHold: bool, targetDependenciesHold: bool, impactAccepted: bool)

  datatype Receipt = Receipt(
    entry: Id, kind: Kind, revision: int, version: Id, number: int, confirmed: Option<Id>, digest: Digest,
    createdEntry: Option<Id>, createdVersion: Option<Id>, redirect: Option<Id>)

  /** The action shape that Fingerprint asks for before anything else happens. */
  predicate ShapeOk(c: Command) {
    && c.key != NIL
    && c.kind.Valid()
    && (if c.action.Creating() then c.entry == NIL && c.expected == 0 else c.entry != NIL && c.expected >= 1)
    && (c.action.CharacterOnly() ==> c.kind == Character)
    && match c.action
       case LookUpdate(look, _) => look != NIL
       case LookDelete(look) => look != NIL
       case LookDefault(look) => look != NIL
       case References(look, rs) => look != NIL && |rs| <= MAX_REFERENCES
       case Merge(target, expectedTarget) => target != NIL && target != c.entry && expectedTarget >= 1
       case AdoptResult(operation, output) => operation != NIL && output != NIL
       case CreateResult(operation, output) => operation != NIL && output != NIL
       case _ => true
  }

  // Content.

  const DEFAULT_LOOK := "\U{9ed8}\U{8ba4}\U{9020}\U{578b}"

  function NewBody(kind: Kind, labels: Labels, look: Id): Body
    requires kind.Valid()
  {
    match kind
    case Character => CharacterBody(CharacterContent(labels, [Look(look, DEFAULT_LOOK, "", true, [], [])], None))
    case Location => LocationBody(labels)
    case Prop => PropBody(labels)
  }

  function WithoutDefault(ls: seq<Look>): (r: seq<Look>)
    ensures |r| == |ls|
  {
    seq(|ls|, i requires 0 <= i < |ls| => ls[i].(isDefault := false))
  }

  function WithDefaultAt(ls: seq<Look>, index: nat): (r: seq<Look>)
    ensures |r| == |ls|
  {
    seq(|ls|, i requires 0 <= i < |ls| => ls[i].(isDefault := i == index))
  }

  function LookIndex(ls: seq<Look>, id: Id): (r: Option<nat>)
    ensures r.Some? ==> r.value < |ls| && ls[r.value].id == id
    ensures r.None? ==> forall l :: l in ls ==> l.id != id
  {
    if ls == [] then None
    else if ls[0].id == id then Some(0)
    else match LookIndex(ls[1..], id) case None => None case Some(i) => Some(i + 1)
  }

  function EditedLooks(ls: seq<Look>, index: nat, l: LookInput): seq<Look>
    requires index < |ls|
  {
    var before := if l.isDefault then WithoutDefault(ls) else ls;
    before[index := Look(ls[index].id, l.name, l.description, l.isDefault, l.appliesTo, ls[index].references)]
  }

  function ResolveReferences(rs: seq<ReferenceInput>, media: map<Id, MediaFact>): Result<seq<ImageReference>, Error> {
    if rs == [] then Success([]) else
      var front :- ResolveReferences(rs[..|rs| - 1], media);
      var r := rs[|rs| - 1];
      if r.role == OtherRole || r.asset == NIL then Failure(InvalidContent)
      else if r.asset !in media then Failure(Unavailable)
      else if media[r.asset].asset != r.asset || !media[r.asset].Valid(Image) then Failure(Unavailable)
      else Success(front + [ImageReference(r.role, media[r.asset])])
  }

  function BoundVoice(input: VoiceInput, e: Env): Result<Voice, Error> {
    match input
    case SampleInput(instructions, name, asset) =>
      if asset !in e.media || e.media[asset].asset != asset then Failure(Unavailable)
      else Success(SampleChoice(instructions, name, e.media[asset]))
    case CatalogInput(instructions, modelKey, expectedVersion, voiceKey, params) =>
      if e.voice.None? then Failure(Unavailable)
      else
        var fact := e.voice.value;
        if fact.modelKey != modelKey || fact.modelVersion != expectedVersion
           || fact.voiceKey != voiceKey || fact.params != params
        then Failure(Unavailable)
        else Success(CatalogChoice(instructions, fact))
  }

  function GeneratedLabels(operation: Id, output: Id, e: Env): Result<Labels, Error> {
    if e.result.None? then Failure(Unavailable)
    else if e.result.value.source.operation != operation
            || e.result.value.source.output != output then Failure(Unavailable)
    else Success(e.result.value.labels)
  }

  function AtLook(c: CharacterContent, look: Id): Result<nat, Error> {
    match LookIndex(c.looks, look)
    case None => Failure(NotFound)
    case Some(i) => Success(i)
  }

  function EditedCharacter(c: CharacterContent, a: Action, e: Env): Result<CharacterContent, Error>
    requires a.MakesVersion()
  {
    match a
    case Update(labels) => Success(c.(labels := labels))
    case LookCreate(l) =>
      var before := if l.isDefault then WithoutDefault(c.looks) else c.looks;
      Success(c.(looks := before + [Look(e.ids.look, l.name, l.description, l.isDefault, l.appliesTo, [])]))
    case LookUpdate(look, l) =>
      var i :- AtLook(c, look);
      if i < |c.looks| then Success(c.(looks := EditedLooks(c.looks, i, l))) else Failure(NotFound)
    case LookDefault(look) =>
      var i :- AtLook(c, look);
      Success(c.(looks := WithDefaultAt(c.looks, i)))
    case LookDelete(look) =>
      var i :- AtLook(c, look);
      if !e.impactAccepted then Failure(ImpactConflict)
      else if i < |c.looks| then Success(c.(looks := c.looks[..i] + c.looks[i + 1..])) else Failure(NotFound)
    case References(look, rs) =>
      var i :- AtLook(c, look);
      var refs :- ResolveReferences(rs, e.media);
      if i < |c.looks| then Success(c.(looks := c.looks[i := c.looks[i].(references := refs)])) else Failure(NotFound)
    case VoiceBind(input) =>
      var voice :- BoundVoice(input, e);
      Success(c.(voice := Some(voice)))
    case VoiceUnbind => Success(c.(voice := None))
    case AdoptResult(operation, output) =>
      var labels :- GeneratedLabels(operation, output, e);
      Success(c.(labels := labels))
  }

  function EditedBody(b: Body, a: Action, e: Env): Result<Body, Error>
    requires a.MakesVersion()
  {
    match b
    case CharacterBody(c) =>
      var edited :- EditedCharacter(c, a, e);
      Success(CharacterBody(edited))
    case LocationBody(_) =>
      var labels :- EditedLabels(a, e);
      Success(LocationBody(labels))
    case PropBody(_) =>
      var labels :- EditedLabels(a, e);
      Success(PropBody(labels))
  }

  function EditedLabels(a: Action, e: Env): Result<Labels, Error> {
    match a
    case Update(labels) => Success(labels)
    case AdoptResult(operation, output) => GeneratedLabels(operation, output, e)
    case _ => Failure(InvalidContent)
  }

  // Versions.

  function WithBody(v: Version, b: Body, a: Action, e: Env): Version {
    var w := v.(body := b, digest := DigestOf(b), origin := Manual, result := None);
    if a.FromResult() && e.result.Some? then w.(origin := AI, result := Some(e.result.value.source)) else w
  }

  function FirstVersionOf(org: Id, project: Id, actor: Id, kind: Kind, id: Id, entry: Id, b: Body, now: Time): Version {
    Version(id, entry, org, project, kind, 1, None, actor, now, Manual, None, DigestOf(b), b)
  }

  function NewHead(org: Id, project: Id, kind: Kind, id: Id, current: Id, now: Time): Head {
    Head(id, org, project, kind, 1, current, None, None, false, now, now)
  }

  /** The version to publish: its dependencies hold, its content is valid and its looks may be stored. */
  function Publishable(h: History, v: Version, e: Env): (r: Result<Version, Error>)
    ensures r.Success? ==> r.value == v
  {
    if !e.dependenciesHold then Failure(Unavailable)
    else if !v.Valid() then Failure(InvalidContent)
    else if exists l | l in v.Looks() ::
            l.id in LookRows(h) && LookRows(h)[l.id].character != v.entry then Failure(Conflict)
    else Success(v)
  }

  // Changes.

  function CreatedVersion(org: Id, project: Id, actor: Id, c: Command, e: Env): Result<Version, Error>
    requires ShapeOk(c) && c.action.Creating()
  {
    var labels :- match c.action
                  case Create(labels) => Success(labels)
                  case CreateResult(operation, output) => GeneratedLabels(operation, output, e);
    var b := NewBody(c.kind, labels, e.ids.look);
    Success(WithBody(FirstVersionOf(org, project, actor, c.kind, e.ids.version, e.ids.head, b, e.now), b, c.action, e))
  }

  function ReceiptOf(x: Head, v: Version): Receipt {
    Receipt(x.id, x.kind, x.revision, v.id, v.number, x.confirmed, v.digest, None, None, x.redirect)
  }

  function Created(h: History, org: Id, project: Id, actor: Id, c: Command, e: Env): Result<(History, Receipt), Error>
    requires ShapeOk(c) && c.action.Creating()
  {
    var draft :- CreatedVersion(org, project, actor, c, e);
    var v :- Publishable(h, draft, e);
    var x := NewHead(org, project, c.kind, e.ids.head, v.id, e.now);
    Success((EntryAdded(h, x, v), ReceiptOf(x, v)))
  }

  function Load(h: History, kind: Kind, entry: Id): Result<(Head, Version), Error> {
    if entry !in Heads(h) || Heads(h)[entry].kind != kind then Failure(NotFound)
    else
      var x := Heads(h)[entry];
      if x.current !in Versions(h) then Failure(NotFound)
      else if Versions(h)[x.current].entry != x.id then Failure(CorruptHistory)
      else Success((x, Versions(h)[x.current]))
  }

  function NextOf(v: Version, b: Body, actor: Id, a: Action, e: Env): Version {
    WithBody(
      v.(id := e.ids.version, previous := Some(v.id), number := v.number + 1, actor := actor, createdAt := e.now),
      b, a, e)
  }

  function Revised(h: History, actor: Id, y: Head, v: Version, a: Action, e: Env): Result<(History, Receipt), Error>
    requires a.MakesVersion()
  {
    var b :- EditedBody(v.body, a, e);
    var w :- Publishable(h, NextOf(v, b, actor, a, e), e);
    Success((VersionAdded(SetHead(h, y), y, w), ReceiptOf(y.(current := w.id), w)))
  }

  function Merged(
    h: History, actor: Id, y: Head, v: Version, target: Id, expectedTarget: int, e: Env)
    : Result<(History, Receipt), Error>
  {
    if y.confirmed != Some(v.id) then Failure(Conflict)
    else
      var found :- Load(h, Character, target);
      var z, w := found.0, found.1;
      if z.revision != expectedTarget || z.deleted || z.redirect.Some?
         || z.confirmed != Some(w.id) then Failure(Conflict)
      else if !e.dependenciesHold || !e.targetDependenciesHold then Failure(Unavailable)
      else if !e.impactAccepted then Failure(ImpactConflict)
      else
        var r := Link(e.ids.record, y.id, z.id, v.id, w.id, actor, e.now);
        Success((RedirectAdded(SetHead(h, y), y, r), ReceiptOf(y.(redirect := Some(z.id)), v)))
  }

  function SplitOff(
    h: History, org: Id, project: Id, actor: Id, y: Head, v: Version, labels: Labels, e: Env)
    : Result<(History, Receipt), Error>
  {
    var b := NewBody(Character, labels, e.ids.childLook);
    var w := FirstVersionOf(org, project, actor, Character, e.ids.childVersion, e.ids.childHead, b, e.now);
    if !w.Valid() then Failure(InvalidContent)
    else if e.ids.childLook in LookRows(h) && LookRows(h)[e.ids.childLook].character != w.entry then Failure(Conflict)
    else
      var child := NewHead(org, project, Character, e.ids.childHead, w.id, e.now);
      var r := Link(e.ids.record, v.entry, child.id, v.id, w.id, actor, e.now);
      Success((AddSplit(EntryAdded(SetHead(h, y), child, w), r),
               ReceiptOf(y, v).(createdEntry := Some(child.id), createdVersion := Some(w.id))))
  }

  function Changed(h: History, org: Id, project: Id, actor: Id, c: Command, e: Env): Result<(History, Receipt), Error>
    requires ShapeOk(c) && !c.action.Creating()
  {
    var found :- Load(h, c.kind, c.entry);
    var x, v := found.0, found.1;
    if x.revision != c.expected || x.revision >= MAX_INT32 || x.redirect.Some?
       || (x.deleted && !c.action.Restore?) then Failure(Conflict)
    else
      var y := x.(revision := x.revision + 1, updatedAt := e.now);
      if c.action.MakesVersion() then Revised(h, actor, y, v, c.action, e)
      else match c.action
        case Confirm =>
          if !e.dependenciesHold then Failure(Unavailable)
          else
            var k := Confirmation(e.ids.record, y.kind, y.id, v.id, y.revision, actor, e.now);
            Success((ConfirmationAdded(SetHead(h, y), y, k), ReceiptOf(y.(confirmed := Some(v.id)), v)))
        case Delete =>
          if !e.impactAccepted then Failure(ImpactConflict)
          else Success((SetHead(h, y.(deleted := true)), ReceiptOf(y, v)))
        case Restore =>
          if !x.deleted then Failure(Conflict)
          else Success((SetHead(h, y.(deleted := false)), ReceiptOf(y, v)))
        case Merge(target, expectedTarget) => Merged(h, actor, y, v, target, expectedTarget, e)
        case Split(labels) => SplitOff(h, org, project, actor, y, v, labels, e)
  }

  /** The recorded history and receipt after a command that is not a replay. */
  function Change(h: History, org: Id, project: Id, actor: Id, c: Command, e: Env): Result<(History, Receipt), Error> {
    if !ShapeOk(c) then Failure(InvalidContent)
    else if c.action.Creating() then Created(h, org, project, actor, c, e)
    else Changed(h, org, project, actor, c, e)
  }
}
