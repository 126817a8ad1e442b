/**
  What a successful change leaves, action by action, said of the tables before and after: the content it publishes,
  the rows it records, and what its receipt answers.
 */
module BibleOutcomes {
  import opened Wrappers
  import opened Ids
  import opened Rows
  import opened BibleContent
  import opened BibleHistory
  import opened BibleInvariant
  import opened BibleCommands
  import opened BibleRuns
  import opened BibleEffects

  // Edited content.

  /** The same look, with all its references, whatever its default flag. */
  predicate SameLook(l: Look, m: Look) {
    && m.id == l.id && m.name == l.name && m.description == l.description
    && m.appliesTo == l.appliesTo && m.references == l.references
  }

  /** Looks before `n` stay, but give up the default flag to a new default. */
  predicate KeptLooks(ls: seq<Look>, ms: seq<Look>, n: nat, newDefault: bool)
    requires n <= |ls| && n <= |ms|
  {
    forall j :: 0 <= j < n ==> SameLook(ls[j], ms[j]) && (ms[j].isDefault <==> ls[j].isDefault && !newDefault)
  }

  /** The look says what was asked for. */
  predicate LookSays(l: Look, input: LookInput) {
    && l.name == input.name && l.description == input.description
    && l.isDefault == input.isDefault && l.appliesTo == input.appliesTo
  }

  predicate LookCreated(ls: seq<Look>, ms: seq<Look>, id: Id, input: LookInput) {
    && |ms| == |ls| + 1 && KeptLooks(ls, ms, |ls|, input.isDefault)
    && ms[|ls|].id == id && LookSays(ms[|ls|], input) && ms[|ls|].references == []
  }

  predicate LookUpdated(ls: seq<Look>, ms: seq<Look>, i: nat, input: LookInput) {
    && |ms| == |ls| && i < |ls|
    && ms[i].id == ls[i].id && LookSays(ms[i], input) && ms[i].references == ls[i].references
    && forall j :: 0 <= j < |ls| && j != i ==>
         SameLook(ls[j], ms[j]) && (ms[j].isDefault <==> ls[j].isDefault && !input.isDefault)
  }

  predicate LookDeleted(ls: seq<Look>, ms: seq<Look>, i: nat) {
    && |ms| == |ls| - 1 && i < |ls|
    && (forall j :: 0 <= j < i ==> ms[j] == ls[j]) && (forall j :: i < j < |ls| ==> ms[j - 1] == ls[j])
  }

  predicate DefaultMoved(ls: seq<Look>, ms: seq<Look>, i: nat) {
    && |ms| == |ls| && i < |ls|
    && forall j :: 0 <= j < |ls| ==> SameLook(ls[j], ms[j]) && (ms[j].isDefault <==> j == i)
  }

  /** The references that were asked for, in that order, each with the image that its asset is. */
  predicate ReferencesSay(refs: seq<ImageReference>, rs: seq<ReferenceInput>, media: map<Id, MediaFact>) {
    |refs| == |rs| && forall k :: 0 <= k < |rs| ==>
      && refs[k].role == rs[k].role && rs[k].role != OtherRole && rs[k].asset != NIL
      && rs[k].asset in media && refs[k].media == media[rs[k].asset]
      && refs[k].media.asset == rs[k].asset && refs[k].media.Valid(Image)
  }

  predicate ReferencesSet(ls: seq<Look>, ms: seq<Look>, i: nat, rs: seq<ReferenceInput>, media: map<Id, MediaFact>) {
    && |ms| == |ls| && i < |ls|
    && ms[i].id == ls[i].id && ms[i].name == ls[i].name && ms[i].description == ls[i].description
    && ms[i].isDefault == ls[i].isDefault && ms[i].appliesTo == ls[i].appliesTo
    && ReferencesSay(ms[i].references, rs, media)
    && forall j :: 0 <= j < |ls| && j != i ==> ms[j] == ls[j]
  }

  predicate VoiceSays(v: Voice, input: VoiceInput, e: Env) {
    match input
    case SampleInput(instructions, name, asset) =>
      && v.SampleChoice? && v.instructions == instructions && v.name == name
      && asset in e.media && v.media == e.media[asset] && v.media.asset == asset
    case CatalogInput(instructions, modelKey, expectedVersion, voiceKey, params) =>
      && v.CatalogChoice? && v.instructions == instructions && e.voice == Some(v.catalog)
      && v.catalog.modelKey == modelKey && v.catalog.modelVersion == expectedVersion
      && v.catalog.voiceKey == voiceKey && v.catalog.params == params
  }

  /** The result is that of the operation and output that were named. */
  predicate ResultNamed(operation: Id, output: Id, e: Env) {
    e.result.Some? && e.result.value.source.operation == operation && e.result.value.source.output == output
  }

  /** How an action edits a character: one part changes, as asked, and the others stay. */
  ghost predicate CharacterEdited(c: CharacterContent, d: CharacterContent, a: Action, e: Env) {
    && (a.Update? || a.AdoptResult? || d.labels == c.labels)
    && (a.VoiceBind? || a.VoiceUnbind? || d.voice == c.voice)
    && (a.LookCreate? || a.LookUpdate? || a.LookDelete? || a.LookDefault? || a.References? || d.looks == c.looks)
    && match a
       case Update(labels) => d.labels == labels
       case LookCreate(input) => LookCreated(c.looks, d.looks, e.ids.look, input)
       case LookUpdate(look, input) =>
         exists i: nat :: i < |c.looks| && c.looks[i].id == look && LookUpdated(c.looks, d.looks, i, input)
       case LookDelete(look) =>
         e.impactAccepted && exists i: nat :: i < |c.looks| && c.looks[i].id == look && LookDeleted(c.looks, d.looks, i)
       case LookDefault(look) =>
         exists i: nat :: i < |c.looks| && c.looks[i].id == look && DefaultMoved(c.looks, d.looks, i)
       case References(look, rs) =>
         exists i: nat :: i < |c.looks| && c.looks[i].id == look && ReferencesSet(c.looks, d.looks, i, rs, e.media)
       case VoiceBind(input) => d.voice.Some? && VoiceSays(d.voice.value, input, e)
       case VoiceUnbind => d.voice == None
       case AdoptResult(operation, output) => ResultNamed(operation, output, e) && d.labels == e.result.value.labels
       case _ => false
  }

  /** The labels that an action gives. */
  predicate LabelsGiven(labels: Labels, a: Action, e: Env) {
    match a
    case Update(given) => labels == given
    case AdoptResult(operation, output) => ResultNamed(operation, output, e) && labels == e.result.value.labels
    case _ => false
  }

  ghost predicate Edited(b: Body, d: Body, a: Action, e: Env) {
    match b
    case CharacterBody(c) => d.CharacterBody? && CharacterEdited(c, d.character, a, e)
    case LocationBody(_) => d.LocationBody? && LabelsGiven(d.labels, a, e)
    case PropBody(_) => d.PropBody? && LabelsGiven(d.labels, a, e)
  }

  lemma {:induction false} ReferencesResolved(rs: seq<ReferenceInput>, media: map<Id, MediaFact>)
    ensures ResolveReferences(rs, media).Success? ==> ReferencesSay(ResolveReferences(rs, media).value, rs, media)
    ensures ResolveReferences(rs, media).Success? <==>
              exists refs: seq<ImageReference> :: ReferencesSay(refs, rs, media)
  {
    if rs == [] {
      assert ReferencesSay([], rs, media);
    } else {
      var front := rs[..|rs| - 1];
      ReferencesResolved(front, media);
      if refs: seq<ImageReference> :| ReferencesSay(refs, rs, media) {
        assert ReferencesSay(refs[..|refs| - 1], front, media);
        assert refs[|rs| - 1].role == rs[|rs| - 1].role;
      }
    }
  }

  lemma FoundLook(ls: seq<Look>, look: Id)
    ensures LookIndex(ls, look).Some? <==> exists i: nat :: i < |ls| && ls[i].id == look
  {
    if LookIndex(ls, look).Some? {
      assert ls[LookIndex(ls, look).value].id == look;
    }
    assert forall i: nat :: i < |ls| && ls[i].id == look ==> ls[i] in ls;
  }

  lemma CharacterEditSays(c: CharacterContent, a: Action, e: Env)
    requires a.MakesVersion() && EditedCharacter(c, a, e).Success?
    ensures CharacterEdited(c, EditedCharacter(c, a, e).value, a, e)
  {
    hide LookIndex, ResolveReferences;
    var d := EditedCharacter(c, a, e).value;
    match a {
      case LookUpdate(look, input) => assert LookUpdated(c.looks, d.looks, AtLook(c, look).value, input);
      case LookDelete(look) => assert LookDeleted(c.looks, d.looks, AtLook(c, look).value);
      case LookDefault(look) => assert DefaultMoved(c.looks, d.looks, AtLook(c, look).value);
      case References(look, rs) =>
        ReferencesResolved(rs, e.media);
        assert ReferencesSet(c.looks, d.looks, AtLook(c, look).value, rs, e.media);
      case _ =>
    }
  }

  lemma EditSays(b: Body, a: Action, e: Env)
    requires a.MakesVersion() && EditedBody(b, a, e).Success?
    ensures Edited(b, EditedBody(b, a, e).value, a, e)
  {
    hide EditedCharacter, CharacterEdited;
    if b.CharacterBody? {
      CharacterEditSays(b.character, a, e);
    }
  }

  // New content.

  /** What a new entry of a kind starts with: its labels, and for a character one default look without anything. */
  predicate StartsWith(b: Body, kind: Kind, labels: Labels, look: Id) {
    match kind
    case Character =>
      && b.CharacterBody? && b.character.labels == labels && b.character.voice == None
      && |b.character.looks| == 1
      && var l := b.character.looks[0];
         l.id == look && l.name == DEFAULT_LOOK && l.description == "" && l.isDefault
           && l.appliesTo == [] && l.references == []
    case Location => b == LocationBody(labels)
    case Prop => b == PropBody(labels)
    case OtherKind => false
  }

  /** A head as it is when its entry is new. */
  predicate BrandNew(x: Head, id: Id, org: Id, project: Id, kind: Kind, current: Id, now: Time) {
    && x.id == id && x.org == org && x.project == project && x.kind == kind && x.revision == 1 && x.current == current
    && x.confirmed == None && x.redirect == None && !x.deleted && x.createdAt == now && x.updatedAt == now
  }

  /** A first version, written by this actor now. */
  predicate FirstOf(w: Version, x: Head, id: Id, actor: Id) {
    && w.id == id && w.entry == x.id && w.org == x.org && w.project == x.project && w.kind == x.kind
    && w.number == 1 && w.previous == None && w.actor == actor && w.createdAt == x.createdAt && w.Valid()
  }

  /** Where the content of a version came from: the named result, or the actor. */
  predicate Provenance(w: Version, fromResult: bool, e: Env) {
    if fromResult then e.result.Some? && w.origin == AI && w.result == Some(e.result.value.source)
    else w.origin == Manual && w.result == None
  }

  /** The look rows afterwards: one more for each look of the version that had none, owned by its entry from then on. */
  ghost predicate LooksRecorded(h: History, g: History, w: Version) {
    && h.looks <= g.looks
    && (forall i :: |h.looks| <= i < |g.looks| ==>
          && g.looks[i].character == w.entry && g.looks[i].createdAt == w.createdAt
          && g.looks[i].id !in Keys(h.looks, LookRowId) && exists l | l in w.Looks() :: l.id == g.looks[i].id)
    && forall l | l in w.Looks() :: l.id in Keys(g.looks, LookRowId)
  }

  lemma {:induction false} InsertedLooks(rows: seq<LookRow>, ls: seq<Look>, entry: Id, at: Time)
    ensures var more := InsertLooks(rows, ls, entry, at);
            && (forall i :: |rows| <= i < |more| ==>
                  && more[i].character == entry && more[i].createdAt == at
                  && more[i].id !in Keys(rows, LookRowId) && exists l | l in ls :: l.id == more[i].id)
            && forall l | l in ls :: l.id in Keys(more, LookRowId)
  {
    if ls != [] {
      var front, l := ls[..|ls| - 1], ls[|ls| - 1];
      var before, more := InsertLooks(rows, front, entry, at), InsertLooks(rows, ls, entry, at);
      InsertedLooks(rows, front, entry, at);
      IndexKeys(before, LookRowId);
      forall i | |rows| <= i < |more|
        ensures more[i].id !in Keys(rows, LookRowId) && exists m | m in ls :: m.id == more[i].id
      {
        if i == |before| {
          assert l in ls;
          assert forall k :: 0 <= k < |rows| ==> Keys(before, LookRowId)[k] == Keys(rows, LookRowId)[k];
        } else {
          var m :| m in front && m.id == before[i].id;
          assert m in ls;
        }
      }
      forall m | m in ls ensures m.id in Keys(more, LookRowId) {
        if m in front && m.id in Keys(before, LookRowId) {
          var k :| 0 <= k < |before| && Keys(before, LookRowId)[k] == m.id;
          assert Keys(more, LookRowId)[k] == m.id;
        } else {
          assert m == l;
          assert more != before ==> Keys(more, LookRowId)[|before|] == l.id;
        }
      }
    }
  }

  lemma VersionLooks(h: History, g: History, w: Version)
    requires g.looks == InsertLooks(h.looks, w.Looks(), w.entry, w.createdAt)
    ensures LooksRecorded(h, g, w)
  {
    InsertedLooks(h.looks, w.Looks(), w.entry, w.createdAt);
  }

  // What a successful change leaves.

  /** The entry that the command names, and its current version. */
  ghost predicate EntryAt(h: History, c: Command, x: Head, v: Version) {
    c.entry in Heads(h) && x == Heads(h)[c.entry] && x.current in Versions(h) && v == Versions(h)[x.current]
  }

  /** An edit publishes the content that its action asks for, and says where that came from. */
  lemma EditOutcome(h: History, org: Id, project: Id, actor: Id, c: Command, e: Env, x: Head, v: Version)
    requires IdsOk(h) && FreshFor(h, e.ids) && c.action.MakesVersion() && EntryAt(h, c, x, v)
    requires Change(h, org, project, actor, c, e).Success?
    ensures var g := Change(h, org, project, actor, c, e).value.0;
            && |g.versions| == |h.versions| + 1
            && var w := g.versions[|h.versions|];
               && Edited(v.body, w.body, c.action, e) && Provenance(w, c.action.AdoptResult?, e)
               && w.id == e.ids.version && w.org == v.org && w.project == v.project && w.kind == v.kind
               && LooksRecorded(h, g, w)
  {
    var x', v' := ChangeTaken(h, org, project, actor, c, e);
    RevisedHeads(h, actor, Next(x, e), v, c.action, e);
    EditSays(v.body, c.action, e);
    var g := Change(h, org, project, actor, c, e).value.0;
    var w := g.versions[|h.versions|];
    hide Changed, EditedBody, Edited, InsertLooks;
    VersionLooks(h, g, w);
  }

  lemma NewBodyStarts(kind: Kind, labels: Labels, look: Id)
    requires kind.Valid()
    ensures StartsWith(NewBody(kind, labels, look), kind, labels, look)
  {
  }

  /** The labels that a creation is given. */
  predicate LabelsNew(labels: Labels, a: Action, e: Env) {
    match a
    case Create(given) => labels == given
    case CreateResult(operation, output) => ResultNamed(operation, output, e) && labels == e.result.value.labels
    case _ => false
  }

  /** A creation adds one new entry with its first version, and nothing else. */
  lemma CreationOutcome(h: History, org: Id, project: Id, actor: Id, c: Command, e: Env)
    requires c.action.Creating() && Change(h, org, project, actor, c, e).Success?
    ensures var g := Change(h, org, project, actor, c, e).value.0;
            && |g.heads| == |h.heads| + 1 && |g.versions| == |h.versions| + 1
            && var x, w := g.heads[|h.heads|], g.versions[|h.versions|];
               && g == h.(heads := h.heads + [x], versions := h.versions + [w], looks := g.looks)
               && BrandNew(x, e.ids.head, org, project, c.kind, w.id, e.now)
               && FirstOf(w, x, e.ids.version, actor) && Provenance(w, c.action.CreateResult?, e)
               && (exists labels :: LabelsNew(labels, c.action, e) && StartsWith(w.body, c.kind, labels, e.ids.look))
               && LooksRecorded(h, g, w)
  {
    var g := Change(h, org, project, actor, c, e).value.0;
    var labels := if c.action.Create? then c.action.labels else e.result.value.labels;
    NewBodyStarts(c.kind, labels, e.ids.look);
    hide InsertLooks, NewBody;
    var w := g.versions[|h.versions|];
    assert LabelsNew(labels, c.action, e) && StartsWith(w.body, c.kind, labels, e.ids.look);
    VersionLooks(h, g, w);
  }

  /** The records that a change adds: a confirmation, a redirect or a split, each by its own action only. */
  lemma RecordsOutcome(h: History, org: Id, project: Id, actor: Id, c: Command, e: Env, x: Head, v: Version)
    requires !c.action.Creating() && EntryAt(h, c, x, v) && Change(h, org, project, actor, c, e).Success?
    ensures var g := Change(h, org, project, actor, c, e).value.0;
            && g.confirmations == h.confirmations
                 + (if c.action.Confirm?
                    then [Confirmation(e.ids.record, c.kind, c.entry, x.current, c.expected + 1, actor, e.now)] else [])
            && g.redirects == h.redirects
                 + (if c.action.Merge? && c.action.target in Heads(h)
                    then [Link(e.ids.record, c.entry, c.action.target, x.current, Heads(h)[c.action.target].current,
                               actor, e.now)] else [])
            && g.splits == h.splits
                 + (if c.action.Split?
                    then [Link(e.ids.record, c.entry, e.ids.childHead, x.current, e.ids.childVersion, actor, e.now)]
                    else [])
            && (!c.action.MakesVersion() && !c.action.Split? ==> g.versions == h.versions && g.looks == h.looks)
  {
    var x', v' := ChangeTaken(h, org, project, actor, c, e);
    if c.action.Merge? {
      LoadedRow(h, Character, c.action.target);
    }
    hide Changed, EditedBody, InsertLooks, Publishable, Load, NewBody;
  }

  /** A split adds one new character, with its first version, beside the one it came from. */
  lemma SplitOutcome(h: History, org: Id, project: Id, actor: Id, c: Command, e: Env)
    requires c.action.Split? && Change(h, org, project, actor, c, e).Success?
    ensures var g := Change(h, org, project, actor, c, e).value.0;
            && |g.heads| == |h.heads| + 1 && |g.versions| == |h.versions| + 1
            && var x, w := g.heads[|h.heads|], g.versions[|h.versions|];
               && BrandNew(x, e.ids.childHead, org, project, Character, w.id, e.now)
               && FirstOf(w, x, e.ids.childVersion, actor) && Provenance(w, false, e)
               && StartsWith(w.body, Character, c.action.labels, e.ids.childLook) && LooksRecorded(h, g, w)
  {
    var x', v' := ChangeTaken(h, org, project, actor, c, e);
    NewBodyStarts(Character, c.action.labels, e.ids.childLook);
    var g := Change(h, org, project, actor, c, e).value.0;
    hide Changed, InsertLooks, NewBody;
    VersionLooks(h, g, g.versions[|h.versions|]);
  }

  predicate AnswersFor(r: Receipt, x: Head) {
    && r.entry == x.id && r.kind == x.kind && r.revision == x.revision && r.version == x.current
    && r.confirmed == x.confirmed && r.redirect == x.redirect
  }

  /** What a receipt answers: where the entry stands in the new history, and what a split created. */
  ghost predicate ReceiptSays(r: Receipt, h: History, g: History, c: Command, e: Env) {
    && r.entry == (if c.action.Creating() then e.ids.head else c.entry)
    && r.entry in Heads(g) && AnswersFor(r, Heads(g)[r.entry]) && r.version in Versions(g)
    && r.number == Versions(g)[r.version].number && r.digest == Versions(g)[r.version].digest
    && (c.action.Split? ==>
          && |g.heads| == |h.heads| + 1
          && r.createdEntry == Some(g.heads[|h.heads|].id) && r.createdVersion == Some(g.heads[|h.heads|].current))
    && (!c.action.Split? ==> r.createdEntry == None && r.createdVersion == None)
  }

  lemma VersionsAfter(h: History, g: History, w: Version)
    requires g.versions == h.versions + [w]
    ensures Versions(g) == Versions(h)[w.id := w]
  {
    IndexAppend(h.versions, w, VersionId);
  }

  lemma CreationReceipt(h: History, org: Id, project: Id, actor: Id, c: Command, e: Env)
    requires c.action.Creating() && Change(h, org, project, actor, c, e).Success?
    ensures ReceiptSays(Change(h, org, project, actor, c, e).value.1, h,
              Change(h, org, project, actor, c, e).value.0, c, e)
  {
    var w := Publishable(h, CreatedVersion(org, project, actor, c, e).value, e).value;
    EntryTables(h, NewHead(org, project, c.kind, e.ids.head, w.id, e.now), w);
    hide EntryAdded, Index, CreatedVersion, Publishable;
  }

  /** The fields of the receipt that the action itself decides. */
  lemma ChangedReceipt(h: History, org: Id, project: Id, actor: Id, c: Command, e: Env, x: Head, v: Version)
    requires ShapeOk(c) && !c.action.Creating() && EntryAt(h, c, x, v) && Changed(h, org, project, actor, c, e).Success?
    ensures var r := Changed(h, org, project, actor, c, e).value.1;
            var g := Changed(h, org, project, actor, c, e).value.0;
            && r.entry == c.entry && r.kind == x.kind && r.revision == x.revision + 1
            && r.confirmed == (if c.action.Confirm? then Some(x.current) else x.confirmed)
            && r.redirect == (if c.action.Merge? then Some(c.action.target) else x.redirect)
            && (if c.action.MakesVersion()
                then |g.versions| == |h.versions| + 1 && r.version == e.ids.version
                     && r.number == g.versions[|h.versions|].number && r.digest == g.versions[|h.versions|].digest
                else r.version == x.current && r.number == v.number && r.digest == v.digest)
            && r.createdEntry == (if c.action.Split? then Some(e.ids.childHead) else None)
            && r.createdVersion == (if c.action.Split? then Some(e.ids.childVersion) else None)
  {
    LoadedRow(h, c.kind, c.entry);
    if c.action.Merge? {
      LoadedRow(h, Character, c.action.target);
    }
    hide EditedBody, InsertLooks, NewBody, Publishable;
  }

  /** The version that the receipt names is there, and its number and digest are those answered. */
  lemma ReceiptVersion(h: History, org: Id, project: Id, actor: Id, c: Command, e: Env, x: Head, v: Version)
    requires IdsOk(h) && FreshFor(h, e.ids) && !c.action.Creating() && EntryAt(h, c, x, v) && v.id == x.current
    requires Change(h, org, project, actor, c, e).Success?
    ensures var r := Change(h, org, project, actor, c, e).value.1;
            var g := Change(h, org, project, actor, c, e).value.0;
            && r.version in Versions(g) && r.number == Versions(g)[r.version].number
            && r.digest == Versions(g)[r.version].digest
            && (c.action.MakesVersion() ==> c.entry in Heads(g) && r.version == Heads(g)[c.entry].current)
  {
    ChangedReceipt(h, org, project, actor, c, e, x, v);
    var g := Change(h, org, project, actor, c, e).value.0;
    hide Changed, Index, IdsOk, ShapeOk, FreshFor, Edited;
    if c.action.MakesVersion() {
      EditFollows(h, org, project, actor, c, e);
      EditOutcome(h, org, project, actor, c, e, x, v);
      VersionsAfter(h, g, g.versions[|h.versions|]);
    } else if c.action.Split? {
      SplitOutcome(h, org, project, actor, c, e);
      RecordsAppended(h, org, project, actor, c, e);
      VersionsAfter(h, g, g.versions[|h.versions|]);
      SplitIsNew(h, e, v);
    } else {
      RecordsOutcome(h, org, project, actor, c, e, x, v);
    }
  }

  lemma ReceiptOutcome(h: History, org: Id, project: Id, actor: Id, c: Command, e: Env)
    requires IdsOk(h) && FreshFor(h, e.ids) && Change(h, org, project, actor, c, e).Success?
    ensures ReceiptSays(Change(h, org, project, actor, c, e).value.1, h,
              Change(h, org, project, actor, c, e).value.0, c, e)
  {
    if c.action.Creating() {
      CreationReceipt(h, org, project, actor, c, e);
    } else {
      var x, v := ChangeTaken(h, org, project, actor, c, e);
      hide Changed, Revised, Merged, SplitOff, Index, IdsOk, OthersStay, FreshFor, ShapeOk;
      ChangedReceipt(h, org, project, actor, c, e, x, v);
      ReceiptVersion(h, org, project, actor, c, e, x, v);
      OneEntryMoves(h, org, project, actor, c, e);
      if c.action.Split? {
        SplitOutcome(h, org, project, actor, c, e);
      }
    }
  }

  lemma SplitIsNew(h: History, e: Env, v: Version)
    requires FreshFor(h, e.ids) && v.id in Versions(h)
    ensures e.ids.childVersion != v.id
  {
    assert e.ids.All()[5] == e.ids.childVersion;
    NotInTables(h, e.ids.childVersion);
  }
}
