/** When a change succeeds, and which error it gives otherwise, as conditions on the tables and the command alone. */
module BibleGuards {
  import opened Wrappers
  import opened Ids
  import opened Rows
  import opened BibleContent
  import opened BibleHistory
  import opened BibleInvariant
  import opened BibleCommands
  import opened BibleRuns
  import opened BibleEffects
  import opened BibleOutcomes

  // An edit has one outcome.

  lemma SameLooks(ls: seq<Look>, ms: seq<Look>)
    requires |ls| == |ms| && forall j :: 0 <= j < |ls| ==> SameLook(ls[j], ms[j]) && ls[j].isDefault == ms[j].isDefault
    ensures ls == ms
  {
    assert forall j :: 0 <= j < |ls| ==> ls[j] == ms[j];
  }

  lemma SameReferences(
    a: seq<ImageReference>, b: seq<ImageReference>, rs: seq<ReferenceInput>, media: map<Id, MediaFact>)
    requires ReferencesSay(a, rs, media) && ReferencesSay(b, rs, media)
    ensures a == b
  {
    assert forall k :: 0 <= k < |rs| ==> a[k] == b[k];
  }

  lemma DeletedOnce(ls: seq<Look>, a: seq<Look>, b: seq<Look>, i: nat)
    requires LookDeleted(ls, a, i) && LookDeleted(ls, b, i)
    ensures a == b
  {
    forall k | 0 <= k < |a| ensures a[k] == b[k] {
      assert if k < i then a[k] == ls[k] == b[k] else a[k + 1 - 1] == ls[k + 1] == b[k + 1 - 1];
    }
  }

  lemma LooksOnce(ls: seq<Look>, a: seq<Look>, b: seq<Look>, action: Action, e: Env)
    requires LookIdsDistinct(ls) && action.MakesVersion()
    requires var c := CharacterContent(Labels("", [], []), ls, None);
             CharacterEdited(c, c.(looks := a), action, e) && CharacterEdited(c, c.(looks := b), action, e)
    requires !action.Update? && !action.AdoptResult? && !action.VoiceBind? && !action.VoiceUnbind?
    ensures a == b
  {
    match action {
      case LookCreate(input) => SameLooks(a, b);
      case LookUpdate(look, input) =>
        var i: nat :| i < |ls| && ls[i].id == look && LookUpdated(ls, a, i, input);
        var j: nat :| j < |ls| && ls[j].id == look && LookUpdated(ls, b, j, input);
        SameLooks(a, b);
      case LookDelete(look) =>
        var i: nat :| i < |ls| && ls[i].id == look && LookDeleted(ls, a, i);
        var j: nat :| j < |ls| && ls[j].id == look && LookDeleted(ls, b, j);
        DeletedOnce(ls, a, b, i);
      case LookDefault(look) =>
        var i: nat :| i < |ls| && ls[i].id == look && DefaultMoved(ls, a, i);
        var j: nat :| j < |ls| && ls[j].id == look && DefaultMoved(ls, b, j);
        SameLooks(a, b);
      case References(look, rs) =>
        var i: nat :| i < |ls| && ls[i].id == look && ReferencesSet(ls, a, i, rs, e.media);
        var j: nat :| j < |ls| && ls[j].id == look && ReferencesSet(ls, b, j, rs, e.media);
        SameReferences(a[i].references, b[i].references, rs, e.media);
        SameLooks(a, b);
    }
  }

  lemma LooksAlone(c: CharacterContent, d: CharacterContent, a: Action, e: Env)
    requires CharacterEdited(c, d, a, e) && !a.Update? && !a.AdoptResult? && !a.VoiceBind? && !a.VoiceUnbind?
    ensures var none := CharacterContent(Labels("", [], []), c.looks, None);
            CharacterEdited(none, none.(looks := d.looks), a, e)
  {
  }

  /** What an edit asks for leaves no choice: two bodies that both follow it are equal. */
  lemma EditedOnce(b: Body, b1: Body, b2: Body, a: Action, e: Env)
    requires Edited(b, b1, a, e) && Edited(b, b2, a, e) && a.MakesVersion()
    requires b.CharacterBody? ==> LookIdsDistinct(b.character.looks)
    ensures b1 == b2
  {
    if b.CharacterBody? && !a.Update? && !a.AdoptResult? && !a.VoiceBind? && !a.VoiceUnbind? {
      LooksAlone(b.character, b1.character, a, e);
      LooksAlone(b.character, b2.character, a, e);
      LooksOnce(b.character.looks, b1.character.looks, b2.character.looks, a, e);
    }
  }

  // An edit that can be done is done.

  lemma CharacterEditDone(c: CharacterContent, d: CharacterContent, a: Action, e: Env)
    requires a.MakesVersion() && CharacterEdited(c, d, a, e)
    ensures EditedCharacter(c, a, e).Success?
  {
    match a {
      case LookUpdate(look, _) => FoundLook(c.looks, look);
      case LookDelete(look) => FoundLook(c.looks, look);
      case LookDefault(look) => FoundLook(c.looks, look);
      case References(look, rs) =>
        FoundLook(c.looks, look);
        ReferencesResolved(rs, e.media);
      case _ =>
    }
    hide LookIndex, ResolveReferences;
  }

  /** Content that follows an edit is what the edit publishes. */
  lemma EditDone(b: Body, d: Body, a: Action, e: Env)
    requires a.MakesVersion() && Edited(b, d, a, e) && (b.CharacterBody? ==> LookIdsDistinct(b.character.looks))
    ensures EditedBody(b, a, e) == Success(d)
  {
    if b.CharacterBody? {
      CharacterEditDone(b.character, d.character, a, e);
    }
    EditSays(b, a, e);
    EditedOnce(b, d, EditedBody(b, a, e).value, a, e);
  }

  // When a command may be carried out.

  predicate SourceOk(e: Env) {
    e.result.Some? && e.result.value.source.inputSha.Sha? && e.result.value.source.outputSha.Sha?
  }

  /** The edited content is valid, and a result that it is taken from is well formed. */
  ghost predicate EditReady(v: Version, a: Action, e: Env) {
    && e.dependenciesHold && (a.AdoptResult? ==> SourceOk(e))
    && exists b :: Edited(v.body, b, a, e) && ContentOk(v.kind, b)
  }

  ghost predicate CreationReady(a: Action, e: Env) {
    && e.dependenciesHold && (a.CreateResult? ==> SourceOk(e))
    && exists labels :: LabelsNew(labels, a, e) && LabelsOk(labels)
  }

  /** The entry is there, at the expected revision, and takes commands. */
  ghost predicate EntryReady(h: History, c: Command) {
    && c.entry in Heads(h) && Heads(h)[c.entry].kind == c.kind
    && var x := Heads(h)[c.entry];
       x.revision == c.expected < MAX_INT32 && x.redirect == None && (x.deleted ==> c.action.Restore?)
  }

  /** The merge target is a live character at the expected revision, confirmed as it stands. */
  ghost predicate TargetReady(h: History, target: Id, expected: int) {
    && target in Heads(h) && Heads(h)[target].kind == Character
    && var z := Heads(h)[target];
       z.revision == expected && !z.deleted && z.redirect == None && z.confirmed == Some(z.current)
  }

  ghost predicate ActionReady(h: History, c: Command, e: Env, x: Head, v: Version) {
    match c.action
    case Confirm => e.dependenciesHold
    case Delete => e.impactAccepted
    case Restore => x.deleted
    case Merge(target, expected) =>
      && x.confirmed == Some(x.current) && TargetReady(h, target, expected)
      && e.dependenciesHold && e.targetDependenciesHold && e.impactAccepted
    case Split(labels) => LabelsOk(labels)
    case _ => EditReady(v, c.action, e)
  }

  ghost predicate Ready(h: History, c: Command, e: Env) {
    && ShapeOk(c)
    && if c.action.Creating() then CreationReady(c.action, e)
       else
         && EntryReady(h, c) && Heads(h)[c.entry].current in Versions(h)
         && ActionReady(h, c, e, Heads(h)[c.entry], Versions(h)[Heads(h)[c.entry].current])
  }

  /** What surrounds one command. */
  ghost predicate Around(h: History, org: Id, project: Id, actor: Id, e: Env, t: Time) {
    Inv(h, org, project, t) && t <= e.now && e.now != 0 && FreshFor(h, e.ids) && actor != NIL
  }

  lemma StartValid(w: Version, x: Head, kind: Kind, labels: Labels, look: Id)
    requires StartsWith(w.body, kind, labels, look) && look != NIL
    ensures ContentOk(kind, w.body) <==> LabelsOk(labels)
  {
    if kind == Character {
      assert OnlyDefault(w.body.character.looks, 0);
    }
  }

  lemma FreshNotNil(h: History, ids: NewIdentities)
    requires FreshFor(h, ids)
    ensures forall k | k in ids.All() :: k != NIL
    ensures ids.head != NIL && ids.version != NIL && ids.look != NIL
    ensures ids.childHead != NIL && ids.childVersion != NIL && ids.childLook != NIL
    ensures ids.look !in LookRows(h) && ids.childLook !in LookRows(h)
  {
    var all := ids.All();
    assert all[0] == ids.head && all[1] == ids.version && all[2] == ids.look;
    assert all[4] == ids.childHead && all[5] == ids.childVersion && all[6] == ids.childLook;
    FreshParts(h, ids);
  }

  lemma CreationReadyIff(h: History, org: Id, project: Id, actor: Id, c: Command, e: Env, t: Time)
    requires Around(h, org, project, actor, e, t) && ShapeOk(c) && c.action.Creating()
    ensures Created(h, org, project, actor, c, e).Success? <==> CreationReady(c.action, e)
  {
    FreshNotNil(h, e.ids);
    hide Inv, FreshFor, LookRows, CharacterOk;
    if CreatedVersion(org, project, actor, c, e).Success? {
      var labels := if c.action.Create? then c.action.labels else e.result.value.labels;
      var w := CreatedVersion(org, project, actor, c, e).value;
      assert LabelsNew(labels, c.action, e);
      NewBodyStarts(c.kind, labels, e.ids.look);
      StartValid(w, NewHead(org, project, c.kind, e.ids.head, w.id, e.now), c.kind, labels, e.ids.look);
      assert forall l | l in w.Looks() :: l.id == e.ids.look;
    }
  }

  lemma SplitReadyIff(h: History, org: Id, project: Id, actor: Id, y: Head, v: Version, labels: Labels, e: Env, t: Time)
    requires Around(h, org, project, actor, e, t)
    ensures SplitOff(h, org, project, actor, y, v, labels, e).Success? <==> LabelsOk(labels)
  {
    FreshNotNil(h, e.ids);
    hide Inv, FreshFor, LookRows, CharacterOk;
    var b := NewBody(Character, labels, e.ids.childLook);
    var w := FirstVersionOf(org, project, actor, Character, e.ids.childVersion, e.ids.childHead, b, e.now);
    NewBodyStarts(Character, labels, e.ids.childLook);
    StartValid(w, y, Character, labels, e.ids.childLook);
  }

  /** Looks that an edit leaves are those of the version before it, and perhaps the new one. */
  lemma EditedLooksFit(h: History, org: Id, project: Id, actor: Id, x: Head, v: Version, a: Action, e: Env)
    requires FreshFor(h, e.ids) && Loaded(h, org, project, x, v) && v.createdAt <= e.now
    requires a.MakesVersion() && EditedBody(v.body, a, e).Success?
    ensures var w := NextOf(v, EditedBody(v.body, a, e).value, actor, a, e);
            forall l | l in w.Looks() :: l.id in LookRows(h) ==> LookRows(h)[l.id].character == w.entry
  {
    var w := NextOf(v, EditedBody(v.body, a, e).value, actor, a, e);
    NextLooksFrom(v, a, actor, e);
    NextLooksFit(h, org, project, x, v, w, e);
  }

  lemma NextValidIff(v: Version, b: Body, actor: Id, a: Action, e: Env)
    requires v.Valid() && a.MakesVersion() && EditedBody(v.body, a, e) == Success(b) && actor != NIL && e.now != 0
    requires e.ids.version != NIL && e.ids.version != v.id
    requires a.AdoptResult? ==> a.operation != NIL && a.output != NIL
    ensures NextOf(v, b, actor, a, e).Valid() <==> ContentOk(v.kind, b) && (a.AdoptResult? ==> SourceOk(e))
  {
    EditSays(v.body, a, e);
    hide EditedBody, ContentOk;
  }

  lemma EditPublished(h: History, org: Id, project: Id, actor: Id, x: Head, v: Version, a: Action, e: Env, t: Time)
    requires Around(h, org, project, actor, e, t) && Loaded(h, org, project, x, v)
    requires v.createdAt <= t && a.MakesVersion()
    ensures Revised(h, actor, Next(x, e), v, a, e).Success? <==>
              && e.dependenciesHold && EditedBody(v.body, a, e).Success?
              && NextOf(v, EditedBody(v.body, a, e).value, actor, a, e).Valid()
  {
    if EditedBody(v.body, a, e).Success? {
      EditedLooksFit(h, org, project, actor, x, v, a, e);
    }
    hide Inv, FreshFor, EditedBody, NextOf, VersionAdded, SetHead, Loaded, Version.Valid, LookRows, ReceiptOf;
  }

  lemma EditReadyIff(h: History, org: Id, project: Id, actor: Id, x: Head, v: Version, a: Action, e: Env, t: Time)
    requires Around(h, org, project, actor, e, t) && Loaded(h, org, project, x, v)
    requires v.createdAt <= t && a.MakesVersion()
    requires a.AdoptResult? ==> a.operation != NIL && a.output != NIL
    ensures Revised(h, actor, Next(x, e), v, a, e).Success? <==> EditReady(v, a, e)
  {
    EditPublished(h, org, project, actor, x, v, a, e, t);
    FreshNotNil(h, e.ids);
    FreshVersion(h, e, v);
    DistinctLooks(v);
    hide Inv, FreshFor, EditedBody, Edited, NextOf, ContentOk, Loaded, Revised, Index, AllIds;
    if EditedBody(v.body, a, e).Success? {
      EditSays(v.body, a, e);
      NextValidIff(v, EditedBody(v.body, a, e).value, actor, a, e);
    }
    if b :| Edited(v.body, b, a, e) && ContentOk(v.kind, b) {
      EditDone(v.body, b, a, e);
    }
  }

  lemma DistinctLooks(v: Version)
    requires v.Valid()
    ensures v.body.CharacterBody? ==> LookIdsDistinct(v.body.character.looks)
  {
  }

  lemma FreshVersion(h: History, e: Env, v: Version)
    requires FreshFor(h, e.ids) && v.id in Versions(h)
    ensures e.ids.version != v.id
  {
    assert e.ids.All()[1] == e.ids.version;
    NotInTables(h, e.ids.version);
  }

  lemma MergeReadyIff(h: History, org: Id, project: Id, actor: Id, x: Head, v: Version, c: Command, e: Env, t: Time)
    requires Around(h, org, project, actor, e, t) && Loaded(h, org, project, x, v) && c.action.Merge?
    ensures Merged(h, actor, Next(x, e), v, c.action.target, c.action.expectedTarget, e).Success? <==>
              ActionReady(h, c, e, x, v)
  {
    LoadedIff(h, org, project, Character, c.action.target, t);
    hide Inv, FreshFor, RedirectAdded, SetHead, Loaded, Index;
    if Load(h, Character, c.action.target).Success? {
      LoadedRow(h, Character, c.action.target);
    }
  }

  lemma LoadedIff(h: History, org: Id, project: Id, kind: Kind, entry: Id, t: Time)
    requires Inv(h, org, project, t)
    ensures Load(h, kind, entry).Success? <==> entry in Heads(h) && Heads(h)[entry].kind == kind
    ensures entry !in Heads(h) || Heads(h)[entry].kind != kind ==> Load(h, kind, entry) == Failure(NotFound)
    ensures entry in Heads(h) ==> Heads(h)[entry].current in Versions(h)
  {
    if entry in Heads(h) {
      IndexHolds(h.heads, HeadId);
      assert ChainOk(Versions(h), Heads(h)[entry]);
    }
  }

  /** A command that is no replay succeeds exactly if it is ready. */
  lemma SucceedsIff(h: History, org: Id, project: Id, actor: Id, c: Command, e: Env, t: Time)
    requires Around(h, org, project, actor, e, t)
    ensures Change(h, org, project, actor, c, e).Success? <==> Ready(h, c, e)
  {
    if ShapeOk(c) {
      if c.action.Creating() {
        CreationReadyIff(h, org, project, actor, c, e, t);
      } else {
        LoadedIff(h, org, project, c.kind, c.entry, t);
        hide Inv, FreshFor, ActionReady, Revised, Merged, SplitOff, Loaded;
        if EntryReady(h, c) {
          LoadFacts(h, org, project, c.kind, c.entry, t);
          LoadedRow(h, c.kind, c.entry);
          var x, v := Load(h, c.kind, c.entry).value.0, Load(h, c.kind, c.entry).value.1;
          ActionReadyIff(h, org, project, actor, c, e, t, x, v);
        }
      }
    }
  }

  /** Where a command goes on once its entry was found ready. */
  lemma Branch(h: History, org: Id, project: Id, actor: Id, c: Command, e: Env, x: Head, v: Version)
    requires ShapeOk(c) && !c.action.Creating() && EntryReady(h, c)
    requires Load(h, c.kind, c.entry) == Success((x, v)) && x == Heads(h)[c.entry]
    ensures c.action.MakesVersion() ==>
              Changed(h, org, project, actor, c, e) == Revised(h, actor, Next(x, e), v, c.action, e)
    ensures c.action.Merge? ==>
              Changed(h, org, project, actor, c, e) ==
                Merged(h, actor, Next(x, e), v, c.action.target, c.action.expectedTarget, e)
    ensures c.action.Split? ==>
              Changed(h, org, project, actor, c, e) ==
                SplitOff(h, org, project, actor, Next(x, e), v, c.action.labels, e)
    ensures c.action.Confirm? ==> (Changed(h, org, project, actor, c, e).Success? <==> e.dependenciesHold)
    ensures c.action.Delete? ==> (Changed(h, org, project, actor, c, e).Success? <==> e.impactAccepted)
    ensures c.action.Restore? ==> (Changed(h, org, project, actor, c, e).Success? <==> x.deleted)
  {
    hide Revised, Merged, SplitOff, Load, SetHead, ConfirmationAdded, Index;
  }

  lemma ActionReadyIff(h: History, org: Id, project: Id, actor: Id, c: Command, e: Env, t: Time, x: Head, v: Version)
    requires Around(h, org, project, actor, e, t) && ShapeOk(c) && !c.action.Creating() && EntryReady(h, c)
    requires Load(h, c.kind, c.entry) == Success((x, v)) && Loaded(h, org, project, x, v) && v.createdAt <= t
    ensures Changed(h, org, project, actor, c, e).Success? <==> ActionReady(h, c, e, x, v)
  {
    Branch(h, org, project, actor, c, e, x, v);
    hide Changed, Around, Inv, FreshFor, Revised, Merged, SplitOff, Load, EditReady, Index, TargetReady, LabelsOk;
    hide EntryReady, Loaded, Next;
    if c.action.MakesVersion() {
      EditReadyIff(h, org, project, actor, x, v, c.action, e, t);
    } else if c.action.Merge? {
      MergeReadyIff(h, org, project, actor, x, v, c, e, t);
    } else if c.action.Split? {
      SplitReadyIff(h, org, project, actor, Next(x, e), v, c.action.labels, e, t);
    }
  }

  // Which error is given.

  /** What is checked first: the shape of the command, and the entry it names. */
  lemma EntryRefused(h: History, org: Id, project: Id, actor: Id, c: Command, e: Env, t: Time)
    requires Around(h, org, project, actor, e, t)
    ensures !ShapeOk(c) ==> Change(h, org, project, actor, c, e) == Failure(InvalidContent)
    ensures ShapeOk(c) && !c.action.Creating() ==>
              && (c.entry !in Heads(h) || Heads(h)[c.entry].kind != c.kind ==>
                    Change(h, org, project, actor, c, e) == Failure(NotFound))
              && (c.entry in Heads(h) && Heads(h)[c.entry].kind == c.kind && !EntryReady(h, c) ==>
                    Change(h, org, project, actor, c, e) == Failure(Conflict))
  {
    LoadedIff(h, org, project, c.kind, c.entry, t);
    hide Inv, FreshFor, Revised, Merged, SplitOff, Created;
  }

  /** Then what the action needs. */
  lemma StatusRefused(h: History, org: Id, project: Id, actor: Id, c: Command, e: Env, t: Time)
    requires Around(h, org, project, actor, e, t) && ShapeOk(c) && !c.action.Creating() && EntryReady(h, c)
    ensures var x, r := Heads(h)[c.entry], Change(h, org, project, actor, c, e);
            match c.action
            case Confirm => !e.dependenciesHold ==> r == Failure(Unavailable)
            case Delete => !e.impactAccepted ==> r == Failure(ImpactConflict)
            case Restore => !x.deleted ==> r == Failure(Conflict)
            case Split(labels) => !LabelsOk(labels) ==> r == Failure(InvalidContent)
            case Merge(target, expected) =>
              if x.confirmed != Some(x.current) then r == Failure(Conflict)
              else if target !in Heads(h) || Heads(h)[target].kind != Character then r == Failure(NotFound)
              else if !TargetReady(h, target, expected) then r == Failure(Conflict)
              else if !e.dependenciesHold || !e.targetDependenciesHold then r == Failure(Unavailable)
              else !e.impactAccepted ==> r == Failure(ImpactConflict)
            case _ => true
  {
    LoadedIff(h, org, project, c.kind, c.entry, t);
    LoadedRow(h, c.kind, c.entry);
    var x, v := Load(h, c.kind, c.entry).value.0, Load(h, c.kind, c.entry).value.1;
    if c.action.Merge? {
      LoadedIff(h, org, project, Character, c.action.target, t);
      if Load(h, Character, c.action.target).Success? {
        LoadedRow(h, Character, c.action.target);
      }
    } else if c.action.Split? && !LabelsOk(c.action.labels) {
      SplitInvalid(h, org, project, actor, Next(x, e), v, c.action.labels, e, t);
    }
    hide Inv, FreshFor, Revised, SplitOff, RedirectAdded, SetHead, Index;
  }

  lemma SplitInvalid(h: History, org: Id, project: Id, actor: Id, y: Head, v: Version, labels: Labels, e: Env, t: Time)
    requires Around(h, org, project, actor, e, t) && !LabelsOk(labels)
    ensures SplitOff(h, org, project, actor, y, v, labels, e) == Failure(InvalidContent)
  {
  }

  /** An edit that cannot be made as asked, one whose dependencies fail, and one whose content is not valid. */
  lemma EditRefused(h: History, org: Id, project: Id, actor: Id, c: Command, e: Env, v: Version, t: Time)
    requires Around(h, org, project, actor, e, t) && ShapeOk(c) && c.action.MakesVersion() && EntryReady(h, c)
    requires EntryAt(h, c, Heads(h)[c.entry], v) && !EditReady(v, c.action, e)
    ensures var r := Change(h, org, project, actor, c, e);
            if exists b :: Edited(v.body, b, c.action, e)
            then r == Failure(if e.dependenciesHold then InvalidContent else Unavailable)
            else r == EditError(v.body, c.action, e)
  {
    LoadedIff(h, org, project, c.kind, c.entry, t);
    LoadedRow(h, c.kind, c.entry);
    LoadFacts(h, org, project, c.kind, c.entry, t);
    var x := Heads(h)[c.entry];
    Branch(h, org, project, actor, c, e, x, v);
    EditsCharacter(c, x, v);
    hide Changed, Load, Around, Inv, FreshFor, Revised, Merged, SplitOff, Index, EditReady, EditError, Edited, Loaded;
    hide EntryReady;
    RevisedRefused(h, org, project, actor, x, v, c.action, e, t);
  }

  lemma EditsCharacter(c: Command, x: Head, v: Version)
    requires ShapeOk(c) && x.kind == c.kind && v.kind == x.kind && v.Valid()
    ensures c.action.CharacterOnly() ==> v.body.CharacterBody?
  {
  }

  /** Why an edit cannot be made: no such look, an impact that was not accepted, or an answer that does not fit. */
  function EditError(b: Body, a: Action, e: Env): Result<(History, Receipt), Error> {
    match a
    case LookDelete(look) => Failure(if HasLook(b, look) then ImpactConflict else NotFound)
    case LookUpdate(_, _) => Failure(NotFound)
    case LookDefault(_) => Failure(NotFound)
    case References(look, rs) =>
      if !HasLook(b, look) then Failure(NotFound)
      else Failure(
        if FirstBad(rs, e.media) < |rs| && BadInput(rs[FirstBad(rs, e.media)]) then InvalidContent else Unavailable)
    case _ => Failure(Unavailable)
  }

  predicate HasLook(b: Body, look: Id) {
    b.CharacterBody? && exists i: nat :: i < |b.character.looks| && b.character.looks[i].id == look
  }

  predicate BadInput(r: ReferenceInput) {
    r.role == OtherRole || r.asset == NIL
  }

  predicate Resolves(r: ReferenceInput, media: map<Id, MediaFact>) {
    !BadInput(r) && r.asset in media && media[r.asset].asset == r.asset && media[r.asset].Valid(Image)
  }

  /** The first reference that does not resolve. */
  function FirstBad(rs: seq<ReferenceInput>, media: map<Id, MediaFact>): (n: nat)
    ensures n <= |rs| && (forall k :: 0 <= k < n ==> Resolves(rs[k], media)) && (n < |rs| ==> !Resolves(rs[n], media))
  {
    if rs == [] then 0
    else
      var n := FirstBad(rs[..|rs| - 1], media);
      if n < |rs| - 1 then n else if Resolves(rs[n], media) then n + 1 else n
  }

  lemma {:induction false} ResolveError(rs: seq<ReferenceInput>, media: map<Id, MediaFact>)
    ensures var n := FirstBad(rs, media);
            if n == |rs| then ResolveReferences(rs, media).Success?
            else ResolveReferences(rs, media) == Failure(if BadInput(rs[n]) then InvalidContent else Unavailable)
  {
    if rs != [] {
      ResolveError(rs[..|rs| - 1], media);
    }
  }

  lemma CharacterRefused(c: CharacterContent, a: Action, e: Env)
    requires a.MakesVersion() && EditedCharacter(c, a, e).Failure?
    ensures Failure(EditedCharacter(c, a, e).error) == EditError(CharacterBody(c), a, e)
  {
    var b := CharacterBody(c);
    match a {
      case LookUpdate(look, _) => FoundLook(c.looks, look);
      case LookDelete(look) => FoundLook(c.looks, look);
      case LookDefault(look) => FoundLook(c.looks, look);
      case References(look, rs) =>
        FoundLook(c.looks, look);
        ResolveError(rs, e.media);
      case _ =>
    }
    hide LookIndex, ResolveReferences, FirstBad;
  }

  lemma RevisedRefused(h: History, org: Id, project: Id, actor: Id, x: Head, v: Version, a: Action, e: Env, t: Time)
    requires Around(h, org, project, actor, e, t) && Loaded(h, org, project, x, v) && a.MakesVersion()
    requires a.CharacterOnly() ==> v.body.CharacterBody?
    requires a.AdoptResult? ==> a.operation != NIL && a.output != NIL
    requires !EditReady(v, a, e)
    ensures var r := Revised(h, actor, Next(x, e), v, a, e);
            if exists b :: Edited(v.body, b, a, e)
            then r == Failure(if e.dependenciesHold then InvalidContent else Unavailable)
            else r == EditError(v.body, a, e)
  {
    if b :| Edited(v.body, b, a, e) {
      MadeButRefused(h, org, project, actor, x, v, b, a, e, t);
    } else {
      NotMade(v.body, a, e);
      hide Inv, FreshFor, EditedBody, Edited, Loaded, EditError;
    }
  }

  lemma MadeButRefused(
    h: History, org: Id, project: Id, actor: Id, x: Head, v: Version, b: Body, a: Action, e: Env, t: Time)
    requires Around(h, org, project, actor, e, t) && Loaded(h, org, project, x, v) && a.MakesVersion()
    requires a.AdoptResult? ==> a.operation != NIL && a.output != NIL
    requires !EditReady(v, a, e) && Edited(v.body, b, a, e)
    ensures Revised(h, actor, Next(x, e), v, a, e) ==
              Failure(if e.dependenciesHold then InvalidContent else Unavailable)
  {
    DistinctLooks(v);
    EditDone(v.body, b, a, e);
    FreshNotNil(h, e.ids);
    FreshVersion(h, e, v);
    NextValidIff(v, b, actor, a, e);
    hide Inv, FreshFor, EditedBody, Edited, NextOf, ContentOk, VersionAdded, SetHead, Loaded, Version.Valid;
  }

  lemma NotMade(b: Body, a: Action, e: Env)
    requires a.MakesVersion() && (a.CharacterOnly() ==> b.CharacterBody?) && !exists d :: Edited(b, d, a, e)
    ensures EditedBody(b, a, e).Failure? && Failure(EditedBody(b, a, e).error) == EditError(b, a, e)
  {
    if EditedBody(b, a, e).Success? {
      EditSays(b, a, e);
    }
    if b.CharacterBody? {
      CharacterRefused(b.character, a, e);
    }
    hide EditedCharacter, Edited;
  }
}
