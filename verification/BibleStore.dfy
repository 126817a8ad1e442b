/** Service.Change inside its owning transaction: the tables are updated step by step, and rolled back on any error. */
module BibleStore {
  import opened Wrappers
  import opened Ids
  import opened Rows
  import opened BibleContent
  import opened BibleHistory
  import opened BibleInvariant
  import opened BibleCommands
  import opened BibleRuns

  // changeVersion's edits of the looks, element by element.

  method ClearDefaults(ls: seq<Look>) returns (r: seq<Look>)
    ensures r == WithoutDefault(ls)
  {
    r := ls;
    for i := 0 to |ls|
      invariant |r| == |ls|
      invariant forall j :: 0 <= j < i ==> r[j] == ls[j].(isDefault := false)
      invariant forall j :: i <= j < |ls| ==> r[j] == ls[j]
    {
      r := r[i := r[i].(isDefault := false)];
    }
  }

  method SetDefault(ls: seq<Look>, index: nat) returns (r: seq<Look>)
    ensures r == WithDefaultAt(ls, index)
  {
    r := ls;
    for i := 0 to |ls|
      invariant |r| == |ls|
      invariant forall j :: 0 <= j < i ==> r[j] == ls[j].(isDefault := j == index)
      invariant forall j :: i <= j < |ls| ==> r[j] == ls[j]
    {
      r := r[i := r[i].(isDefault := i == index)];
    }
  }

  lemma {:induction false} LookIndexIs(ls: seq<Look>, id: Id, i: nat)
    requires i <= |ls| && forall j :: 0 <= j < i ==> ls[j].id != id
    ensures i < |ls| && ls[i].id == id ==> LookIndex(ls, id) == Some(i)
    ensures i == |ls| ==> LookIndex(ls, id) == None
  {
    if i > 0 {
      LookIndexIs(ls[1..], id, i - 1);
    }
  }

  method FindLook(ls: seq<Look>, id: Id) returns (r: Option<nat>)
    ensures r == LookIndex(ls, id)
  {
    for i := 0 to |ls|
      invariant forall j :: 0 <= j < i ==> ls[j].id != id
    {
      LookIndexIs(ls, id, i);
      if ls[i].id == id {
        return Some(i);
      }
    }
    LookIndexIs(ls, id, |ls|);
    return None;
  }

  lemma {:induction false} ResolvePrefix(rs: seq<ReferenceInput>, n: nat, media: map<Id, MediaFact>)
    requires n <= |rs| && ResolveReferences(rs[..n], media).Failure?
    ensures ResolveReferences(rs, media) == ResolveReferences(rs[..n], media)
  {
    if n == |rs| {
      assert rs[..n] == rs;
    } else {
      var front := rs[..|rs| - 1];
      assert front[..n] == rs[..n];
      ResolvePrefix(front, n, media);
    }
  }

  method Resolve(rs: seq<ReferenceInput>, media: map<Id, MediaFact>) returns (r: Result<seq<ImageReference>, Error>)
    ensures r == ResolveReferences(rs, media)
  {
    var refs := [];
    for i := 0 to |rs|
      invariant ResolveReferences(rs[..i], media) == Success(refs)
    {
      var input := rs[i];
      assert rs[..i + 1][..i] == rs[..i];
      if ResolveReferences(rs[..i + 1], media).Failure? {
        ResolvePrefix(rs, i + 1, media);
      }
      if input.role == OtherRole || input.asset == NIL {
        return Failure(InvalidContent);
      }
      if input.asset !in media {
        return Failure(Unavailable);
      }
      var fact := media[input.asset];
      if fact.asset != input.asset || !fact.Valid(Image) {
        return Failure(Unavailable);
      }
      refs := refs + [ImageReference(input.role, fact)];
    }
    assert rs[..|rs|] == rs;
    return Success(refs);
  }

  method EditCharacter(c: CharacterContent, a: Action, e: Env) returns (r: Result<CharacterContent, Error>)
    requires a.MakesVersion()
    ensures r == EditedCharacter(c, a, e)
  {
    var looks := c.looks;
    match a {
      case Update(labels) =>
        return Success(c.(labels := labels));
      case LookCreate(l) =>
        if l.isDefault {
          looks := ClearDefaults(looks);
        }
        looks := looks + [Look(e.ids.look, l.name, l.description, l.isDefault, l.appliesTo, [])];
        return Success(c.(looks := looks));
      case LookUpdate(look, l) =>
        var index := FindLook(looks, look);
        if index.None? {
          return Failure(NotFound);
        }
        if l.isDefault {
          looks := ClearDefaults(looks);
        }
        var was := looks[index.value];
        looks := looks[index.value := Look(was.id, l.name, l.description, l.isDefault, l.appliesTo, was.references)];
        return Success(c.(looks := looks));
      case LookDefault(look) =>
        var index := FindLook(looks, look);
        if index.None? {
          return Failure(NotFound);
        }
        looks := SetDefault(looks, index.value);
        return Success(c.(looks := looks));
      case LookDelete(look) =>
        var index := FindLook(looks, look);
        if index.None? {
          return Failure(NotFound);
        }
        if !e.impactAccepted {
          return Failure(ImpactConflict);
        }
        looks := looks[..index.value] + looks[index.value + 1..];
        return Success(c.(looks := looks));
      case References(look, rs) =>
        var index := FindLook(looks, look);
        if index.None? {
          return Failure(NotFound);
        }
        var refs :- Resolve(rs, e.media);
        looks := looks[index.value := looks[index.value].(references := refs)];
        return Success(c.(looks := looks));
      case VoiceBind(input) =>
        var voice :- BoundVoice(input, e);
        return Success(c.(voice := Some(voice)));
      case VoiceUnbind =>
        return Success(c.(voice := None));
      case AdoptResult(operation, output) =>
        var labels :- GeneratedLabels(operation, output, e);
        return Success(c.(labels := labels));
    }
  }

  method ChangeVersion(v: Version, a: Action, e: Env) returns (r: Result<Version, Error>)
    requires a.MakesVersion()
    ensures EditedBody(v.body, a, e).Failure? ==> r == Failure(EditedBody(v.body, a, e).error)
    ensures EditedBody(v.body, a, e).Success? ==> r == Success(WithBody(v, EditedBody(v.body, a, e).value, a, e))
  {
    var w := v.(origin := Manual, result := None);
    match v.body {
      case CharacterBody(c) =>
        var edited :- EditCharacter(c, a, e);
        w := w.(body := CharacterBody(edited));
      case LocationBody(_) =>
        var labels :- EditedLabels(a, e);
        w := w.(body := LocationBody(labels));
      case PropBody(_) =>
        var labels :- EditedLabels(a, e);
        w := w.(body := PropBody(labels));
    }
    if a.AdoptResult? && e.result.Some? {
      w := w.(origin := AI, result := Some(e.result.value.source));
    }
    return Success(w.(digest := DigestOf(w.body)));
  }

  /** No look of the version belongs to another character. */
  ghost predicate LooksFree(h: History, v: Version) {
    forall l | l in v.Looks() && l.id in LookRows(h) :: LookRows(h)[l.id].character == v.entry
  }

  class Store {
    const org: Id
    const project: Id
    var heads: seq<Head>
    var versions: seq<Version>
    var looks: seq<LookRow>
    var confirmations: seq<Confirmation>
    var redirects: seq<Link>
    var splits: seq<Link>
    /** The permanent receipt of every successful command, by actor and key. */
    var receipts: map<(Id, Id), (Command, Receipt)>

    ghost function Recorded(): History
      reads this
    {
      History(heads, versions, looks, confirmations, redirects, splits)
    }

    constructor (org: Id, project: Id)
      ensures this.org == org && this.project == project
      ensures Recorded() == EMPTY && receipts == map[]
    {
      this.org, this.project := org, project;
      heads, versions, looks, confirmations, redirects, splits := [], [], [], [], [], [];
      receipts := map[];
    }

    method InsertHead(x: Head)
      modifies this`heads
      ensures heads == old(heads) + [x]
    {
      heads := heads + [x];
    }

    /** Inserts the version and a row for each look that has none yet, refusing a look of another character. */
    method InsertVersion(v: Version) returns (r: Result<(), Error>)
      modifies this`versions, this`looks
      ensures !v.Valid() ==> r == Failure(InvalidContent)
      ensures v.Valid() ==> (r.Success? <==> LooksFree(old(Recorded()), v))
      ensures v.Valid() && r.Failure? ==> r.error == Conflict
      ensures r.Success? ==> versions == old(versions) + [v]
      ensures r.Success? ==> looks == InsertLooks(old(looks), v.Looks(), v.entry, v.createdAt)
    {
      if !v.Valid() {
        return Failure(InvalidContent);
      }
      versions := versions + [v];
      var ls := v.Looks();
      for n := 0 to |ls|
        invariant versions == old(versions) + [v]
        invariant looks == InsertLooks(old(looks), ls[..n], v.entry, v.createdAt)
        invariant forall l | l in ls[..n] && l.id in Index(old(looks), LookRowId) ::
          Index(old(looks), LookRowId)[l.id].character == v.entry
      {
        assert ls[..n + 1][..n] == ls[..n];
        assert forall l :: l in ls[..n + 1] <==> l in ls[..n] || l == ls[n];
        InsertLooksIndex(old(looks), ls[..n], v.entry, v.createdAt);
        var rows := Index(looks, LookRowId);
        if ls[n].id !in rows {
          looks := looks + [LookRow(ls[n].id, v.entry, v.createdAt)];
        } else if rows[ls[n].id].character != v.entry {
          assert ls[n] in v.Looks();
          return Failure(Conflict);
        }
      }
      assert ls[..|ls|] == ls;
      return Success(());
    }

    /** Updates the head that still has the expected revision. */
    method UpdateHead(x: Head, expected: int) returns (r: Result<(), Error>)
      modifies this`heads
      ensures r.Success? <==> x.id in old(Heads(Recorded())) && old(Heads(Recorded()))[x.id].revision == expected
      ensures r.Success? ==> heads == Replace(old(heads), HeadId, x)
      ensures r.Failure? ==> heads == old(heads) && r.error == Conflict
    {
      var current := Index(heads, HeadId);
      if x.id !in current || current[x.id].revision != expected {
        return Failure(Conflict);
      }
      heads := Replace(heads, HeadId, x);
      return Success(());
    }

    method LoadEntry(kind: Kind, entry: Id) returns (r: Result<(Head, Version), Error>)
      ensures r == Load(Recorded(), kind, entry)
    {
      var index := Index(heads, HeadId);
      if entry !in index || index[entry].kind != kind {
        return Failure(NotFound);
      }
      var x := index[entry];
      var all := Index(versions, VersionId);
      if x.current !in all {
        return Failure(NotFound);
      }
      if all[x.current].entry != x.id {
        return Failure(CorruptHistory);
      }
      return Success((x, all[x.current]));
    }

    /** The body of the transaction after an action that creates an entry. */
    method Create(actor: Id, c: Command, e: Env) returns (r: Result<Receipt, Error>)
      requires ShapeOk(c) && c.action.Creating()
      modifies this`heads, this`versions, this`looks
      ensures var spec := Created(old(Recorded()), org, project, actor, c, e);
              && (spec.Failure? ==> r == Failure(spec.error))
              && (spec.Success? ==> Recorded() == spec.value.0 && r == Success(spec.value.1))
    {
      var labels;
      match c.action {
        case Create(given) => labels := given;
        case CreateResult(operation, output) => labels :- GeneratedLabels(operation, output, e);
      }
      var b := NewBody(c.kind, labels, e.ids.look);
      var v := FirstVersionOf(org, project, actor, c.kind, e.ids.version, e.ids.head, b, e.now);
      if c.action.CreateResult? && e.result.Some? {
        v := v.(origin := AI, result := Some(e.result.value.source));
      }
      if !e.dependenciesHold {
        return Failure(Unavailable);
      }
      if !v.Valid() {
        return Failure(InvalidContent);
      }
      var x := NewHead(org, project, c.kind, e.ids.head, v.id, e.now);
      InsertHead(x);
      var _ :- InsertVersion(v);
      return Success(ReceiptOf(x, v));
    }

    /** A new version of a loaded entry. */
    method Revise(actor: Id, y: Head, v: Version, c: Command, e: Env) returns (r: Result<Receipt, Error>)
      requires c.action.MakesVersion()
      requires y.id in Heads(Recorded()) && Heads(Recorded())[y.id].revision == c.expected
      modifies this`heads, this`versions, this`looks
      ensures var spec := Revised(old(Recorded()), actor, y, v, c.action, e);
              && (spec.Failure? ==> r == Failure(spec.error))
              && (spec.Success? ==> Recorded() == spec.value.0 && r == Success(spec.value.1))
    {
      hide Publishable, EditedBody, VersionAdded, SetHead, Index, ShapeOk;
      var draft := v.(id := e.ids.version, previous := Some(v.id), number := v.number + 1,
        actor := actor, createdAt := e.now);
      var w :- ChangeVersion(draft, c.action, e);
      r := Publish(y, w, c.expected, e);
    }

    /** Stores a version and makes it the current one of its entry. */
    method Publish(y: Head, w: Version, expected: int, e: Env) returns (r: Result<Receipt, Error>)
      requires y.id in Heads(Recorded()) && Heads(Recorded())[y.id].revision == expected
      modifies this`heads, this`versions, this`looks
      ensures var checked := Publishable(old(Recorded()), w, e);
              && (checked.Failure? ==> r == Failure(checked.error))
              && (checked.Success? ==>
                    && Recorded() == VersionAdded(SetHead(old(Recorded()), y), y, w)
                    && r == Success(ReceiptOf(y.(current := w.id), w)))
    {
      if !e.dependenciesHold {
        return Failure(Unavailable);
      }
      if !w.Valid() {
        return Failure(InvalidContent);
      }
      var x := y.(current := w.id);
      var _ :- InsertVersion(w);
      ReplaceTwice(heads, HeadId, y, x);
      var updated := UpdateHead(x, expected);
      return if updated.Success? then Success(ReceiptOf(x, w)) else Failure(Conflict);
    }

    /** Marks the head as merged into the target and records the redirect. */
    method MergeCharacter(actor: Id, y: Head, v: Version, target: Id, expectedTarget: int, c: Command, e: Env)
      returns (r: Result<Receipt, Error>)
      requires y.id in Heads(Recorded()) && Heads(Recorded())[y.id].revision == c.expected
      modifies this`heads, this`redirects
      ensures var spec := Merged(old(Recorded()), actor, y, v, target, expectedTarget, e);
              && (spec.Failure? ==> r == Failure(spec.error))
              && (spec.Success? ==> Recorded() == spec.value.0 && r == Success(spec.value.1))
    {
      if y.confirmed != Some(v.id) {
        return Failure(Conflict);
      }
      var found :- LoadEntry(Character, target);
      var z, w := found.0, found.1;
      if z.revision != expectedTarget || z.deleted || z.redirect.Some? || z.confirmed != Some(w.id) {
        return Failure(Conflict);
      }
      if !e.dependenciesHold || !e.targetDependenciesHold {
        return Failure(Unavailable);
      }
      if !e.impactAccepted {
        return Failure(ImpactConflict);
      }
      var x := y.(redirect := Some(z.id));
      redirects := redirects + [Link(e.ids.record, x.id, z.id, v.id, w.id, actor, e.now)];
      ReplaceTwice(heads, HeadId, y, x);
      var updated := UpdateHead(x, c.expected);
      return if updated.Success? then Success(ReceiptOf(x, v)) else Failure(Conflict);
    }

    static lemma OneLook(rows: map<Id, LookRow>, v: Version, look: Look)
      requires v.Looks() == [look]
      ensures (forall l | l in v.Looks() && l.id in rows :: rows[l.id].character == v.entry) <==>
              (look.id in rows ==> rows[look.id].character == v.entry)
    {
      assert look in v.Looks();
    }

    /** A split case by case. */
    static lemma SplitSpec(h: History, org: Id, project: Id, actor: Id, y: Head, v: Version, labels: Labels, e: Env)
      ensures var b := NewBody(Character, labels, e.ids.childLook);
              var w := FirstVersionOf(org, project, actor, Character, e.ids.childVersion, e.ids.childHead, b, e.now);
              var child := NewHead(org, project, Character, e.ids.childHead, w.id, e.now);
              var spec := SplitOff(h, org, project, actor, y, v, labels, e);
              var free := LooksFree(h, w);
              && (!w.Valid() ==> spec == Failure(InvalidContent))
              && (w.Valid() && !free ==> spec == Failure(Conflict))
              && (w.Valid() && free ==>
                    && spec.Success?
                    && spec.value.1 == ReceiptOf(y, v).(createdEntry := Some(child.id), createdVersion := Some(w.id))
                    && spec.value.0 == h.(heads := Replace(h.heads, HeadId, y) + [child], versions := h.versions + [w],
                         looks := InsertLooks(h.looks, w.Looks(), w.entry, w.createdAt),
                         splits := h.splits + [Link(e.ids.record, v.entry, child.id, v.id, w.id, actor, e.now)]))
    {
      var b := NewBody(Character, labels, e.ids.childLook);
      var w := FirstVersionOf(org, project, actor, Character, e.ids.childVersion, e.ids.childHead, b, e.now);
      assert w.Looks() == [Look(e.ids.childLook, DEFAULT_LOOK, "", true, [], [])];
      hide InsertLooks, Version.Valid;
      OneLook(LookRows(h), w, w.Looks()[0]);
    }

    /** The child of a split: its head, then its first version. */
    method InsertChild(child: Head, w: Version) returns (r: Result<(), Error>)
      modifies this`heads, this`versions, this`looks
      ensures var h := old(Recorded());
              var free := LooksFree(h, w);
              && (!w.Valid() ==> r == Failure(InvalidContent)) && (w.Valid() && !free ==> r == Failure(Conflict))
              && (w.Valid() && free ==>
                    r.Success?
                    && Recorded() == h.(heads := h.heads + [child], versions := h.versions + [w],
                                        looks := InsertLooks(h.looks, w.Looks(), w.entry, w.createdAt)))
    {
      hide InsertLooks;
      InsertHead(child);
      r := InsertVersion(w);
    }

    /** Creates the child of a split beside the entry that is split. */
    method SplitCharacter(actor: Id, y: Head, v: Version, labels: Labels, c: Command, e: Env)
      returns (r: Result<Receipt, Error>)
      requires y.id in Heads(Recorded()) && Heads(Recorded())[y.id].revision == c.expected && e.ids.childHead != y.id
      modifies this`heads, this`versions, this`looks, this`splits
      ensures var spec := SplitOff(old(Recorded()), org, project, actor, y, v, labels, e);
              && (spec.Failure? ==> r == Failure(spec.error))
              && (spec.Success? ==> Recorded() == spec.value.0 && r == Success(spec.value.1))
    {
      var b := NewBody(Character, labels, e.ids.childLook);
      var w := FirstVersionOf(org, project, actor, Character, e.ids.childVersion, e.ids.childHead, b, e.now);
      var child := NewHead(org, project, Character, e.ids.childHead, w.id, e.now);
      SplitSpec(Recorded(), org, project, actor, y, v, labels, e);
      IndexAppend(heads, child, HeadId);
      hide InsertLooks, SplitOff, NewBody, FirstVersionOf, Version.Valid, Version.Looks, LooksFree;
      var _ :- InsertChild(child, w);
      splits := splits + [Link(e.ids.record, v.entry, child.id, v.id, w.id, actor, e.now)];
      var updated := UpdateHead(y, c.expected);
      assert heads == Replace(old(heads), HeadId, y) + [child];
      var receipt := ReceiptOf(y, v).(createdEntry := Some(child.id), createdVersion := Some(w.id));
      return if updated.Success? then Success(receipt) else Failure(Conflict);
    }

    /** Confirmation, deletion and restoration of a loaded entry. */
    method ChangeStatus(actor: Id, x: Head, y: Head, v: Version, c: Command, e: Env) returns (r: Result<Receipt, Error>)
      requires c.action.Confirm? || c.action.Delete? || c.action.Restore?
      requires y.id in Heads(Recorded()) && Heads(Recorded())[y.id].revision == c.expected
      requires x.id == c.entry && x.revision == c.expected && y == Next(x, e)
      requires Load(Recorded(), c.kind, c.entry) == Success((x, v)) && ShapeOk(c)
      requires x.revision < MAX_INT32 && x.redirect == None && (x.deleted ==> c.action.Restore?)
      modifies this`heads, this`confirmations
      ensures var spec := Changed(old(Recorded()), org, project, actor, c, e);
              && (spec.Failure? ==> r == Failure(spec.error))
              && (spec.Success? ==> Recorded() == spec.value.0 && r == Success(spec.value.1))
    {
      hide Revised, Merged, SplitOff, Load;
      var z, receipt := y, ReceiptOf(y, v);
      match c.action {
        case Confirm =>
          if !e.dependenciesHold {
            return Failure(Unavailable);
          }
          z := z.(confirmed := Some(v.id));
          receipt := ReceiptOf(z, v);
          confirmations := confirmations + [Confirmation(e.ids.record, z.kind, z.id, v.id, z.revision, actor, e.now)];
        case Delete =>
          if !e.impactAccepted {
            return Failure(ImpactConflict);
          }
          z := z.(deleted := true);
        case Restore =>
          if !z.deleted {
            return Failure(Conflict);
          }
          z := z.(deleted := false);
      }
      ReplaceTwice(heads, HeadId, y, z);
      var updated := UpdateHead(z, c.expected);
      return if updated.Success? then Success(receipt) else Failure(Conflict);
    }

    /** The body of the transaction after an action on an existing entry. */
    method ChangeEntry(actor: Id, c: Command, e: Env) returns (r: Result<Receipt, Error>)
      requires ShapeOk(c) && !c.action.Creating() && e.ids.childHead !in Heads(Recorded())
      requires forall k :: k in Heads(Recorded()) ==> Heads(Recorded())[k].id == k
      modifies this`heads, this`versions, this`looks, this`confirmations, this`redirects, this`splits
      ensures var spec := Changed(old(Recorded()), org, project, actor, c, e);
              && (spec.Failure? ==> r == Failure(spec.error))
              && (spec.Success? ==> Recorded() == spec.value.0 && r == Success(spec.value.1))
    {
      hide Revised, Merged, SplitOff;
      var found :- LoadEntry(c.kind, c.entry);
      var x, v := found.0, found.1;
      if x.revision != c.expected || x.revision >= MAX_INT32 || x.redirect.Some? || (x.deleted && !c.action.Restore?) {
        return Failure(Conflict);
      }
      var y := x.(revision := x.revision + 1, updatedAt := e.now);
      if c.action.MakesVersion() {
        r := Revise(actor, y, v, c, e);
      } else if c.action.Merge? {
        r := MergeCharacter(actor, y, v, c.action.target, c.action.expectedTarget, c, e);
      } else if c.action.Split? {
        r := SplitCharacter(actor, y, v, c.action.labels, c, e);
      } else {
        r := ChangeStatus(actor, x, y, v, c, e);
      }
    }

    /**
      Publishes a change once. A key seen before gives its first receipt again, or a conflict when it names
      another command; any error leaves every table as it was.
     */
    method Change(actor: Id, c: Command, e: Env) returns (r: Result<Receipt, Error>)
      requires IdsOk(Recorded()) && FreshFor(Recorded(), e.ids)
      modifies this
      ensures old((actor, c.key) in receipts) && ShapeOk(c) ==>
        && Recorded() == old(Recorded()) && receipts == old(receipts)
        && r == if old(receipts[(actor, c.key)].0) == c then Success(old(receipts[(actor, c.key)].1))
              else Failure(IdempotencyConflict)
      ensures old((actor, c.key) !in receipts) || !ShapeOk(c) ==>
        var spec := BibleCommands.Change(old(Recorded()), org, project, actor, c, e);
        if spec.Failure? then r == Failure(spec.error) && Recorded() == old(Recorded()) && receipts == old(receipts)
        else
          && r == Success(spec.value.1) && Recorded() == spec.value.0
          && receipts == old(receipts)[(actor, c.key) := (c, spec.value.1)]
    {
      if !ShapeOk(c) {
        return Failure(InvalidContent);
      }
      if (actor, c.key) in receipts {
        var prior := receipts[(actor, c.key)];
        return if prior.0 == c then Success(prior.1) else Failure(IdempotencyConflict);
      }
      var oldHeads, oldVersions, oldLooks := heads, versions, looks;
      var oldConfirmations, oldRedirects, oldSplits := confirmations, redirects, splits;
      if c.action.Creating() {
        r := Create(actor, c, e);
      } else {
        ChildIsNotLoaded(Recorded(), e);
        r := ChangeEntry(actor, c, e);
      }
      if r.Failure? {
        heads, versions, looks := oldHeads, oldVersions, oldLooks;
        confirmations, redirects, splits := oldConfirmations, oldRedirects, oldSplits;
      } else {
        receipts := receipts[(actor, c.key) := (c, r.value)];
      }
    }
  }

  lemma ChildIsNotLoaded(h: History, e: Env)
    requires IdsOk(h) && FreshFor(h, e.ids)
    ensures e.ids.childHead !in Heads(h)
    ensures forall k :: k in Heads(h) ==> Heads(h)[k].id == k
  {
    assert e.ids.All()[4] == e.ids.childHead;
    NotInTables(h, e.ids.childHead);
    IndexHolds(h.heads, HeadId);
  }
}
