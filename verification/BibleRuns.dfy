/** Every run of commands records a history the copy validator accepts, as long as no redirect chain is too long. */
module BibleRuns {
  import opened Wrappers
  import opened Ids
  import opened Rows
  import opened BibleContent
  import opened BibleHistory
  import opened BibleInvariant
  import opened BibleCommands

  // Which looks a new version holds.

  /** Every look of the new content has an old identity, or the given one. */
  ghost predicate LooksFrom(prior: seq<Look>, given: Id, next: seq<Look>) {
    forall l | l in next :: l.id == given || exists k | k in prior :: k.id == l.id
  }

  lemma EditedLooksFrom(c: CharacterContent, a: Action, e: Env)
    requires a.MakesVersion() && EditedCharacter(c, a, e).Success?
    ensures LooksFrom(c.looks, e.ids.look, EditedCharacter(c, a, e).value.looks)
  {
    var ls, next := c.looks, EditedCharacter(c, a, e).value.looks;
    assert SameIds(ls, WithoutDefault(ls)) && SameIds(ls, ls);
    match a {
      case LookCreate(l) =>
        var before := if l.isDefault then WithoutDefault(ls) else ls;
        SameIdsFrom(ls, before, e.ids.look);
      case LookUpdate(look, l) =>
        assert SameIds(ls, next);
        SameIdsFrom(ls, next, e.ids.look);
      case LookDefault(look) =>
        assert SameIds(ls, next);
        SameIdsFrom(ls, next, e.ids.look);
      case LookDelete(look) =>
        var i := AtLook(c, look).value;
        assert forall l :: l in ls[..i] + ls[i + 1..] ==> l in ls;
      case References(look, rs) =>
        assert SameIds(ls, next);
        SameIdsFrom(ls, next, e.ids.look);
      case _ =>
    }
  }

  ghost predicate SameIds(a: seq<Look>, b: seq<Look>) {
    |a| == |b| && forall i :: 0 <= i < |a| ==> b[i].id == a[i].id
  }

  lemma SameIdsFrom(a: seq<Look>, b: seq<Look>, given: Id)
    requires SameIds(a, b)
    ensures LooksFrom(a, given, b)
  {
    forall l | l in b ensures exists k | k in a :: k.id == l.id {
      var i :| 0 <= i < |b| && b[i] == l;
      assert a[i] in a;
    }
  }

  lemma NextLooksFrom(v: Version, a: Action, actor: Id, e: Env)
    requires a.MakesVersion() && EditedBody(v.body, a, e).Success?
    ensures LooksFrom(v.Looks(), e.ids.look, NextOf(v, EditedBody(v.body, a, e).value, actor, a, e).Looks())
  {
    var b := EditedBody(v.body, a, e).value;
    if v.body.CharacterBody? {
      EditedLooksFrom(v.body.character, a, e);
    } else {
      assert !b.CharacterBody?;
    }
    assert NextOf(v, b, actor, a, e).body == b;
  }

  // New identities.

  lemma {:induction false} NewLooksAre(rows: seq<LookRow>, ls: seq<Look>, given: Id)
    requires forall l | l in ls :: l.id == given || l.id in Keys(rows, LookRowId)
    ensures NewLooks(rows, ls) == [] || NewLooks(rows, ls) == [given]
  {
    if ls != [] {
      NewLooksAre(rows, ls[..|ls| - 1], given);
      assert ls[|ls| - 1] in ls;
    }
  }

  ghost predicate FreshFor(h: History, ids: NewIdentities) {
    NewIds(h, ids.All())
  }

  lemma FreshParts(h: History, ids: NewIdentities)
    requires FreshFor(h, ids)
    ensures NewIds(h, [ids.version]) && NewIds(h, [ids.version, ids.look]) && NewIds(h, [ids.record])
    ensures NewIds(h, [ids.head, ids.version]) && NewIds(h, [ids.head, ids.version, ids.look])
    ensures NewIds(h, [ids.childHead, ids.childVersion, ids.childLook])
    ensures forall k | k in ids.All() :: k !in LookRows(h)
    ensures ids.record !in [ids.childHead, ids.childVersion, ids.childLook]
  {
    var all := ids.All();
    assert forall i :: 0 <= i < 7 ==> all[i] in all;
    assert ids.head == all[0] && ids.version == all[1] && ids.look == all[2] && ids.record == all[3];
    assert ids.childHead == all[4] && ids.childVersion == all[5] && ids.childLook == all[6];
    forall k | k in all ensures k !in LookRows(h) {
      NotInTables(h, k);
    }
  }

  // One lemma for each way a command ends.

  lemma CreatedKeeps(h: History, org: Id, project: Id, actor: Id, c: Command, e: Env, t: Time)
    requires Inv(h, org, project, t) && t <= e.now && e.now != 0 && FreshFor(h, e.ids)
    requires ShapeOk(c) && c.action.Creating() && Created(h, org, project, actor, c, e).Success?
    ensures Inv(Created(h, org, project, actor, c, e).value.0, org, project, e.now)
  {
    hide Inv, EntryAdded, EditedBody;
    FreshParts(h, e.ids);
    var v := Publishable(h, CreatedVersion(org, project, actor, c, e).value, e).value;
    var x := NewHead(org, project, c.kind, e.ids.head, v.id, e.now);
    assert forall l | l in v.Looks() :: l.id == e.ids.look;
    assert e.ids.look in e.ids.All();
    NewLooksAre(h.looks, v.Looks(), e.ids.look);
    assert [x.id, v.id] + [e.ids.look] == [x.id, v.id, e.ids.look] && [x.id, v.id] + [] == [x.id, v.id];
    EntryAddedInv(h, org, project, x, v, t, e.now);
  }

  /** What loading an entry of a closed history gives. */
  ghost predicate Loaded(h: History, org: Id, project: Id, x: Head, v: Version) {
    && x in h.heads && x.id in Heads(h) && Heads(h)[x.id] == x && HeadOk(x, org, project)
    && v in h.versions && x.current in Versions(h) && Versions(h)[x.current] == v && v.id == x.current
    && v.entry == x.id && v.Valid() && v.kind == x.kind && v.org == org && v.project == project
    && v.number <= x.revision
    && (forall l | l in v.Looks() :: LookOwned(LookRows(h), v, l))
  }

  lemma LoadFacts(h: History, org: Id, project: Id, kind: Kind, entry: Id, t: Time)
    requires Inv(h, org, project, t) && Load(h, kind, entry).Success?
    ensures Loaded(h, org, project, Load(h, kind, entry).value.0, Load(h, kind, entry).value.1)
    ensures var x, v := Load(h, kind, entry).value.0, Load(h, kind, entry).value.1;
            && x.id == entry && x.kind == kind && v.createdAt <= t
            && (x.confirmed == Some(v.id) ==> v.id in Confirmed(h.confirmations))
  {
    TableIds(h);
    IndexHolds(h.heads, HeadId);
    IndexHolds(h.versions, VersionId);
    var x, v := Load(h, kind, entry).value.0, Load(h, kind, entry).value.1;
    assert VersionRowOk(Heads(h), LookRows(h), v, org, project);
    assert ChainOk(Versions(h), x);
    assert ConfirmedOk(Versions(h), Confirmed(h.confirmations), x);
  }

  function Next(x: Head, e: Env): Head {
    x.(revision := x.revision + 1, updatedAt := e.now)
  }

  /** `g` is the history after the head's revision went up. */
  ghost predicate Bumped(h: History, g: History, x: Head, e: Env) {
    && g == SetHead(h, Next(x, e)) && Next(x, e) in g.heads && AllIds(g) == AllIds(h)
    && Heads(g) == Heads(h)[x.id := Next(x, e)] && Versions(g) == Versions(h) && LookRows(g) == LookRows(h)
  }

  lemma BumpedInv(h: History, org: Id, project: Id, x: Head, e: Env, t: Time)
    requires Inv(h, org, project, t) && t <= e.now && x in h.heads
    ensures Inv(SetHead(h, Next(x, e)), org, project, e.now) && Bumped(h, SetHead(h, Next(x, e)), x, e)
  {
    MovedOnInv(h, org, project, x, Next(x, e), t, e.now);
    assert NoDup(Keys(h.heads, HeadId)) by {
      TableIds(h);
    }
    LaterTables(h, x, Next(x, e));
    HeadSetTables(h, Next(x, e));
  }

  lemma NextLooksFit(h: History, org: Id, project: Id, x: Head, v: Version, w: Version, e: Env)
    requires FreshFor(h, e.ids) && Loaded(h, org, project, x, v) && v.createdAt <= w.createdAt
    requires LooksFrom(v.Looks(), e.ids.look, w.Looks()) && w.entry == v.entry && w.id == e.ids.version
    ensures LooksInsertable(h, w) && NewIds(h, [w.id] + NewLooks(h.looks, w.Looks()))
  {
    FreshParts(h, e.ids);
    IndexKeys(h.looks, LookRowId);
    assert e.ids.look in e.ids.All();
    forall l | l in w.Looks() && l.id != e.ids.look
      ensures l.id in LookRows(h) && LookRows(h)[l.id].character == v.entry
      ensures LookRows(h)[l.id].createdAt <= v.createdAt
    {
      var k :| k in v.Looks() && k.id == l.id;
      assert LookOwned(LookRows(h), v, k);
    }
    NewLooksAre(h.looks, w.Looks(), e.ids.look);
    assert [w.id] + [e.ids.look] == [w.id, e.ids.look] && [w.id] + [] == [w.id];
  }

  lemma RevisedKeeps(h: History, g: History, org: Id, project: Id, actor: Id, x: Head, v: Version, a: Action, e: Env)
    requires Inv(g, org, project, e.now) && e.now != 0 && FreshFor(h, e.ids)
    requires Loaded(h, org, project, x, v) && Bumped(h, g, x, e) && v.createdAt <= e.now
    requires a.MakesVersion() && Revised(h, actor, Next(x, e), v, a, e).Success?
    ensures Inv(Revised(h, actor, Next(x, e), v, a, e).value.0, org, project, e.now)
  {
    var w := NextOf(v, EditedBody(v.body, a, e).value, actor, a, e);
    NextLooksFrom(v, a, actor, e);
    NextLooksFit(h, org, project, x, v, w, e);
    VersionAddedInv(g, org, project, Next(x, e), w, e.now, e.now);
  }

  lemma ConfirmedKeeps(
    h: History, g: History, org: Id, project: Id, actor: Id, x: Head, v: Version, e: Env, t: Time)
    requires Inv(h, org, project, t)
    requires Inv(g, org, project, e.now) && e.now != 0 && FreshFor(h, e.ids) && actor != NIL
    requires Loaded(h, org, project, x, v) && Bumped(h, g, x, e)
    ensures var y := Next(x, e);
            var k := Confirmation(e.ids.record, y.kind, y.id, v.id, y.revision, actor, e.now);
            Inv(ConfirmationAdded(g, y, k), org, project, e.now)
  {
    FreshParts(h, e.ids);
    var y := Next(x, e);
    var k := Confirmation(e.ids.record, y.kind, y.id, v.id, y.revision, actor, e.now);
    forall a | a in g.confirmations && a.entry == y.id ensures a.revision < y.revision {
      assert ConfirmationRowOk(Heads(h), Versions(h), a);
    }
    ConfirmationAddedInv(g, org, project, y, k, e.now, e.now);
  }

  lemma MergedKeeps(
    h: History, g: History, org: Id, project: Id, actor: Id, x: Head, v: Version, z: Head, w: Version, e: Env)
    requires Inv(g, org, project, e.now) && e.now != 0 && FreshFor(h, e.ids) && actor != NIL
    requires Loaded(h, org, project, x, v) && Bumped(h, g, x, e) && Loaded(h, org, project, z, w)
    requires x.kind == z.kind == Character && x.id != z.id && x.redirect == z.redirect == None
    requires v.id in Confirmed(h.confirmations) && w.id in Confirmed(h.confirmations)
    ensures var r := Link(e.ids.record, x.id, z.id, v.id, w.id, actor, e.now);
            Inv(RedirectAdded(g, Next(x, e), r), org, project, e.now)
  {
    FreshParts(h, e.ids);
    RedirectAddedInv(g, org, project, Next(x, e), Link(e.ids.record, x.id, z.id, v.id, w.id, actor, e.now), e.now);
  }

  lemma SplitKeeps(h: History, g: History, org: Id, project: Id, actor: Id, x: Head, v: Version, labels: Labels, e: Env)
    requires Inv(g, org, project, e.now) && e.now != 0 && FreshFor(h, e.ids) && actor != NIL
    requires Loaded(h, org, project, x, v) && Bumped(h, g, x, e) && x.kind == Character
    requires SplitOff(h, org, project, actor, Next(x, e), v, labels, e).Success?
    ensures Inv(SplitOff(h, org, project, actor, Next(x, e), v, labels, e).value.0, org, project, e.now)
  {
    var b := NewBody(Character, labels, e.ids.childLook);
    var w := FirstVersionOf(org, project, actor, Character, e.ids.childVersion, e.ids.childHead, b, e.now);
    var child := NewHead(org, project, Character, e.ids.childHead, w.id, e.now);
    ChildAdded(h, g, org, project, child, w, e);
    ChildIsNew(h, e, x, v);
    var r := Link(e.ids.record, v.entry, child.id, v.id, w.id, actor, e.now);
    SplitRow(g, x, v, child, w, r);
    hide Inv, FreshFor, NewIds, Index, Version.Valid, EntryAdded, SplitRowOk, Loaded, Bumped;
    SplitAddedInv(EntryAdded(g, child, w), org, project, r, e.now);
  }

  lemma SplitRow(g: History, x: Head, v: Version, child: Head, w: Version, r: Link)
    requires x.id in Heads(g) && Heads(g)[x.id].kind == Character
    requires v.id in Versions(g) && Versions(g)[v.id] == v && v.entry == x.id
    requires child.kind == Character && w.entry == child.id && w.number == 1 && child.id != x.id && w.id != v.id
    requires r == Link(r.id, x.id, child.id, v.id, w.id, r.actor, r.createdAt) && r.actor != NIL && r.createdAt != 0
    ensures SplitRowOk(Heads(EntryAdded(g, child, w)), Versions(EntryAdded(g, child, w)), r)
  {
    EntryTables(g, child, w);
    hide Index, EntryAdded;
  }

  lemma ChildIsNew(h: History, e: Env, x: Head, v: Version)
    requires FreshFor(h, e.ids) && x.id in Heads(h) && v.id in Versions(h)
    ensures e.ids.childHead != x.id && e.ids.childVersion != v.id
  {
    assert e.ids.All()[4] == e.ids.childHead && e.ids.All()[5] == e.ids.childVersion;
    NotInTables(h, e.ids.childHead);
    NotInTables(h, e.ids.childVersion);
  }

  lemma ChildAdded(h: History, g: History, org: Id, project: Id, child: Head, w: Version, e: Env)
    requires Inv(g, org, project, e.now) && e.now != 0
    requires FreshFor(h, e.ids) && AllIds(g) == AllIds(h) && LookRows(g) == LookRows(h)
    requires child == NewHead(org, project, Character, e.ids.childHead, w.id, e.now)
    requires FirstVersion(child, w, e.now) && w.id == e.ids.childVersion
    requires forall l | l in w.Looks() :: l.id == e.ids.childLook
    ensures Inv(EntryAdded(g, child, w), org, project, e.now)
    ensures NewIds(EntryAdded(g, child, w), [e.ids.record])
  {
    FreshParts(h, e.ids);
    assert e.ids.childLook in e.ids.All();
    NewLooksAre(g.looks, w.Looks(), e.ids.childLook);
    assert [child.id, w.id] + [e.ids.childLook] == [child.id, w.id, e.ids.childLook];
    assert [child.id, w.id] + [] == [child.id, w.id];
    RecordStaysNew(h, g, child, w, e);
    hide FreshFor, EntryAdded, Version.Valid, Index;
    EntryAddedInv(g, org, project, child, w, e.now, e.now);
  }

  lemma RecordStaysNew(h: History, g: History, child: Head, w: Version, e: Env)
    requires FreshFor(h, e.ids) && AllIds(g) == AllIds(h)
    requires child.id == e.ids.childHead && w.id == e.ids.childVersion
    requires NewLooks(g.looks, w.Looks()) == [] || NewLooks(g.looks, w.Looks()) == [e.ids.childLook]
    ensures NewIds(EntryAdded(g, child, w), [e.ids.record])
  {
    FreshParts(h, e.ids);
    EntryAddedMembers(g, child, w);
    hide FreshFor, EntryAdded, AllIds, NewLooks;
  }

  lemma EntryAddedMembers(h: History, x: Head, v: Version)
    ensures forall k :: k in AllIds(EntryAdded(h, x, v)) <==>
              k in AllIds(h) || k in [x.id, v.id] + NewLooks(h.looks, v.Looks())
  {
    InsertLooksKeys(h.looks, v.Looks(), v.entry, v.createdAt);
    KeysAppend(h.heads, x, HeadId);
    KeysAppend(h.versions, v, VersionId);
  }

  lemma ChangedVersionKeeps(h: History, org: Id, project: Id, actor: Id, c: Command, e: Env, t: Time)
    requires Inv(h, org, project, t) && t <= e.now && e.now != 0 && FreshFor(h, e.ids)
    requires ShapeOk(c) && c.action.MakesVersion() && Changed(h, org, project, actor, c, e).Success?
    ensures Inv(Changed(h, org, project, actor, c, e).value.0, org, project, e.now)
  {
    hide Revised, Merged, SplitOff, Inv, FreshFor, Load, Bumped;
    var x, v := Load(h, c.kind, c.entry).value.0, Load(h, c.kind, c.entry).value.1;
    LoadFacts(h, org, project, c.kind, c.entry, t);
    BumpedInv(h, org, project, x, e, t);
    RevisedKeeps(h, SetHead(h, Next(x, e)), org, project, actor, x, v, c.action, e);
  }

  lemma ChangedStatusKeeps(h: History, org: Id, project: Id, actor: Id, c: Command, e: Env, t: Time)
    requires Inv(h, org, project, t) && t <= e.now && e.now != 0 && FreshFor(h, e.ids) && actor != NIL
    requires ShapeOk(c) && (c.action.Confirm? || c.action.Delete? || c.action.Restore?)
    requires Changed(h, org, project, actor, c, e).Success?
    ensures Inv(Changed(h, org, project, actor, c, e).value.0, org, project, e.now)
  {
    hide Revised, Merged, SplitOff, Inv, FreshFor, Load, Bumped;
    var x, v := Load(h, c.kind, c.entry).value.0, Load(h, c.kind, c.entry).value.1;
    LoadFacts(h, org, project, c.kind, c.entry, t);
    if c.action.Confirm? {
      BumpedInv(h, org, project, x, e, t);
      ConfirmedKeeps(h, SetHead(h, Next(x, e)), org, project, actor, x, v, e, t);
    } else {
      MovedOnInv(h, org, project, x, Next(x, e).(deleted := c.action.Delete?), t, e.now);
    }
  }

  lemma ChangedMergeKeeps(h: History, org: Id, project: Id, actor: Id, c: Command, e: Env, t: Time)
    requires Inv(h, org, project, t) && t <= e.now && e.now != 0 && FreshFor(h, e.ids) && actor != NIL
    requires ShapeOk(c) && c.action.Merge? && Changed(h, org, project, actor, c, e).Success?
    ensures Inv(Changed(h, org, project, actor, c, e).value.0, org, project, e.now)
  {
    hide Revised, SplitOff, Inv, FreshFor, Load, Bumped, Loaded, Heads, Versions, RedirectAdded;
    var x, v := Load(h, c.kind, c.entry).value.0, Load(h, c.kind, c.entry).value.1;
    var z, w := Load(h, Character, c.action.target).value.0, Load(h, Character, c.action.target).value.1;
    LoadFacts(h, org, project, c.kind, c.entry, t);
    LoadFacts(h, org, project, Character, c.action.target, t);
    BumpedInv(h, org, project, x, e, t);
    MergedKeeps(h, SetHead(h, Next(x, e)), org, project, actor, x, v, z, w, e);
  }

  lemma ChangedSplitKeeps(h: History, org: Id, project: Id, actor: Id, c: Command, e: Env, t: Time)
    requires Inv(h, org, project, t) && t <= e.now && e.now != 0 && FreshFor(h, e.ids) && actor != NIL
    requires ShapeOk(c) && c.action.Split? && Changed(h, org, project, actor, c, e).Success?
    ensures Inv(Changed(h, org, project, actor, c, e).value.0, org, project, e.now)
  {
    hide Revised, Merged, SplitOff, Inv, FreshFor, Load, Bumped;
    var x, v := Load(h, c.kind, c.entry).value.0, Load(h, c.kind, c.entry).value.1;
    LoadFacts(h, org, project, c.kind, c.entry, t);
    BumpedInv(h, org, project, x, e, t);
    SplitKeeps(h, SetHead(h, Next(x, e)), org, project, actor, x, v, c.action.labels, e);
  }

  /** Every successful command keeps the invariant. */
  lemma ChangeKeepsInv(h: History, org: Id, project: Id, actor: Id, c: Command, e: Env, t: Time)
    requires Inv(h, org, project, t) && t <= e.now && e.now != 0 && FreshFor(h, e.ids) && actor != NIL
    requires Change(h, org, project, actor, c, e).Success?
    ensures Inv(Change(h, org, project, actor, c, e).value.0, org, project, e.now)
  {
    match c.action {
      case Create(_) => CreatedKeeps(h, org, project, actor, c, e, t);
      case CreateResult(_, _) => CreatedKeeps(h, org, project, actor, c, e, t);
      case Confirm => ChangedStatusKeeps(h, org, project, actor, c, e, t);
      case Delete => ChangedStatusKeeps(h, org, project, actor, c, e, t);
      case Restore => ChangedStatusKeeps(h, org, project, actor, c, e, t);
      case Merge(_, _) => ChangedMergeKeeps(h, org, project, actor, c, e, t);
      case Split(_) => ChangedSplitKeeps(h, org, project, actor, c, e, t);
      case _ => ChangedVersionKeeps(h, org, project, actor, c, e, t);
    }
  }

  // Runs.

  datatype Step = Step(actor: Id, command: Command, env: Env)

  /** The command succeeds, and its key has no receipt of this actor yet. */
  predicate Takes(h: History, answered: set<(Id, Id)>, org: Id, project: Id, s: Step) {
    (s.actor, s.command.key) !in answered && Change(h, org, project, s.actor, s.command, s.env).Success?
  }

  /** A successful command is recorded; a failed one is rolled back, and under an answered key nothing changes. */
  function After(h: History, answered: set<(Id, Id)>, org: Id, project: Id, s: Step): History {
    if Takes(h, answered, org, project, s) then Change(h, org, project, s.actor, s.command, s.env).value.0 else h
  }

  function RunAll(org: Id, project: Id, steps: seq<Step>): History {
    if steps == [] then EMPTY else
      var front, s := steps[..|steps| - 1], steps[|steps| - 1];
      After(RunAll(org, project, front), Answered(org, project, front), org, project, s)
  }

  function LastTime(steps: seq<Step>): Time {
    if steps == [] then 0 else steps[|steps| - 1].env.now
  }

  /** The actors and keys of the commands that took effect, each of which has a receipt. */
  function Answered(org: Id, project: Id, steps: seq<Step>): set<(Id, Id)> {
    if steps == [] then {} else
      var front, s := steps[..|steps| - 1], steps[|steps| - 1];
      var answered := Answered(org, project, front);
      answered
      + if Takes(RunAll(org, project, front), answered, org, project, s) then {(s.actor, s.command.key)} else {}
  }

  /** The step after these takes effect. */
  predicate TakesNext(org: Id, project: Id, steps: seq<Step>, s: Step) {
    Takes(RunAll(org, project, steps), Answered(org, project, steps), org, project, s)
  }

  /** What surrounds the commands: named actors, a clock that never goes back, and identities not used before. */
  ghost predicate Proper(org: Id, project: Id, steps: seq<Step>) {
    && org != NIL && project != NIL
    && (steps != [] ==>
          var front, s := steps[..|steps| - 1], steps[|steps| - 1];
          && Proper(org, project, front)
          && s.actor != NIL && s.env.now != 0 && LastTime(front) <= s.env.now
          && FreshFor(RunAll(org, project, front), s.env.ids))
  }

  lemma ProperNext(org: Id, project: Id, front: seq<Step>, s: Step)
    requires Proper(org, project, front) && s.actor != NIL && s.env.now != 0 && LastTime(front) <= s.env.now
    requires FreshFor(RunAll(org, project, front), s.env.ids)
    ensures Proper(org, project, front + [s]) && LastTime(front + [s]) == s.env.now
    ensures RunAll(org, project, front + [s]) ==
              After(RunAll(org, project, front), Answered(org, project, front), org, project, s)
    ensures Answered(org, project, front + [s]) <= Answered(org, project, front) + {(s.actor, s.command.key)}
  {
    assert (front + [s])[..|front|] == front;
    hide Change, FreshFor;
  }

  lemma EmptyInv(org: Id, project: Id)
    requires org != NIL && project != NIL
    ensures Inv(EMPTY, org, project, 0)
  {
    assert Keys(EMPTY.redirects, LinkSource) == [];
    assert AllIds(EMPTY) == [];
  }

  lemma InvLater(h: History, org: Id, project: Id, t: Time, now: Time)
    requires Inv(h, org, project, t) && t <= now
    ensures Inv(h, org, project, now)
  {
  }

  lemma {:induction false} RunKeepsInv(org: Id, project: Id, steps: seq<Step>)
    requires Proper(org, project, steps)
    ensures Inv(RunAll(org, project, steps), org, project, LastTime(steps))
  {
    hide Inv, Change, FreshFor;
    if steps == [] {
      EmptyInv(org, project);
    } else {
      var front, s := steps[..|steps| - 1], steps[|steps| - 1];
      RunKeepsInv(org, project, front);
      var h := RunAll(org, project, front);
      if TakesNext(org, project, front, s) {
        ChangeKeepsInv(h, org, project, s.actor, s.command, s.env, LastTime(front));
      } else {
        InvLater(h, org, project, LastTime(front), s.env.now);
      }
    }
  }

  /**
    Whatever commands ran, the recorded history is accepted for copying
    exactly when none of its redirect chains takes more than 32 steps.
   */
  lemma RunAccepted(org: Id, project: Id, steps: seq<Step>)
    requires Proper(org, project, steps)
    ensures ValidHistory(RunAll(org, project, steps), org, project) <==> ShortChains(RunAll(org, project, steps))
  {
    RunKeepsInv(org, project, steps);
  }

  // Redirect chains.

  lemma {:induction false} OrderedStops(rs: seq<Link>, i: nat, n: nat)
    requires NoDup(Keys(rs, LinkSource)) && RedirectsOrdered(rs) && i < |rs| && n == |rs| - i
    ensures Stops(Index(rs, LinkSource), rs[i].source, n)
    decreases n
  {
    IndexHolds(rs, LinkSource);
    var index := Index(rs, LinkSource);
    assert index[rs[i].source] == rs[i];
    var next := rs[i].target;
    if next in index {
      var r := index[next];
      var j :| 0 <= j < |rs| && rs[j] == r;
      OrderedStops(rs, j, |rs| - j);
      StopsSooner(index, next, |rs| - j, n - 1);
    }
  }

  lemma {:induction false} StopsSooner(redirects: map<Id, Link>, id: Id, m: nat, n: nat)
    requires Stops(redirects, id, m) && m <= n
    ensures Stops(redirects, id, n)
    decreases m
  {
    if id in redirects {
      StopsSooner(redirects, redirects[id].target, m - 1, n - 1);
    }
  }

  /** Redirects never form a cycle: a chain has at most as many steps as there were merges. */
  lemma AnyChainStops(h: History, id: Id)
    requires LinksOk(h) && RedirectsOrdered(h.redirects)
    ensures Stops(Redirects(h), id, |h.redirects|)
  {
    IndexHolds(h.redirects, LinkSource);
    if id in Redirects(h) {
      var r := Redirects(h)[id];
      var i :| 0 <= i < |h.redirects| && h.redirects[i] == r;
      OrderedStops(h.redirects, i, |h.redirects| - i);
      StopsSooner(Redirects(h), id, |h.redirects| - i, |h.redirects|);
    }
  }

  lemma RunChainsStop(org: Id, project: Id, steps: seq<Step>, id: Id)
    requires Proper(org, project, steps)
    ensures var h := RunAll(org, project, steps); Stops(Redirects(h), id, |h.redirects|)
    ensures var h := RunAll(org, project, steps); |h.redirects| <= MAX_REDIRECTS ==> ValidHistory(h, org, project)
  {
    RunKeepsInv(org, project, steps);
    var h := RunAll(org, project, steps);
    forall id: Id ensures Stops(Redirects(h), id, |h.redirects|) {
      AnyChainStops(h, id);
    }
    if |h.redirects| <= MAX_REDIRECTS {
      forall x | x in h.heads ensures Stops(Redirects(h), x.id, MAX_REDIRECTS) {
        StopsSooner(Redirects(h), x.id, |h.redirects|, MAX_REDIRECTS);
      }
    }
  }

  /** A new redirect from one chain end to another lengthens exactly the chains that led to the first. */
  lemma {:induction false} Lengthened(redirects: map<Id, Link>, r: Link, id: Id, n: nat)
    requires r.source !in redirects && r.target !in redirects && r.source != r.target
    ensures Stops(redirects[r.source := r], id, n) <==>
              Stops(redirects, id, n)
                && (ChainEnd(redirects, id, n) == r.source ==> n > 0 && Stops(redirects, id, n - 1))
    decreases n
  {
    if id in redirects && n > 0 {
      Lengthened(redirects, r, redirects[id].target, n - 1);
    }
  }

  /** No chain of 32 redirects already leads to the entry about to be merged. */
  ghost predicate RoomToMerge(h: History, entry: Id) {
    forall z | z in h.heads :: ChainEnd(Redirects(h), z.id, MAX_REDIRECTS) == entry ==>
      Stops(Redirects(h), z.id, MAX_REDIRECTS - 1)
  }

  lemma HeadWithId(h: History, g: History, z: Head) returns (y: Head)
    requires Keys(h.heads, HeadId) == Keys(g.heads, HeadId) && z in h.heads
    ensures y in g.heads && y.id == z.id
  {
    var i :| 0 <= i < |h.heads| && h.heads[i] == z;
    y := g.heads[i];
    assert Keys(g.heads, HeadId)[i] == y.id && Keys(h.heads, HeadId)[i] == z.id;
  }

  lemma ShortAfter(h: History, g: History, r: Link)
    requires Keys(h.heads, HeadId) == Keys(g.heads, HeadId) && Redirects(g) == Redirects(h)[r.source := r]
    requires r.source !in Redirects(h) && r.target !in Redirects(h) && r.target != r.source
    requires ShortChains(h)
    ensures ShortChains(g) <==> RoomToMerge(h, r.source)
  {
    if ShortChains(g) {
      forall z | z in h.heads && ChainEnd(Redirects(h), z.id, MAX_REDIRECTS) == r.source
        ensures Stops(Redirects(h), z.id, MAX_REDIRECTS - 1)
      {
        Lengthened(Redirects(h), r, z.id, MAX_REDIRECTS);
        var y := HeadWithId(h, g, z);
      }
    }
    if RoomToMerge(h, r.source) {
      forall y | y in g.heads ensures Stops(Redirects(g), y.id, MAX_REDIRECTS) {
        var z := HeadWithId(g, h, y);
        Lengthened(Redirects(h), r, z.id, MAX_REDIRECTS);
      }
    }
  }
}
