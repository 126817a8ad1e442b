/** What a change leaves alone: records are only appended, and an entry moves on one revision at a time. */
module BibleEffects {
  import opened Wrappers
  import opened Ids
  import opened Rows
  import opened BibleContent
  import opened BibleHistory
  import opened BibleInvariant
  import opened BibleCommands
  import opened BibleRuns

  /** Nothing that was recorded is rewritten or taken away. */
  ghost predicate Extends(h: History, g: History) {
    && h.versions <= g.versions && h.looks <= g.looks
    && h.confirmations <= g.confirmations && h.redirects <= g.redirects && h.splits <= g.splits
  }

  /** The next state of an entry: one revision on, and only the field that the action names is different. */
  predicate MovesTo(x: Head, y: Head, a: Action, now: Time) {
    && y == x.(revision := x.revision + 1, updatedAt := now, current := y.current,
               confirmed := y.confirmed, redirect := y.redirect, deleted := y.deleted)
    && (!a.MakesVersion() ==> y.current == x.current)
    && y.confirmed == (if a.Confirm? then Some(x.current) else x.confirmed)
    && y.redirect == (if a.Merge? then Some(a.target) else x.redirect)
    && y.deleted == (if a.Delete? then true else if a.Restore? then false else x.deleted)
  }

  /** How many versions an action publishes. */
  function Published(a: Action): nat {
    if a.Creating() || a.MakesVersion() || a.Split? then 1 else 0
  }

  // One change.

  lemma LoadedRow(h: History, kind: Kind, entry: Id)
    requires Load(h, kind, entry).Success?
    ensures var x, v := Load(h, kind, entry).value.0, Load(h, kind, entry).value.1;
            && entry in Heads(h) && Heads(h)[entry] == x && x.id == entry
            && x.current in Versions(h) && Versions(h)[x.current] == v && v.id == x.current && v.entry == entry
  {
    IndexHolds(h.heads, HeadId);
    IndexHolds(h.versions, VersionId);
  }

  /** What was loaded, and the branch that a successful change of an entry took. */
  lemma ChangeTaken(h: History, org: Id, project: Id, actor: Id, c: Command, e: Env) returns (x: Head, v: Version)
    requires ShapeOk(c) && !c.action.Creating() && Changed(h, org, project, actor, c, e).Success?
    ensures c.entry in Heads(h) && x == Heads(h)[c.entry] && x.id == c.entry && x.revision == c.expected
    ensures x.current in Versions(h) && v == Versions(h)[x.current] && v.id == x.current && v.entry == c.entry
    ensures c.action.MakesVersion() ==>
              Changed(h, org, project, actor, c, e) == Revised(h, actor, Next(x, e), v, c.action, e)
    ensures c.action.Merge? ==>
              Changed(h, org, project, actor, c, e) ==
                Merged(h, actor, Next(x, e), v, c.action.target, c.action.expectedTarget, e)
    ensures c.action.Split? ==>
              Changed(h, org, project, actor, c, e) ==
                SplitOff(h, org, project, actor, Next(x, e), v, c.action.labels, e)
    ensures c.action.Delete? || c.action.Restore? ==>
              Changed(h, org, project, actor, c, e).value.0 == SetHead(h, Next(x, e).(deleted := c.action.Delete?))
    ensures c.action.Confirm? ==>
              Changed(h, org, project, actor, c, e).value.0 == ConfirmationAdded(SetHead(h, Next(x, e)), Next(x, e),
                Confirmation(e.ids.record, x.kind, x.id, v.id, x.revision + 1, actor, e.now))
  {
    LoadedRow(h, c.kind, c.entry);
    x, v := Load(h, c.kind, c.entry).value.0, Load(h, c.kind, c.entry).value.1;
    hide Revised, Merged, SplitOff;
  }

  lemma HeadSetTwice(h: History, x: Head, y: Head)
    requires x.id == y.id
    ensures Replace(Replace(h.heads, HeadId, x), HeadId, y) == Replace(h.heads, HeadId, y)
  {
    ReplaceTwice(h.heads, HeadId, x, y);
  }

  lemma RevisedHeads(h: History, actor: Id, y: Head, v: Version, a: Action, e: Env)
    requires a.MakesVersion() && Revised(h, actor, y, v, a, e).Success?
    ensures var g := Revised(h, actor, y, v, a, e).value.0;
            var w := NextOf(v, EditedBody(v.body, a, e).value, actor, a, e);
            && EditedBody(v.body, a, e).Success? && w.Valid()
            && g.heads == Replace(h.heads, HeadId, y.(current := e.ids.version)) && g.versions == h.versions + [w]
  {
    HeadSetTwice(h, y, y.(current := e.ids.version));
    hide EditedBody;
  }

  lemma MergedHeads(h: History, actor: Id, y: Head, v: Version, target: Id, expectedTarget: int, e: Env)
    requires Merged(h, actor, y, v, target, expectedTarget, e).Success?
    ensures Merged(h, actor, y, v, target, expectedTarget, e).value.0.heads
         == Replace(h.heads, HeadId, y.(redirect := Some(target)))
  {
    LoadedRow(h, Character, target);
    HeadSetTwice(h, y, y.(redirect := Some(target)));
  }

  lemma SplitHeads(h: History, org: Id, project: Id, actor: Id, y: Head, v: Version, labels: Labels, e: Env)
    requires SplitOff(h, org, project, actor, y, v, labels, e).Success?
    ensures SplitOff(h, org, project, actor, y, v, labels, e).value.0.heads
         == Replace(h.heads, HeadId, y) + [NewHead(org, project, Character, e.ids.childHead, e.ids.childVersion, e.now)]
  {
  }

  /** The head table after a change of an entry that exists. */
  lemma HeadsChanged(h: History, org: Id, project: Id, actor: Id, c: Command, e: Env) returns (y: Head)
    requires ShapeOk(c) && !c.action.Creating() && Changed(h, org, project, actor, c, e).Success?
    ensures c.entry in Heads(h) && Heads(h)[c.entry].revision == c.expected
    ensures MovesTo(Heads(h)[c.entry], y, c.action, e.now) && y.id == c.entry
    ensures var g := Changed(h, org, project, actor, c, e).value.0;
            g.heads == Replace(h.heads, HeadId, y)
                     + if c.action.Split?
                       then [NewHead(org, project, Character, e.ids.childHead, e.ids.childVersion, e.now)] else []
  {
    var x, v := ChangeTaken(h, org, project, actor, c, e);
    hide Changed, Revised, Merged, SplitOff, EditedBody, Heads, Versions, NewHead;
    y := Next(x, e);
    if c.action.MakesVersion() {
      RevisedHeads(h, actor, y, v, c.action, e);
      y := y.(current := e.ids.version);
    } else if c.action.Confirm? {
      HeadSetTwice(h, y, y.(confirmed := Some(v.id)));
      y := y.(confirmed := Some(v.id));
    } else if c.action.Merge? {
      MergedHeads(h, actor, y, v, c.action.target, c.action.expectedTarget, e);
      y := y.(redirect := Some(c.action.target));
    } else if c.action.Delete? || c.action.Restore? {
      y := y.(deleted := c.action.Delete?);
    } else {
      SplitHeads(h, org, project, actor, y, v, c.action.labels, e);
    }
  }

  /** Every entry but one stays as it was. */
  ghost predicate OthersStay(h: History, g: History, entry: Id) {
    forall k | k in Heads(h) && k != entry :: k in Heads(g) && Heads(g)[k] == Heads(h)[k]
  }

  lemma RecordsAppended(h: History, org: Id, project: Id, actor: Id, c: Command, e: Env)
    requires Change(h, org, project, actor, c, e).Success?
    ensures var g := Change(h, org, project, actor, c, e).value.0;
            Extends(h, g) && |g.versions| == |h.versions| + Published(c.action)
  {
    hide Publishable, CreatedVersion, EditedBody, Load, Heads, LookRows;
    if c.action.MakesVersion() {
      var x, v := ChangeTaken(h, org, project, actor, c, e);
      hide Changed;
    }
  }

  lemma NewEntryTable(h: History, heads: seq<Head>, x: Head)
    requires IdsOk(h) && Keys(heads, HeadId) == Keys(h.heads, HeadId) && x.id !in AllIds(h)
    ensures Index(heads + [x], HeadId) == Index(heads, HeadId)[x.id := x] && x.id !in Index(heads, HeadId)
  {
    NotInTables(h, x.id);
    KeysAppend(heads, x, HeadId);
    IndexKeys(heads, HeadId);
    IndexKeys(h.heads, HeadId);
  }

  lemma CreationMovesNone(h: History, org: Id, project: Id, actor: Id, c: Command, e: Env)
    requires IdsOk(h) && FreshFor(h, e.ids) && ShapeOk(c) && c.action.Creating()
    requires Created(h, org, project, actor, c, e).Success?
    ensures OthersStay(h, Created(h, org, project, actor, c, e).value.0, c.entry)
  {
    FreshParts(h, e.ids);
    hide IdsOk, FreshFor, CreatedVersion, Publishable;
    var x := NewHead(org, project, c.kind, e.ids.head, e.ids.version, e.now);
    NewEntryTable(h, h.heads, x);
    assert Created(h, org, project, actor, c, e).value.0.heads == h.heads + [x] by {
      CreatedIsNew(h, org, project, actor, c, e);
    }
  }

  lemma CreatedIsNew(h: History, org: Id, project: Id, actor: Id, c: Command, e: Env)
    requires ShapeOk(c) && c.action.Creating() && Created(h, org, project, actor, c, e).Success?
    ensures Created(h, org, project, actor, c, e).value.0.heads
         == h.heads + [NewHead(org, project, c.kind, e.ids.head, e.ids.version, e.now)]
  {
  }

  lemma OneEntryMoves(h: History, org: Id, project: Id, actor: Id, c: Command, e: Env)
    requires IdsOk(h) && FreshFor(h, e.ids) && ShapeOk(c) && !c.action.Creating()
    requires Changed(h, org, project, actor, c, e).Success?
    ensures var g := Changed(h, org, project, actor, c, e).value.0;
            && OthersStay(h, g, c.entry)
            && c.entry in Heads(h) && c.entry in Heads(g) && Heads(h)[c.entry].revision == c.expected
            && MovesTo(Heads(h)[c.entry], Heads(g)[c.entry], c.action, e.now)
  {
    FreshParts(h, e.ids);
    var y := HeadsChanged(h, org, project, actor, c, e);
    hide MovesTo, IdsOk, FreshFor, Changed;
    ReplaceIndex(h.heads, HeadId, y);
    if c.action.Split? {
      var child := NewHead(org, project, Character, e.ids.childHead, e.ids.childVersion, e.now);
      NewEntryTable(h, Replace(h.heads, HeadId, y), child);
    } else {
      assert Changed(h, org, project, actor, c, e).value.0.heads == Replace(h.heads, HeadId, y);
    }
  }

  /** A change appends to the record and touches no other entry; the entry it names moves on by one revision. */
  lemma ChangeAppends(h: History, org: Id, project: Id, actor: Id, c: Command, e: Env)
    requires IdsOk(h) && FreshFor(h, e.ids) && Change(h, org, project, actor, c, e).Success?
    ensures var g := Change(h, org, project, actor, c, e).value.0;
            && Extends(h, g) && |g.versions| == |h.versions| + Published(c.action)
            && OthersStay(h, g, c.entry)
            && (!c.action.Creating() ==>
                  && c.entry in Heads(h) && c.entry in Heads(g) && Heads(h)[c.entry].revision == c.expected
                  && MovesTo(Heads(h)[c.entry], Heads(g)[c.entry], c.action, e.now))
  {
    RecordsAppended(h, org, project, actor, c, e);
    hide MovesTo, Extends, IdsOk, FreshFor, OthersStay, Created, Changed;
    if c.action.Creating() {
      CreationMovesNone(h, org, project, actor, c, e);
    } else {
      OneEntryMoves(h, org, project, actor, c, e);
    }
  }

  /** An edit publishes one version: it follows the entry's current one and becomes current. */
  lemma EditFollows(h: History, org: Id, project: Id, actor: Id, c: Command, e: Env)
    requires IdsOk(h) && FreshFor(h, e.ids) && c.action.MakesVersion() && Change(h, org, project, actor, c, e).Success?
    ensures var g := Change(h, org, project, actor, c, e).value.0;
            && c.entry in Heads(h) && Heads(h)[c.entry].current in Versions(h) && c.entry in Heads(g)
            && var v := Versions(h)[Heads(h)[c.entry].current];
               var w := g.versions[|g.versions| - 1];
               && g.versions == h.versions + [w] && Heads(g)[c.entry].current == w.id
               && w.entry == c.entry && w.previous == Some(v.id) && w.number == v.number + 1
               && w.actor == actor && w.createdAt == e.now && w.Valid()
               && EditedBody(v.body, c.action, e) == Success(w.body)
  {
    TableIds(h);
    var x, v := ChangeTaken(h, org, project, actor, c, e);
    RevisedHeads(h, actor, Next(x, e), v, c.action, e);
    hide Changed, Revised, EditedBody;
    ReplaceIndex(h.heads, HeadId, Next(x, e).(current := e.ids.version));
  }

  // Undoing.

  lemma RestoreAccepted(h: History, org: Id, project: Id, actor: Id, c: Command, e: Env, x: Head)
    requires ShapeOk(c) && c.action.Restore? && Load(h, c.kind, c.entry).Success?
    requires x == Load(h, c.kind, c.entry).value.0 && x.deleted && x.redirect == None
    requires x.revision == c.expected < MAX_INT32
    ensures Change(h, org, project, actor, c, e).Success?
    ensures Change(h, org, project, actor, c, e).value.0 == SetHead(h, Next(x, e).(deleted := false))
  {
  }

  lemma DeletedStillLoads(h: History, kind: Kind, entry: Id, y: Head)
    requires NoDup(Keys(h.heads, HeadId)) && Load(h, kind, entry).Success?
    requires y.id == entry && y.kind == kind && y.current == Load(h, kind, entry).value.0.current
    ensures Load(SetHead(h, y), kind, entry) == Success((y, Load(h, kind, entry).value.1))
  {
    LoadedRow(h, kind, entry);
    ReplaceIndex(h.heads, HeadId, y);
  }

  /** A deleted entry takes no command but Restore, and restoring gives back what was deleted, two revisions on. */
  lemma DeleteThenRestore(
    h: History, org: Id, project: Id, actor: Id, c: Command, e: Env, restorer: Id, key: Id, e': Env)
    requires IdsOk(h) && c.action.Delete? && Change(h, org, project, actor, c, e).Success?
    requires key != NIL && c.expected + 1 < MAX_INT32
    ensures var g := Change(h, org, project, actor, c, e).value.0;
            var back := Change(g, org, project, restorer, Command(key, c.kind, c.entry, c.expected + 1, Restore), e');
            && c.entry in Heads(h) && back.Success?
            && back.value.0 == SetHead(h, Heads(h)[c.entry].(revision := c.expected + 2, updatedAt := e'.now))
  {
    TableIds(h);
    var x, v := ChangeTaken(h, org, project, actor, c, e);
    var gone := Next(x, e).(deleted := true);
    assert x.kind == c.kind && !x.deleted && x.redirect == None && Load(h, c.kind, c.entry) == Success((x, v));
    hide Change, Changed;
    DeletedStillLoads(h, c.kind, c.entry, gone);
    RestoreAccepted(SetHead(h, gone), org, project, restorer,
      Command(key, c.kind, c.entry, c.expected + 1, Restore), e', gone);
    HeadSetTwice(h, gone, Next(gone, e').(deleted := false));
  }

  lemma DeletedRefuses(h: History, org: Id, project: Id, actor: Id, c: Command, e: Env)
    requires !c.action.Creating() && !c.action.Restore? && c.entry in Heads(h) && Heads(h)[c.entry].deleted
    ensures Change(h, org, project, actor, c, e).Failure?
  {
  }

  // Runs.

  lemma AfterNext(org: Id, project: Id, steps: seq<Step>, s: Step)
    ensures RunAll(org, project, steps + [s]) ==
              After(RunAll(org, project, steps), Answered(org, project, steps), org, project, s)
    ensures Proper(org, project, steps + [s]) ==>
              Proper(org, project, steps) && FreshFor(RunAll(org, project, steps), s.env.ids)
  {
    assert (steps + [s])[..|steps|] == steps;
  }

  /** How far an entry may have moved: never back, and a redirect is final. */
  predicate MovedFrom(x: Head, y: Head) {
    && y.id == x.id && y.kind == x.kind && y.createdAt == x.createdAt
    && x.revision <= y.revision && (x.revision == y.revision ==> y == x)
    && (x.redirect.Some? ==> y == x)
  }

  ghost predicate Onward(h: History, g: History) {
    Extends(h, g) && forall k | k in Heads(h) :: k in Heads(g) && MovedFrom(Heads(h)[k], Heads(g)[k])
  }

  lemma OnwardNothing(h: History)
    ensures Onward(h, h)
  {
  }

  lemma OnwardTwice(h: History, g: History, k: History)
    requires Onward(h, g) && Onward(g, k)
    ensures Onward(h, k)
  {
  }

  lemma StepOnward(h: History, answered: set<(Id, Id)>, org: Id, project: Id, s: Step)
    requires IdsOk(h) && FreshFor(h, s.env.ids)
    ensures Onward(h, After(h, answered, org, project, s))
  {
    hide FreshFor, IdsOk;
    if Takes(h, answered, org, project, s) {
      ChangeAppends(h, org, project, s.actor, s.command, s.env);
      if s.command.action.Creating() {
        NoEntryWithoutId(h);
      } else if Heads(h)[s.command.entry].redirect.Some? {
        RedirectedRefuses(h, org, project, s.actor, s.command, s.env);
      }
    }
  }

  lemma NoEntryWithoutId(h: History)
    requires IdsOk(h)
    ensures NIL !in Heads(h)
  {
    NotInTables(h, NIL);
  }

  /** A merged entry takes no further command. */
  lemma RedirectedRefuses(h: History, org: Id, project: Id, actor: Id, c: Command, e: Env)
    requires !c.action.Creating() && c.entry in Heads(h) && Heads(h)[c.entry].redirect.Some?
    ensures Change(h, org, project, actor, c, e).Failure?
  {
  }

  /** However a run goes on, everything recorded before stays where it is and no entry moves back. */
  lemma {:induction false} RunOnward(org: Id, project: Id, steps: seq<Step>, more: seq<Step>)
    requires Proper(org, project, steps + more)
    ensures Onward(RunAll(org, project, steps), RunAll(org, project, steps + more))
    decreases |more|
  {
    hide Onward, Change, IdsOk, FreshFor;
    if more == [] {
      assert steps + more == steps;
      OnwardNothing(RunAll(org, project, steps));
    } else {
      var front, s := more[..|more| - 1], more[|more| - 1];
      assert steps + more == (steps + front) + [s];
      AfterNext(org, project, steps + front, s);
      RunOnward(org, project, steps, front);
      RunKeepsInv(org, project, steps + front);
      StepOnward(RunAll(org, project, steps + front), Answered(org, project, steps + front), org, project, s);
      OnwardTwice(RunAll(org, project, steps), RunAll(org, project, steps + front), RunAll(org, project, steps + more));
    }
  }

  /** Once an entry is past a revision, no command that still expects that revision succeeds, ever. */
  lemma StaleNeverSucceeds(org: Id, project: Id, steps: seq<Step>, more: seq<Step>, actor: Id, d: Command, e: Env)
    requires Proper(org, project, steps + more) && !d.action.Creating()
    requires d.entry in Heads(RunAll(org, project, steps))
    requires d.expected < Heads(RunAll(org, project, steps))[d.entry].revision
    ensures Change(RunAll(org, project, steps + more), org, project, actor, d, e).Failure?
  {
    RunOnward(org, project, steps, more);
  }

  /** Of two commands that expect the same revision of an entry at most one succeeds, whatever happens in between. */
  lemma OneWinner(org: Id, project: Id, steps: seq<Step>, s: Step, more: seq<Step>, actor: Id, d: Command, e: Env)
    requires Proper(org, project, steps + [s] + more) && !s.command.action.Creating() && !d.action.Creating()
    requires TakesNext(org, project, steps, s)
    requires d.entry == s.command.entry && d.expected <= s.command.expected
    ensures Change(RunAll(org, project, steps + [s] + more), org, project, actor, d, e).Failure?
  {
    hide Change;
    var h := RunAll(org, project, steps);
    ProperPrefix(org, project, steps + [s], more);
    AfterNext(org, project, steps, s);
    RunKeepsInv(org, project, steps);
    ChangeAppends(h, org, project, s.actor, s.command, s.env);
    StaleNeverSucceeds(org, project, steps + [s], more, actor, d, e);
  }

  lemma {:induction false} ProperPrefix(org: Id, project: Id, steps: seq<Step>, more: seq<Step>)
    requires Proper(org, project, steps + more)
    ensures Proper(org, project, steps)
    decreases |more|
  {
    if more == [] {
      assert steps + more == steps;
    } else {
      assert (steps + more)[..|steps + more| - 1] == steps + more[..|more| - 1];
      ProperPrefix(org, project, steps, more[..|more| - 1]);
    }
  }

  /** A merge is final: the merged entry keeps its redirect, its version and its revision through every later change. */
  lemma MergedStays(org: Id, project: Id, steps: seq<Step>, more: seq<Step>, entry: Id)
    requires Proper(org, project, steps + more)
    requires entry in Heads(RunAll(org, project, steps)) && Heads(RunAll(org, project, steps))[entry].redirect.Some?
    ensures entry in Heads(RunAll(org, project, steps + more))
    ensures Heads(RunAll(org, project, steps + more))[entry] == Heads(RunAll(org, project, steps))[entry]
  {
    RunOnward(org, project, steps, more);
  }
}
