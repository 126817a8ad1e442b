/** Cleaning up the objects of one item, for the worker and for the project copy that shares its protocol. */
module TransferCleanup {
  import opened Wrappers
  import opened TransferWorld
  import opened TransferSteps
  import opened TransferPorts
  import opened TransferObject
  import opened TransferItem

  predicate AllRemoved(s: State, objects: seq<Frozen>, n: nat) {
    forall j :: 0 <= j < |objects| && j < n ==> Row(s, objects[j].target).status == Removed
  }

  /** How the worker and the project copy differ: when absence is taken for unknown, and what they report. */
  datatype Owner = Worker | ProjectCopy

  predicate AbsenceUnknown(owner: Owner, o: Receipt) {
    match owner
    case Worker => o.writeStarted && o.status != Removed
    case ProjectCopy => o.writeStarted && o.status == Pending
  }

  function Reported(owner: Owner, reason: string, e: Error): Error {
    if owner == Worker then e else Reconcile(reason)
  }

  /** When nothing of the worker is left at a key where nothing is. */
  lemma AbsentForGood(s: State, log: seq<Event>, owner: Owner, k: Key)
    requires KeyOk(s, log, k) && k !in s.store && !AbsenceUnknown(owner, Row(s, k))
    ensures NothingOurs(s, k) || TwinMet(s, log, k)
  {
    if !Row(s, k).writeStarted && k in s.writes {
      assert HasPut(log, k);
    }
  }

  /** The worker can tell whether the object is there, and whose it is. */
  predicate Cleanable(owner: Owner, s: State, f: Frozen) {
    && f.target !in s.writes
    && if f.target in s.store then Holds(s, f.target) else !AbsenceUnknown(owner, Row(s, f.target))
  }

  predicate AllCleanable(owner: Owner, s: State, objects: seq<Frozen>, n: nat) {
    forall j :: n <= j < |objects| ==> Cleanable(owner, s, objects[j])
  }

  lemma KnownCleanable(plan: Plan, owner: Owner, s: State, log: seq<Event>, i: nat)
    requires Inv(plan, s, log) && i < |plan| && AllKnown(s, plan[i])
    ensures AllCleanable(owner, s, plan[i], 0)
  {
    forall j | 0 <= j < |plan[i]| ensures Cleanable(owner, s, plan[i][j]) {
      OwnKey(plan, i, j);
      assert Known(s, plan[i][j]) && KeyOk(s, log, plan[i][j].target);
    }
  }

  lemma CalmCleanable(owner: Owner, s: State, t: State, f: Frozen)
    requires CalmKey(s, t, f.target) && Untouched(s, t, f.target) && Cleanable(owner, s, f)
    ensures Cleanable(owner, t, f)
  {
  }

  lemma DriftCleanable(owner: Owner, s: State, t: State, objects: seq<Frozen>, n: nat)
    requires Drifted(s, t) && Calm(s, t) && AllCleanable(owner, s, objects, n)
    ensures AllCleanable(owner, t, objects, n)
  {
    forall j | n <= j < |objects| ensures Cleanable(owner, t, objects[j]) {
      assert Cleanable(owner, s, objects[j]) && EnvKey(s, t, objects[j].target) && CalmKey(s, t, objects[j].target);
    }
  }

  lemma NextCleanable(plan: Plan, owner: Owner, s: State, t: State, i: nat, j: nat)
    requires PlanOk(plan) && Within(plan, i, j) && Work(s, t, plan[i][j].target) && CalmBut(s, t, plan[i][j].target)
    requires AllCleanable(owner, s, plan[i], j)
    ensures AllCleanable(owner, t, plan[i], j + 1)
  {
    forall l | j + 1 <= l < |plan[i]| ensures Cleanable(owner, t, plan[i][l]) {
      WorkElsewhere(plan, s, t, i, j, i, l);
      assert Cleanable(owner, s, plan[i][l]);
      CalmCleanable(owner, s, t, plan[i][l]);
    }
  }

  // What one object's cleanup leaves alone, step by step.

  lemma DriftAfterWork(s: State, t: State, u: State, k: Key)
    requires Work(s, t, k) && Drifted(t, u)
    ensures Work(s, u, k) && Row(u, k) == Row(t, k)
    ensures CalmBut(s, t, k) && Calm(t, u) ==> CalmBut(s, u, k)
  {
    DriftIsWork(t, u, k);
    WorkTwice(s, t, u, k);
    if CalmBut(s, t, k) && Calm(t, u) {
      CalmTwice(s, t, u, k);
    }
  }

  lemma RemovalCalm(s: State, t: State, k: Key)
    requires RemovedAt(s, t, k)
    ensures CalmBut(s, t, k)
  {
  }

  /** What was settled about the worker's own writes at a key stays settled without it. */
  lemma NothingOursLater(s: State, t: State, log: seq<Event>, more: seq<Event>, k: Key)
    requires EnvKey(s, t, k) && s.strangers <= t.strangers && log <= more
    requires k !in s.writes || TwinMet(s, log, k)
    ensures k !in t.store ==> NothingOurs(t, k) || TwinMet(t, more, k)
  {
    if TwinMet(s, log, k) {
      TwinLater(s, t, log, more, k);
    }
  }

  lemma TwinLater(s: State, t: State, log: seq<Event>, more: seq<Event>, k: Key)
    requires TwinMet(s, log, k) && s.strangers <= t.strangers && log <= more
    ensures TwinMet(t, more, k)
  {
    var c :| Wrote(log, k, c) && (k, c) in s.strangers;
    var q :| 0 <= q < |log| && log[q].Put? && log[q].key == k && log[q].content == c;
    assert more[q] == log[q];
    assert Wrote(more, k, c);
  }

  lemma FreeStays(s: State, t: State, u: State, k: Key)
    requires !Blocks(s, t, k) && RowGrows(t, u, k)
    ensures !Blocks(s, u, k)
  {
  }

  lemma AbsentIsFree(s: State, t: State, k: Key)
    requires Work(s, t, k) && k !in t.store
    ensures !Blocks(s, t, k)
  {
  }

  /** Removes an object that is there and matches its digest, and makes sure that it is gone. */
  method RemovePresent(w: World, owner: Owner, i: nat, j: nat, o: Receipt, ghost s0: State) returns (r: Reply<()>)
    requires w.Valid() && Within(w.plan, i, j) && Work(s0, w.s, w.plan[i][j].target)
    requires w.s.statuses[i] != Succeeded && o == Row(w.s, w.plan[i][j].target)
    requires w.smooth ==> CalmBut(s0, w.s, w.plan[i][j].target)
    modifies w`s, w`log, w`smooth
    ensures w.Valid() && Work(s0, w.s, w.plan[i][j].target) && old(w.log) <= w.log
    ensures w.smooth ==> old(w.smooth) && CalmBut(s0, w.s, w.plan[i][j].target) && !r.Crash?
    ensures w.smooth && Holds(old(w.s), w.plan[i][j].target) && w.plan[i][j].target !in old(w.s.writes) ==> r.Ok?
    ensures r.Ok? ==> !Blocks(s0, w.s, w.plan[i][j].target)
    ensures r.Ok? ==> NothingOurs(w.s, w.plan[i][j].target) || TwinMet(w.s, w.log, w.plan[i][j].target)
  {
    var k := w.plan[i][j].target;
    ghost var s1 := w.s;
    AtFirst(w, i, j);
    hide Inv, PlanOk, Drifted, Calm, CalmBut, Work, Blocks, TwinMet, RowGrows;
    var verified := VerifyTransferred(w, k, o);
    DriftAfterWork(s0, s1, w.s, k);
    if w.smooth && k !in s1.writes {
      CalmHeld(s1, w.s, k);
    }
    if verified.Crash? {
      return Crash;
    }
    if verified.Err? {
      return Err(Reported(owner, "cleanup_ownership_unverified", verified.error));
    }
    r := RemoveVerified(w, owner, i, j, s0);
  }

  lemma CalmHeld(s: State, t: State, k: Key)
    requires Calm(s, t) && k !in s.writes
    ensures k !in s.store ==> k !in t.store
    ensures k !in t.writes
  {
    assert CalmKey(s, t, k);
  }

  /** The removal itself, after the bytes were read and matched. */
  method RemoveVerified(w: World, owner: Owner, i: nat, j: nat, ghost s0: State) returns (r: Reply<()>)
    requires w.Valid() && Within(w.plan, i, j) && Work(s0, w.s, w.plan[i][j].target)
    requires w.s.statuses[i] != Succeeded && Holds(w.s, w.plan[i][j].target)
    requires w.smooth ==> CalmBut(s0, w.s, w.plan[i][j].target)
    modifies w`s, w`log, w`smooth
    ensures w.Valid() && Work(s0, w.s, w.plan[i][j].target) && old(w.log) <= w.log
    ensures w.smooth ==> old(w.smooth) && CalmBut(s0, w.s, w.plan[i][j].target) && !r.Crash?
    ensures w.smooth && w.plan[i][j].target !in old(w.s.writes) ==> r.Ok?
    ensures r.Ok? ==> !Blocks(s0, w.s, w.plan[i][j].target)
    ensures r.Ok? ==> NothingOurs(w.s, w.plan[i][j].target) || TwinMet(w.s, w.log, w.plan[i][j].target)
  {
    var k := w.plan[i][j].target;
    OwnKey(w.plan, i, j);
    ghost var s1, log1 := w.s, w.log;
    HeldIsFree(s0, s1, k);
    assert k !in s1.writes || TwinMet(s1, log1, k) by {
      assert KeyOk(s1, log1, k);
      TwinOrSettled(s1, log1, k);
    }
    hide Inv, PlanOk, Drifted, Calm, CalmBut, Work, Blocks, TwinMet, RowGrows, Holds, RemovedAt, NothingOurs, Allowed;
    ghost var asked: State;
    var removed: Reply<()>;
    removed, asked := w.Remove(i, j, w.s.store[k].bytes);
    AskedToRemove(s0, s1, asked, w.s, k, w.smooth);
    if removed.Crash? {
      return Crash;
    }
    if removed.Err? {
      return Err(Reported(owner, "object_remove_unknown", removed.error));
    }
    ghost var s2 := w.s;
    var exists_ := w.Exists(k);
    DriftAfterWork(s0, s2, w.s, k);
    AfterRemoval(s0, s1, asked, s2, w.s, log1, w.log, k);
    if w.smooth && k !in s1.writes {
      CalmHeld(s1, asked, k);
      CalmHeld(s2, w.s, k);
    }
    if exists_.Crash? {
      return Crash;
    }
    if exists_.Err? || exists_.value {
      return Err(Reported(owner, "object_remove_unverified", Mismatch));
    }
    return Ok(());
  }

  lemma AskedToRemove(s0: State, s: State, t: State, u: State, k: Key, smooth: bool)
    requires Work(s0, s, k) && Drifted(s, t) && RemovedAt(t, u, k) && !Blocks(s0, s, k)
    requires smooth ==> CalmBut(s0, s, k) && Calm(s, t)
    ensures Work(s0, u, k) && (smooth ==> CalmBut(s0, u, k))
  {
    DriftAfterWork(s0, s, t, k);
    RemovalIsWork(s0, t, u, k);
    RemovalCalm(t, u, k);
    CalmTwiceIf(smooth, s0, t, u, k);
  }

  lemma AfterRemoval(s0: State, s1: State, asked: State, s2: State, t: State, log: seq<Event>, more: seq<Event>, k: Key)
    requires !Blocks(s0, s1, k) && Drifted(s1, asked) && RemovedAt(asked, s2, k) && Drifted(s2, t) && log <= more
    requires k !in s1.writes || TwinMet(s1, log, k)
    ensures !Blocks(s0, t, k)
    ensures k !in t.store ==> NothingOurs(t, k) || TwinMet(t, more, k)
  {
    assert EnvKey(s1, asked, k) && EnvKey(s2, t, k);
    if TwinMet(s1, log, k) {
      TwinStays(s1, s2, log, k);
    }
    NothingOursLater(s2, t, log, more, k);
  }

  method CleanupObject(w: World, owner: Owner, i: nat, j: nat, o: Receipt) returns (r: Reply<()>)
    requires w.Valid() && Within(w.plan, i, j) && o == Row(w.s, w.plan[i][j].target)
    modifies w`s, w`log, w`smooth
    ensures w.Valid() && Work(old(w.s), w.s, w.plan[i][j].target) && old(w.log) <= w.log
    ensures old(w.s.statuses[i]) == Succeeded ==> Drifted(old(w.s), w.s) && !r.Ok?
    ensures r.Ok? ==> Row(w.s, w.plan[i][j].target).status == Removed && !Blocks(old(w.s), w.s, w.plan[i][j].target)
    ensures w.smooth ==> old(w.smooth) && CalmBut(old(w.s), w.s, w.plan[i][j].target) && !r.Crash?
    ensures w.smooth && w.s.statuses[i] != Succeeded && Cleanable(owner, old(w.s), w.plan[i][j]) ==> r.Ok?
  {
    var k := w.plan[i][j].target;
    OwnKey(w.plan, i, j);
    ghost var s0 := w.s;
    NothingCopied(s0, k);
    hide Inv, PlanOk, Drifted, Calm, CalmBut, Work, Blocks, TwinMet, RowGrows, SameBut, NothingOurs, Allowed;
    var authorized := w.AuthorizeRemoval(i, j);
    DriftAfterWork(s0, s0, w.s, k);
    if !authorized.Ok? {
      return authorized;
    }
    ghost var s1 := w.s;
    var there := w.Exists(k);
    DriftAfterWork(s0, s1, w.s, k);
    if w.smooth {
      CalmAgain(s0, s1, w.s);
      if k !in s0.writes {
        CalmRead(s0, w.s, k);
        CalmHeld(s0, w.s, k);
      }
    }
    if there.Crash? {
      return Crash;
    }
    if there.Err? {
      return Err(there.error);
    }
    if !there.value && AbsenceUnknown(owner, o) {
      return Err(Reconcile("object_absence_unknown"));
    }
    if there.value {
      r := RemovePresent(w, owner, i, j, o, s0);
      if !r.Ok? {
        return;
      }
    } else {
      AbsentIsFree(s0, w.s, k);
      assert NothingOurs(w.s, k) || TwinMet(w.s, w.log, k) by {
        KeyOfPlan(w.plan, w.s, w.log, k);
        AbsentForGood(w.s, w.log, owner, k);
      }
    }
    ghost var s2 := w.s;
    r := w.ConfirmRemoval(i, j);
    CommitIsCopying(s2, w.s, k);
    CommitAfterWork(s0, s2, w.s, k);
    FreeStays(s0, s2, w.s, k);
  }

  lemma KeyOfPlan(plan: Plan, s: State, log: seq<Event>, k: Key)
    requires Inv(plan, s, log) && k in Targets(plan)
    ensures KeyOk(s, log, k)
  {
  }

  lemma CommitAfterWork(s: State, t: State, u: State, k: Key)
    requires Work(s, t, k) && Copying(t, u, k) && CalmBut(t, u, k)
    ensures Work(s, u, k) && (CalmBut(s, t, k) ==> CalmBut(s, u, k))
  {
    WorkTwice(s, t, u, k);
    if CalmBut(s, t, k) {
      CalmTwice(s, t, u, k);
    }
  }

  // The objects of an item.

  /** As far as `j`: every object is gone, and none met blocking bytes. */
  ghost predicate CleanedTo(s0: State, s: State, objects: seq<Frozen>, j: nat) {
    AllRemoved(s, objects, j) && forall l :: 0 <= l < |objects| && l < j ==> !Blocks(s0, s, objects[l].target)
  }

  lemma NextCleaned(plan: Plan, s0: State, s: State, t: State, i: nat, j: nat)
    requires PlanOk(plan) && Within(plan, i, j) && Work(s, t, plan[i][j].target) && CleanedTo(s0, s, plan[i], j)
    requires SameFor(s0, s, plan[i][j]) && s0.strangers <= s.strangers
    requires Row(t, plan[i][j].target).status == Removed && !Blocks(s, t, plan[i][j].target)
    ensures CleanedTo(s0, t, plan[i], j + 1)
  {
    forall l | 0 <= l < |plan[i]| && l < j
      ensures Row(t, plan[i][l].target).status == Removed && !Blocks(s0, t, plan[i][l].target)
    {
      WorkElsewhere(plan, s, t, i, j, i, l);
    }
  }

  /** One turn of the loop. */
  method CleanupNext(w: World, owner: Owner, i: nat, j: nat, rows: seq<Receipt>, ghost before: State)
    returns (r: Reply<()>)
    requires w.Valid() && Within(w.plan, i, j)
    requires Touched(w.plan[i], before, w.s) && Waiting(before, w.s, w.plan[i], rows, j)
    requires CleanedTo(before, w.s, w.plan[i], j)
    requires w.smooth ==> CalmElsewhere(w.plan[i], before, w.s)
    modifies w`s, w`log, w`smooth
    ensures w.Valid() && w.s.statuses == old(w.s.statuses) && old(w.log) <= w.log
    ensures Touched(w.plan[i], before, w.s)
    ensures old(w.s.statuses[i]) == Succeeded ==> Drifted(old(w.s), w.s) && !r.Ok?
    ensures r.Ok? ==> Waiting(before, w.s, w.plan[i], rows, j + 1) && CleanedTo(before, w.s, w.plan[i], j + 1)
    ensures w.smooth ==> old(w.smooth) && !r.Crash? && CalmElsewhere(w.plan[i], before, w.s)
    ensures w.smooth && w.s.statuses[i] != Succeeded && AllCleanable(owner, old(w.s), w.plan[i], j) ==>
              r.Ok? && AllCleanable(owner, w.s, w.plan[i], j + 1)
  {
    ghost var s0 := w.s;
    assert AllCleanable(owner, s0, w.plan[i], j) ==> Cleanable(owner, s0, w.plan[i][j]);
    hide Inv, PlanOk, CleanedTo, Touched, SameFor, Blocks, Drifted, CalmBut, Work, AllCleanable, Cleanable;
    hide CalmElsewhere;
    r := CleanupObject(w, owner, i, j, rows[j]);
    WorkTouches(w.plan[i], s0, w.s, j);
    TouchedTwice(w.plan[i], before, s0, w.s);
    CalmWork(w.plan[i], s0, w.s, j, w.smooth);
    CalmElsewhereTwice(w.plan[i], before, s0, w.s, w.smooth);
    if r.Ok? {
      NextWaiting(w.plan, before, s0, w.s, rows, i, j);
      NextCleaned(w.plan, before, s0, w.s, i, j);
    }
    if w.smooth && AllCleanable(owner, s0, w.plan[i], j) {
      NextCleanable(w.plan, owner, s0, w.s, i, j);
    }
  }

  /** Success means that nothing of the worker is left of any object of the item, and durably so. */
  method Cleanup(w: World, owner: Owner, i: nat) returns (r: Reply<()>)
    requires w.Valid() && i < |w.plan|
    modifies w`s, w`log, w`smooth
    ensures w.Valid() && w.s.statuses == old(w.s.statuses) && old(w.log) <= w.log
    ensures Touched(w.plan[i], old(w.s), w.s)
    ensures old(w.s.statuses[i]) == Succeeded ==> Drifted(old(w.s), w.s)
    ensures r.Ok? ==> CleanedTo(old(w.s), w.s, w.plan[i], |w.plan[i]|)
    ensures w.smooth ==> old(w.smooth) && !r.Crash? && CalmElsewhere(w.plan[i], old(w.s), w.s)
    ensures w.smooth && w.s.statuses[i] != Succeeded && old(AllCleanable(owner, w.s, w.plan[i], 0)) ==> r.Ok?
  {
    ghost var before, smooth0 := w.s, w.smooth;
    ghost var published := before.statuses[i] == Succeeded;
    ghost var cleanable := AllCleanable(owner, before, w.plan[i], 0) && !published;
    var objects := w.Objects(i);
    DriftTouches(w.plan[i], before, w.s);
    CalmDrift(w.plan[i], before, w.s, w.smooth);
    if cleanable && w.smooth {
      DriftCleanable(owner, before, w.s, w.plan[i], 0);
    }
    if objects.Crash? {
      return Crash;
    }
    if objects.Err? {
      return Err(objects.error);
    }
    hide Inv, PlanOk, Touched, Drifted, CleanedTo, AllCleanable, CalmElsewhere;
    StartCleaned(before, w.s, w.plan[i]);
    for j := 0 to |w.plan[i]|
      invariant w.Valid() && w.s.statuses == old(w.s.statuses) && old(w.log) <= w.log
      invariant Touched(w.plan[i], before, w.s) && Waiting(before, w.s, w.plan[i], objects.value, j)
      invariant CleanedTo(before, w.s, w.plan[i], j)
      invariant published ==> Drifted(before, w.s)
      invariant w.smooth ==> smooth0 && CalmElsewhere(w.plan[i], before, w.s)
      invariant w.smooth && cleanable ==> AllCleanable(owner, w.s, w.plan[i], j)
    {
      ghost var s0 := w.s;
      r := CleanupNext(w, owner, i, j, objects.value, before);
      if published {
        DriftedTwice(before, s0, w.s);
      }
      if !r.Ok? {
        return;
      }
    }
    return Ok(());
  }

  lemma StartCleaned(s0: State, s: State, objects: seq<Frozen>)
    ensures CleanedTo(s0, s, objects, 0)
  {
  }

  /** After a cleanup nothing of the worker is left, now or by a write that lands later, unless a twin was met. */
  lemma CleanedIsGone(plan: Plan, s0: State, s: State, log: seq<Event>, i: nat)
    requires Inv(plan, s, log) && i < |plan| && CleanedTo(s0, s, plan[i], |plan[i]|)
    ensures forall j :: 0 <= j < |plan[i]| ==> Gone(s, plan[i][j].target) && !Blocks(s0, s, plan[i][j].target)
    ensures forall j :: 0 <= j < |plan[i]| ==> NothingOurs(s, plan[i][j].target) || TwinMet(s, log, plan[i][j].target)
  {
    forall j | 0 <= j < |plan[i]|
      ensures Gone(s, plan[i][j].target) && (NothingOurs(s, plan[i][j].target) || TwinMet(s, log, plan[i][j].target))
    {
      OwnKey(plan, i, j);
      assert KeyOk(s, log, plan[i][j].target);
      NeverWritten(s, log, plan[i][j].target);
    }
  }
}
