/** The objects of one item: what work on them leaves alone, and how they are transferred. */
module TransferItem {
  import opened Wrappers
  import opened TransferWorld
  import opened TransferSteps
  import opened TransferPorts
  import opened TransferObject

  /** An item that may still be worked on. */
  predicate Open(status: ItemStatus) {
    status != Failed && status != Cancelled
  }

  // What work on one item leaves alone.

  function TargetsOf(objects: seq<Frozen>): set<Key> {
    set j | 0 <= j < |objects| :: objects[j].target
  }

  /** At one key a recorded digest stays recorded, and bytes that it does not match stay where they are. */
  ghost predicate Grown(s: State, t: State, k: Key) {
    RowGrows(s, t, k) && (Blocks(s, t, k) ==> Stays(s, t, k))
  }

  /** Only what happens without the worker. */
  ghost predicate Untouched(s: State, t: State, k: Key) {
    EnvKey(s, t, k) && Row(t, k) == Row(s, k) && (k in t.receipts <==> k in s.receipts)
  }

  lemma UntouchedGrows(s: State, t: State, k: Key)
    requires Untouched(s, t, k)
    ensures Grown(s, t, k)
  {
  }

  lemma UntouchedTwice(s: State, t: State, u: State, k: Key)
    requires Untouched(s, t, k) && Untouched(t, u, k) && t.strangers <= u.strangers
    ensures Untouched(s, u, k)
  {
    EnvKeyTwice(s, t, u, k);
  }

  lemma GrownTwice(s: State, t: State, u: State, k: Key)
    requires Grown(s, t, k) && Grown(t, u, k)
    ensures Grown(s, u, k)
  {
    if Blocks(s, u, k) {
      assert !Recorded(Row(t, k), s.store[k].bytes);
    }
  }

  /** Work on the objects of one item: every other key of the store, and every other row, is left alone. */
  ghost predicate Touched(objects: seq<Frozen>, s: State, t: State) {
    && s.strangers <= t.strangers
    && (forall x | x !in TargetsOf(objects) :: Untouched(s, t, x))
    && (forall x | x in TargetsOf(objects) :: Grown(s, t, x))
  }

  lemma TouchedTwice(objects: seq<Frozen>, s: State, t: State, u: State)
    requires Touched(objects, s, t) && Touched(objects, t, u)
    ensures Touched(objects, s, u)
  {
    hide Untouched, Grown, TargetsOf;
    forall x | x !in TargetsOf(objects) ensures Untouched(s, u, x) {
      UntouchedTwice(s, t, u, x);
    }
    forall x | x in TargetsOf(objects) ensures Grown(s, u, x) {
      GrownTwice(s, t, u, x);
    }
  }

  lemma WorkTouches(objects: seq<Frozen>, s: State, t: State, j: nat)
    requires j < |objects| && Work(s, t, objects[j].target)
    ensures Touched(objects, s, t)
  {
    forall x | x != objects[j].target ensures Untouched(s, t, x) && Grown(s, t, x) {
      assert EnvKey(s, t, x);
      UntouchedGrows(s, t, x);
    }
    assert objects[j].target in TargetsOf(objects);
  }

  lemma DriftTouches(objects: seq<Frozen>, s: State, t: State)
    requires Drifted(s, t)
    ensures Touched(objects, s, t)
    ensures forall x :: Untouched(s, t, x)
  {
    forall x ensures Untouched(s, t, x) && Grown(s, t, x) {
      assert EnvKey(s, t, x);
      UntouchedGrows(s, t, x);
    }
  }

  lemma StatusTouches(objects: seq<Frozen>, s: State, t: State)
    requires t == s.(statuses := t.statuses)
    ensures Touched(objects, s, t) && CalmElsewhere(objects, s, t)
    ensures forall x :: Untouched(s, t, x)
  {
    forall x ensures Untouched(s, t, x) && Grown(s, t, x) {
      assert EnvKey(s, t, x);
      UntouchedGrows(s, t, x);
    }
  }

  /** Nothing landed or arrived at the keys of other items, but for writes without an answer. */
  ghost predicate CalmElsewhere(objects: seq<Frozen>, s: State, t: State) {
    forall x | x !in TargetsOf(objects) :: CalmKey(s, t, x)
  }

  lemma CalmElsewhereTwice(objects: seq<Frozen>, s: State, t: State, u: State, smooth: bool)
    requires smooth ==> CalmElsewhere(objects, s, t) && CalmElsewhere(objects, t, u)
    ensures smooth ==> CalmElsewhere(objects, s, u)
  {
    if smooth {
      forall x | x !in TargetsOf(objects) ensures CalmKey(s, u, x) {
        assert CalmKey(s, t, x) && CalmKey(t, u, x);
      }
    }
  }

  lemma CalmWork(objects: seq<Frozen>, s: State, t: State, j: nat, smooth: bool)
    requires j < |objects| && (smooth ==> CalmBut(s, t, objects[j].target))
    ensures smooth ==> CalmElsewhere(objects, s, t)
  {
    assert objects[j].target in TargetsOf(objects);
  }

  lemma CalmDrift(objects: seq<Frozen>, s: State, t: State, smooth: bool)
    requires smooth ==> Calm(s, t)
    ensures smooth ==> CalmElsewhere(objects, s, t)
  {
  }

  // The objects of one item, one by one.

  /** The object, its source included, is as it was but for what happens without the worker. */
  ghost predicate SameFor(s: State, t: State, f: Frozen) {
    Untouched(s, t, f.target) && EnvKey(s, t, f.source)
  }

  lemma SameForTwice(s: State, t: State, u: State, f: Frozen)
    requires SameFor(s, t, f) && SameFor(t, u, f) && t.strangers <= u.strangers
    ensures SameFor(s, u, f)
  {
    UntouchedTwice(s, t, u, f.target);
    EnvKeyTwice(s, t, u, f.source);
  }

  lemma WorkElsewhere(plan: Plan, s: State, t: State, i: nat, j: nat, m: nat, l: nat)
    requires PlanOk(plan) && Within(plan, i, j) && Within(plan, m, l) && (i != m || j != l)
    requires Work(s, t, plan[i][j].target)
    ensures SameFor(s, t, plan[m][l])
    ensures CalmBut(s, t, plan[i][j].target) ==> CalmFor(s, t, plan[m][l])
  {
    OwnKey(plan, i, j);
    assert plan[m][l].target != plan[i][j].target && plan[m][l].source != plan[i][j].target;
    assert EnvKey(s, t, plan[m][l].target) && EnvKey(s, t, plan[m][l].source);
    if CalmBut(s, t, plan[i][j].target) {
      assert CalmKey(s, t, plan[m][l].target) && CalmKey(s, t, plan[m][l].source);
    }
  }

  /** Nothing landed or arrived where the object is read or written, but for writes without an answer. */
  predicate CalmFor(s: State, t: State, f: Frozen) {
    && Row(t, f.target) == Row(s, f.target)
    && CalmKey(s, t, f.target) && CalmKey(s, t, f.source)
  }

  lemma CalmForReady(s: State, t: State, f: Frozen)
    requires CalmFor(s, t, f) && f.source !in s.writes && Known(s, f)
    ensures Known(t, f) && (Ready(t, f) <==> Ready(s, f))
  {
  }

  lemma SourceUnwritten(plan: Plan, s: State, log: seq<Event>, i: nat, j: nat)
    requires PlanOk(plan) && Inv(plan, s, log) && Within(plan, i, j)
    ensures plan[i][j].source !in s.writes
  {
  }

  predicate AllKnown(s: State, objects: seq<Frozen>) {
    forall j :: 0 <= j < |objects| ==> Known(s, objects[j])
  }

  predicate AllReady(s: State, objects: seq<Frozen>) {
    forall j :: 0 <= j < |objects| ==> Ready(s, objects[j])
  }

  /**
    Between two objects: all are in no doubt, those before `j` were ready, and those from `j` on are as ready as before.
   */
  ghost predicate Halfway(s0: State, s: State, objects: seq<Frozen>, j: nat) {
    && AllKnown(s, objects)
    && (forall l :: 0 <= l < |objects| && l < j ==> Ready(s0, objects[l]))
    && (forall l :: j <= l < |objects| ==> (Ready(s, objects[l]) <==> Ready(s0, objects[l])))
  }

  lemma DriftHalfway(plan: Plan, s: State, t: State, log: seq<Event>, i: nat)
    requires PlanOk(plan) && Inv(plan, s, log) && i < |plan| && Drifted(s, t) && Calm(s, t) && AllKnown(s, plan[i])
    ensures Halfway(s, t, plan[i], 0)
  {
    forall l | 0 <= l < |plan[i]| ensures Known(t, plan[i][l]) && (Ready(t, plan[i][l]) <==> Ready(s, plan[i][l])) {
      SourceUnwritten(plan, s, log, i, l);
      assert CalmKey(s, t, plan[i][l].target) && CalmKey(s, t, plan[i][l].source);
      assert Known(s, plan[i][l]) && CalmFor(s, t, plan[i][l]);
      CalmForReady(s, t, plan[i][l]);
    }
  }

  lemma NextHalfway(plan: Plan, s0: State, s: State, t: State, log: seq<Event>, i: nat, j: nat)
    requires PlanOk(plan) && Inv(plan, s, log) && Within(plan, i, j)
    requires Work(s, t, plan[i][j].target) && CalmBut(s, t, plan[i][j].target)
    requires Halfway(s0, s, plan[i], j) && Known(t, plan[i][j])
    ensures AllKnown(t, plan[i])
    ensures Ready(s, plan[i][j]) ==> Halfway(s0, t, plan[i], j + 1)
  {
    forall l | 0 <= l < |plan[i]| && l != j
      ensures Known(t, plan[i][l]) && (Ready(t, plan[i][l]) <==> Ready(s, plan[i][l]))
    {
      SourceUnwritten(plan, s, log, i, l);
      WorkElsewhere(plan, s, t, i, j, i, l);
      assert Known(s, plan[i][l]);
      CalmForReady(s, t, plan[i][l]);
    }
  }

  lemma HalfwayHere(s0: State, s: State, objects: seq<Frozen>, j: nat)
    requires Halfway(s0, s, objects, j) && j < |objects|
    ensures Known(s, objects[j]) && (Ready(s, objects[j]) <==> Ready(s0, objects[j]))
    ensures !Ready(s0, objects[j]) ==> !AllReady(s0, objects)
  {
  }

  /** As far as `j`: every object is verified and met no blocking bytes, and is secure if no removal was outstanding. */
  ghost predicate Passed(s0: State, s: State, log: seq<Event>, objects: seq<Frozen>, j: nat) {
    forall l :: 0 <= l < |objects| && l < j ==>
      && Published(s, log, objects[l].target) && !Blocks(s0, s, objects[l].target)
      && (objects[l].target !in s0.removals ==> Secure(s, objects[l].target))
  }

  /** The objects from `j` on were not worked on. */
  ghost predicate Waiting(s0: State, s: State, objects: seq<Frozen>, rows: seq<Receipt>, j: nat) {
    |rows| == |objects| && s0.strangers <= s.strangers
    && forall l :: j <= l < |objects| ==> SameFor(s0, s, objects[l]) && rows[l] == Row(s, objects[l].target)
  }

  lemma NextWaiting(plan: Plan, s0: State, s: State, t: State, rows: seq<Receipt>, i: nat, j: nat)
    requires PlanOk(plan) && Within(plan, i, j) && Work(s, t, plan[i][j].target) && Waiting(s0, s, plan[i], rows, j)
    ensures Waiting(s0, t, plan[i], rows, j + 1)
  {
    forall l | j + 1 <= l < |plan[i]| ensures SameFor(s0, t, plan[i][l]) && rows[l] == Row(t, plan[i][l].target) {
      WorkElsewhere(plan, s, t, i, j, i, l);
      SameForTwice(s0, s, t, plan[i][l]);
    }
  }

  lemma PublishedLater(s: State, t: State, log: seq<Event>, more: seq<Event>, k: Key)
    requires Published(s, log, k) && Untouched(s, t, k) && KeyOk(s, log, k) && log <= more
    ensures Published(t, more, k)
  {
    if !Holds(t, k) {
      assert HasLate(log, k);
    }
    if HasLate(log, k) {
      var q :| 0 <= q < |log| && log[q].Remove? && log[q].key == k && log[q].late;
      assert more[q] == log[q];
    }
  }

  lemma NextPassed(plan: Plan, s0: State, s: State, t: State, log: seq<Event>, more: seq<Event>, i: nat, j: nat)
    requires PlanOk(plan) && Inv(plan, s, log) && Within(plan, i, j) && Copying(s, t, plan[i][j].target) && log <= more
    requires Passed(s0, s, log, plan[i], j) && SameFor(s0, s, plan[i][j]) && s0.strangers <= s.strangers
    requires Row(t, plan[i][j].target).status == Verified && Holds(t, plan[i][j].target)
    requires !Blocks(s, t, plan[i][j].target)
    ensures Passed(s0, t, more, plan[i], j + 1)
  {
    forall l | 0 <= l < |plan[i]| && l < j
      ensures Published(t, more, plan[i][l].target) && !Blocks(s0, t, plan[i][l].target)
           && (plan[i][l].target !in s0.removals ==> Secure(t, plan[i][l].target))
    {
      OwnKey(plan, i, l);
      WorkElsewhere(plan, s, t, i, j, i, l);
      PublishedLater(s, t, log, more, plan[i][l].target);
    }
  }

  /** Transfers every object of one item, in order. */
  method TransferObjects(w: World, i: nat) returns (r: Reply<()>)
    requires w.Valid() && i < |w.plan| && Open(w.s.statuses[i])
    modifies w`s, w`log, w`smooth
    ensures w.Valid() && w.s.statuses == old(w.s.statuses) && old(w.log) <= w.log
    ensures Touched(w.plan[i], old(w.s), w.s)
    ensures r.Ok? ==> Passed(old(w.s), w.s, w.log, w.plan[i], |w.plan[i]|)
    ensures w.smooth ==> old(w.smooth) && !r.Crash? && CalmElsewhere(w.plan[i], old(w.s), w.s)
    ensures w.smooth && old(AllKnown(w.s, w.plan[i])) ==>
              (r.Ok? <==> old(AllReady(w.s, w.plan[i]))) && (r.Err? ==> !r.error.Reconcile?) && AllKnown(w.s, w.plan[i])
    ensures w.smooth && r.Err? ==> !CalledOff(r.error)
  {
    ghost var before, smooth0 := w.s, w.smooth;
    ghost var known := AllKnown(before, w.plan[i]);
    var objects := w.Objects(i);
    DriftTouches(w.plan[i], before, w.s);
    CalmDrift(w.plan[i], before, w.s, w.smooth);
    if known && w.smooth {
      DriftHalfway(w.plan, before, w.s, w.log, i);
    }
    if objects.Crash? {
      return Crash;
    }
    if objects.Err? {
      return Err(objects.error);
    }
    for j := 0 to |w.plan[i]|
      invariant w.Valid() && w.s.statuses == old(w.s.statuses) && old(w.log) <= w.log
      invariant Touched(w.plan[i], before, w.s) && Waiting(before, w.s, w.plan[i], objects.value, j)
      invariant Passed(before, w.s, w.log, w.plan[i], j)
      invariant w.smooth ==> smooth0 && CalmElsewhere(w.plan[i], before, w.s)
      invariant w.smooth && known ==> Halfway(before, w.s, w.plan[i], j)
    {
      r := TransferNext(w, i, j, objects.value, before, known);
      if !r.Ok? {
        return;
      }
    }
    return Ok(());
  }

  /** One turn of the loop over the objects of an item. */
  method TransferNext(w: World, i: nat, j: nat, rows: seq<Receipt>, ghost before: State, ghost known: bool)
    returns (r: Reply<()>)
    requires w.Valid() && Within(w.plan, i, j) && Open(w.s.statuses[i])
    requires Touched(w.plan[i], before, w.s) && Waiting(before, w.s, w.plan[i], rows, j)
    requires Passed(before, w.s, w.log, w.plan[i], j)
    requires w.smooth ==> CalmElsewhere(w.plan[i], before, w.s)
    requires w.smooth && known ==> Halfway(before, w.s, w.plan[i], j)
    modifies w`s, w`log, w`smooth
    ensures w.Valid() && w.s.statuses == old(w.s.statuses) && old(w.log) <= w.log
    ensures Touched(w.plan[i], before, w.s)
    ensures r.Ok? ==> Waiting(before, w.s, w.plan[i], rows, j + 1) && Passed(before, w.s, w.log, w.plan[i], j + 1)
    ensures w.smooth ==> old(w.smooth) && !r.Crash? && CalmElsewhere(w.plan[i], before, w.s)
    ensures w.smooth && r.Err? ==> !CalledOff(r.error)
    ensures w.smooth && known ==>
              && (r.Ok? ==> Halfway(before, w.s, w.plan[i], j + 1))
              && (r.Err? ==> !r.error.Reconcile? && !AllReady(before, w.plan[i]) && AllKnown(w.s, w.plan[i]))
  {
    ghost var s0, log0 := w.s, w.log;
    hide Inv, PlanOk, Passed, Known, Ready, Halfway, Touched, SameFor, Blocks, Drifted, CalmBut, Holds, Work;
    hide CalmElsewhere;
    r := TransferPrivateObject(w, i, j, rows[j]);
    WorkTouches(w.plan[i], s0, w.s, j);
    TouchedTwice(w.plan[i], before, s0, w.s);
    CalmWork(w.plan[i], s0, w.s, j, w.smooth);
    CalmElsewhereTwice(w.plan[i], before, s0, w.s, w.smooth);
    NextWaiting(w.plan, before, s0, w.s, rows, i, j);
    if r.Ok? {
      NextPassed(w.plan, before, s0, w.s, log0, w.log, i, j);
    }
    if w.smooth && known {
      HalfwayHere(before, s0, w.plan[i], j);
      NextHalfway(w.plan, before, s0, w.s, log0, i, j);
    }
  }

  lemma AllPassed(s0: State, s: State, log: seq<Event>, objects: seq<Frozen>)
    requires Passed(s0, s, log, objects, |objects|)
    ensures forall j :: 0 <= j < |objects| ==> Published(s, log, objects[j].target)
    ensures forall j :: 0 <= j < |objects| ==> !Blocks(s0, s, objects[j].target)
    ensures forall j :: 0 <= j < |objects| ==> Row(s, objects[j].target).status == Verified
    ensures NoneOutstanding(s0, objects) ==> AllSecure(s, objects)
  {
  }

  /** No unanswered removal of the item's objects is outstanding. */
  predicate NoneOutstanding(s: State, objects: seq<Frozen>) {
    forall j :: 0 <= j < |objects| ==> objects[j].target !in s.removals
  }

  predicate AllSecure(s: State, objects: seq<Frozen>) {
    forall j :: 0 <= j < |objects| ==> Secure(s, objects[j].target)
  }

  /** Some target holds foreign bytes that never match its digest. */
  predicate Blocked(s: State, t: State, objects: seq<Frozen>) {
    exists j :: 0 <= j < |objects| && Blocks(s, t, objects[j].target)
  }

  method CopyItem(w: World, i: nat) returns (r: Reply<()>)
    requires w.Valid() && i < |w.plan| && Open(w.s.statuses[i])
    modifies w`s, w`log, w`smooth
    ensures w.Valid() && PublishedStay(old(w.s.statuses), w.s.statuses) && old(w.log) <= w.log
    ensures forall m :: 0 <= m < |w.plan| && m != i ==> w.s.statuses[m] == old(w.s.statuses)[m]
    ensures Touched(w.plan[i], old(w.s), w.s)
    ensures r.Ok? ==> w.s.statuses[i] == Succeeded && !Blocked(old(w.s), w.s, w.plan[i])
    ensures r.Ok? && old(NoneOutstanding(w.s, w.plan[i])) ==> AllSecure(w.s, w.plan[i])
    ensures w.smooth ==> old(w.smooth) && !r.Crash? && CalmElsewhere(w.plan[i], old(w.s), w.s)
    ensures w.smooth && old(w.s.statuses[i]) == Running ==> (r.Err? ==> w.s.statuses[i] == Running)
    ensures w.smooth && old(w.s.statuses[i]) == Running && old(AllKnown(w.s, w.plan[i])) ==>
              (r.Ok? <==> old(AllReady(w.s, w.plan[i]))) && (r.Err? ==> !r.error.Reconcile? && AllKnown(w.s, w.plan[i]))
    ensures w.smooth && r.Err? ==> !CalledOff(r.error)
  {
    ghost var before := w.s;
    hide Touched, Known, Ready, Passed, CalmElsewhere;
    r := TransferObjects(w, i);
    if !r.Ok? {
      return;
    }
    AllPassed(before, w.s, w.log, w.plan[i]);
    hide Inv, PlanOk, Published, Holds;
    ghost var middle := w.s;
    r := w.PublishItem(i);
    StatusTouches(w.plan[i], middle, w.s);
    TouchedTwice(w.plan[i], before, middle, w.s);
    CalmElsewhereTwice(w.plan[i], before, middle, w.s, w.smooth);
  }
}
