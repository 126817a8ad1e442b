/** The worker: what it records of each item, and its item loop. */
module TransferWorker {
  import opened Wrappers
  import opened TransferWorld
  import opened TransferSteps
  import opened TransferPorts
  import opened TransferObject
  import opened TransferItem
  import opened TransferCleanup

  /** The code recorded for a failure, and whether its outcome is unknown. */
  function TransferFailure(e: Error): (r: (string, bool))
    ensures r.1 <==> e.Reconcile?
    ensures r.0 == "cancelled" <==> CalledOff(e)
  {
    match e
    case ItemError(code) => (code, false)
    case Reconcile(reason) => (if reason == "object_receipt_unknown" then reason else "object_write_unknown", true)
    case ContextCanceled => ("cancelled", false)
    case TransferCancelled => ("cancelled", false)
    case Mismatch => ("object_mismatch", false)
    case AlreadyExists => ("source_unavailable", false)
    case NotFound => ("source_unavailable", false)
    case Unavailable => ("source_unavailable", false)
    case Conflict => ("source_unavailable", false)
  }

  predicate Settled(status: ItemStatus) {
    status == Succeeded || status == Failed || status == Cancelled
  }

  /** What is known of an item after it was worked on. */
  datatype Outcome = Copied | LeftNothing | Uncertain

  predicate OutcomeShown(status: ItemStatus, o: Outcome) {
    match o
    case Copied => status == Succeeded
    case LeftNothing => status == Failed || status == Cancelled
    case Uncertain => status == NeedsReconciliation
  }

  /** After a failure: clean up unless the outcome is unknown, then record what is known. */
  method SettleFailure(w: World, i: nat, e: Error) returns (r: Reply<Outcome>)
    requires w.Valid() && i < |w.plan|
    modifies w`s, w`log, w`smooth
    ensures w.Valid() && PublishedStay(old(w.s.statuses), w.s.statuses) && old(w.log) <= w.log
    ensures forall m :: 0 <= m < |w.plan| && m != i ==> w.s.statuses[m] == old(w.s.statuses)[m]
    ensures Touched(w.plan[i], old(w.s), w.s)
    ensures old(w.s.statuses[i]) == Succeeded ==> Drifted(old(w.s), w.s)
    ensures r.Ok? ==> OutcomeShown(w.s.statuses[i], r.value) && r.value != Copied
    ensures r == Ok(LeftNothing) && w.s.statuses[i] == Cancelled ==> CalledOff(e)
    ensures r.Ok? && Blocked(old(w.s), w.s, w.plan[i]) ==> r.value == Uncertain
    ensures w.smooth ==> old(w.smooth) && CalmElsewhere(w.plan[i], old(w.s), w.s)
    ensures w.smooth && old(w.s.statuses[i]) != Succeeded ==> r.Ok? && (e.Reconcile? ==> r.value == Uncertain)
    ensures w.smooth && old(w.s.statuses[i]) != Succeeded && !e.Reconcile? && old(AllKnown(w.s, w.plan[i])) ==>
              r == Ok(LeftNothing)
  {
    ghost var before := w.s;
    if AllKnown(before, w.plan[i]) {
      KnownCleanable(w.plan, Worker, before, w.log, i);
    }
    StatusTouches(w.plan[i], before, before);
    StillDrifted(before);
    hide Touched, Drifted, AllCleanable, CleanedTo, Blocks, CalmElsewhere;
    var (code, unknown) := TransferFailure(e);
    if !unknown {
      var cleaned := Cleanup(w, Worker, i);
      if cleaned.Crash? {
        return Crash;
      }
      if cleaned.Err? {
        code, unknown := "object_cleanup_unknown", true;
      } else {
        CleanedIsGone(w.plan, before, w.s, w.log, i);
      }
    }
    hide Inv, PlanOk, Known;
    ghost var middle := w.s;
    var marked := w.FailItem(i, code, unknown);
    StatusTouches(w.plan[i], middle, w.s);
    TouchedTwice(w.plan[i], before, middle, w.s);
    CalmElsewhereTwice(w.plan[i], before, middle, w.s, w.smooth);
    StatusBlocks(before, middle, w.s, w.plan[i]);
    return match marked
      case Ok(_) => Ok(if unknown then Uncertain else LeftNothing)
      case Err(error) => Err(error)
      case Crash => Crash;
  }

  lemma StatusBlocks(s0: State, s: State, t: State, objects: seq<Frozen>)
    requires t == s.(statuses := t.statuses)
    ensures Blocked(s0, t, objects) == Blocked(s0, s, objects)
    ensures Blocked(t, s0, objects) == Blocked(s, s0, objects)
    ensures t.statuses == s.statuses ==> t == s
  {
    forall k: Key ensures Blocks(s0, t, k) == Blocks(s0, s, k) && Blocks(t, s0, k) == Blocks(s, s0, k) {
    }
  }

  lemma StatusKnown(objects: seq<Frozen>, s: State, t: State)
    requires t == s.(statuses := t.statuses)
    ensures AllKnown(t, objects) == AllKnown(s, objects) && AllReady(t, objects) == AllReady(s, objects)
    ensures NoneOutstanding(t, objects) == NoneOutstanding(s, objects)
  {
    forall j | 0 <= j < |objects|
      ensures Known(t, objects[j]) == Known(s, objects[j]) && Ready(t, objects[j]) == Ready(s, objects[j])
    {
    }
  }

  /** What blocks until the end blocks from any moment before. */
  lemma BlockedLater(objects: seq<Frozen>, s: State, t: State, u: State)
    requires Touched(objects, s, t) && Touched(objects, t, u) && Blocked(s, u, objects)
    ensures Blocked(s, t, objects) && Blocked(t, u, objects)
  {
    var j :| 0 <= j < |objects| && Blocks(s, u, objects[j].target);
    var k := objects[j].target;
    assert k in TargetsOf(objects) && Grown(s, t, k) && Grown(t, u, k);
    assert !Recorded(Row(t, k), s.store[k].bytes);
    assert Blocks(s, t, k) && Blocks(t, u, k);
  }

  /**
    One item of a claimed job; an error means that its outcome could not be recorded. An item with foreign bytes
    in its way ends as unknown. When no call fails and nobody calls the work off, an item whose objects are in no
    doubt is published exactly if all of them are ready, and fails, leaving nothing behind, if not.
   */
  method ProcessItem(w: World, i: nat) returns (r: Reply<Outcome>)
    requires w.Valid() && i < |w.plan|
    modifies w`s, w`log, w`smooth
    ensures w.Valid() && PublishedStay(old(w.s.statuses), w.s.statuses) && old(w.log) <= w.log
    ensures forall m :: 0 <= m < |w.plan| && m != i ==> w.s.statuses[m] == old(w.s.statuses)[m]
    ensures Touched(w.plan[i], old(w.s), w.s)
    ensures old(w.s.statuses[i]) == Succeeded ==> forall x :: Untouched(old(w.s), w.s, x)
    ensures r.Ok? ==> OutcomeShown(w.s.statuses[i], r.value)
    ensures r.Ok? && old(w.s.statuses[i]) != Succeeded && Blocked(old(w.s), w.s, w.plan[i]) ==> r.value == Uncertain
    ensures r == Ok(Copied) && old(w.s.statuses[i] != Succeeded && NoneOutstanding(w.s, w.plan[i])) ==>
              AllSecure(w.s, w.plan[i])
    ensures w.smooth ==>
              old(w.smooth) && CalmElsewhere(w.plan[i], old(w.s), w.s) && (old(MayStart(w.s.statuses[i])) ==> r.Ok?)
    ensures w.smooth && r == Ok(LeftNothing) ==> w.s.statuses[i] == Failed
    ensures w.smooth && old(MayStart(w.s.statuses[i]) && AllKnown(w.s, w.plan[i])) ==>
              r == Ok(if old(AllReady(w.s, w.plan[i])) then Copied else LeftNothing)
  {
    hide Inv, PlanOk, Touched, CalmElsewhere, AllKnown, AllReady, Blocks, Untouched, Secure, Drifted, NoneOutstanding;
    ghost var before := w.s;
    var started := w.StartItem(i);
    ghost var claimed := w.s;
    StatusTouches(w.plan[i], before, claimed);
    StatusKnown(w.plan[i], before, claimed);
    if started.Crash? {
      return Crash;
    }
    if started.Err? {
      r := SettleFailure(w, i, started.error);
      TouchedTwice(w.plan[i], before, claimed, w.s);
      CalmElsewhereTwice(w.plan[i], before, claimed, w.s, w.smooth);
      StatusBlocks(w.s, before, claimed, w.plan[i]);
      if before.statuses[i] == Succeeded {
        DriftTouches(w.plan[i], claimed, w.s);
        AllUntouchedTwice(before, claimed, w.s);
      }
      return;
    }
    if started.value {
      return Ok(Copied);
    }
    r := CopyAndSettle(w, i);
    TouchedTwice(w.plan[i], before, claimed, w.s);
    CalmElsewhereTwice(w.plan[i], before, claimed, w.s, w.smooth);
    StatusBlocks(w.s, before, claimed, w.plan[i]);
  }

  lemma AllUntouchedTwice(s: State, t: State, u: State)
    requires t == s.(statuses := t.statuses) && forall x :: Untouched(t, u, x)
    ensures forall x :: Untouched(s, u, x)
  {
    forall x ensures Untouched(s, u, x) {
      assert Untouched(t, u, x);
    }
  }

  /** A started item: copy it, and settle a failure. */
  method CopyAndSettle(w: World, i: nat) returns (r: Reply<Outcome>)
    requires w.Valid() && i < |w.plan| && w.s.statuses[i] == Running
    modifies w`s, w`log, w`smooth
    ensures w.Valid() && PublishedStay(old(w.s.statuses), w.s.statuses) && old(w.log) <= w.log
    ensures forall m :: 0 <= m < |w.plan| && m != i ==> w.s.statuses[m] == old(w.s.statuses)[m]
    ensures Touched(w.plan[i], old(w.s), w.s)
    ensures r.Ok? ==> OutcomeShown(w.s.statuses[i], r.value)
    ensures r.Ok? && Blocked(old(w.s), w.s, w.plan[i]) ==> r.value == Uncertain
    ensures r == Ok(Copied) && old(NoneOutstanding(w.s, w.plan[i])) ==> AllSecure(w.s, w.plan[i])
    ensures w.smooth ==> old(w.smooth) && r.Ok? && CalmElsewhere(w.plan[i], old(w.s), w.s)
    ensures w.smooth && r == Ok(LeftNothing) ==> w.s.statuses[i] == Failed
    ensures w.smooth && old(AllKnown(w.s, w.plan[i])) ==>
              r == Ok(if old(AllReady(w.s, w.plan[i])) then Copied else LeftNothing)
  {
    hide Inv, PlanOk, Touched, CalmElsewhere, AllKnown, AllReady, Blocks, NoneOutstanding, Secure, Drifted;
    ghost var before := w.s;
    var copied := CopyItem(w, i);
    ghost var after := w.s;
    if copied.Crash? {
      return Crash;
    }
    if copied.Ok? {
      return Ok(Copied);
    }
    r := SettleFailure(w, i, copied.error);
    TouchedTwice(w.plan[i], before, after, w.s);
    CalmElsewhereTwice(w.plan[i], before, after, w.s, w.smooth);
    if Blocked(before, w.s, w.plan[i]) {
      BlockedLater(w.plan[i], before, after, w.s);
    }
  }

  // The item loop.

  /** An item that a run without failures settles: already published, or open with every object in no doubt. */
  predicate Workable(s: State, status: ItemStatus, objects: seq<Frozen>) {
    status == Succeeded || (MayStart(status) && AllKnown(s, objects))
  }

  /** Where such a run leaves it. */
  predicate SettledAs(s: State, status: ItemStatus, objects: seq<Frozen>, after: ItemStatus) {
    after == if status == Succeeded || AllReady(s, objects) then Succeeded else Failed
  }

  /** Items from `n` on have their status; when nothing failed they are as workable, and as ready, as before the run. */
  ghost predicate Ahead(plan: Plan, s: State, t: State, n: nat, smooth: bool) {
    && |t.statuses| == |s.statuses| == |plan|
    && (forall m :: n <= m < |plan| ==> t.statuses[m] == s.statuses[m])
    && (smooth ==> forall m :: n <= m < |plan| ==> AllKnown(s, plan[m]) ==>
          AllKnown(t, plan[m]) && (AllReady(t, plan[m]) <==> AllReady(s, plan[m])))
  }

  lemma ElsewhereCalm(plan: Plan, t: State, u: State, log: seq<Event>, n: nat, m: nat)
    requires PlanOk(plan) && Inv(plan, t, log) && n < |plan| && m < |plan| && m != n
    requires Touched(plan[n], t, u) && CalmElsewhere(plan[n], t, u) && AllKnown(t, plan[m])
    ensures AllKnown(u, plan[m]) && (AllReady(u, plan[m]) <==> AllReady(t, plan[m]))
  {
    hide Known, Ready, Inv;
    forall l | 0 <= l < |plan[m]| ensures Known(u, plan[m][l]) && (Ready(u, plan[m][l]) <==> Ready(t, plan[m][l])) {
      assert Within(plan, m, l) && Known(t, plan[m][l]);
      NotOf(plan, n, m, l);
      SourceUnwritten(plan, t, log, m, l);
      assert Untouched(t, u, plan[m][l].target);
      assert CalmKey(t, u, plan[m][l].target) && CalmKey(t, u, plan[m][l].source);
      CalmForReady(t, u, plan[m][l]);
    }
  }

  /** The keys of an object are not targets of another item. */
  lemma NotOf(plan: Plan, n: nat, m: nat, l: nat)
    requires PlanOk(plan) && n < |plan| && Within(plan, m, l) && m != n
    ensures plan[m][l].target !in TargetsOf(plan[n]) && plan[m][l].source !in TargetsOf(plan[n])
  {
    forall q | 0 <= q < |plan[n]|
      ensures plan[n][q].target != plan[m][l].target && plan[n][q].target != plan[m][l].source
    {
      assert Within(plan, n, q);
      OwnKey(plan, n, q);
    }
  }

  lemma StillAhead(plan: Plan, s: State, t: State, u: State, log: seq<Event>, n: nat, before: bool, smooth: bool)
    requires PlanOk(plan) && Inv(plan, t, log) && Ahead(plan, s, t, n, before) && n < |plan| && (smooth ==> before)
    requires Touched(plan[n], t, u) && (smooth ==> CalmElsewhere(plan[n], t, u))
    requires |u.statuses| == |plan| && forall m :: 0 <= m < |plan| && m != n ==> u.statuses[m] == t.statuses[m]
    ensures Ahead(plan, s, u, n + 1, smooth)
  {
    hide AllKnown, AllReady, Touched, CalmElsewhere, Inv;
    if smooth {
      forall m | n + 1 <= m < |plan| && AllKnown(s, plan[m])
        ensures AllKnown(u, plan[m]) && (AllReady(u, plan[m]) <==> AllReady(s, plan[m]))
      {
        ElsewhereCalm(plan, t, u, log, n, m);
      }
    }
  }

  lemma NothingBehind(plan: Plan, s: State, smooth: bool)
    requires |s.statuses| == |plan|
    ensures Ahead(plan, s, s, 0, smooth)
  {
  }

  lemma SkippedAhead(plan: Plan, s: State, t: State, n: nat, smooth: bool)
    requires Ahead(plan, s, t, n, smooth)
    ensures Ahead(plan, s, t, n + 1, smooth)
  {
  }

  lemma LessSmooth(plan: Plan, s: State, t: State, n: nat, before: bool, smooth: bool)
    requires Ahead(plan, s, t, n, before) && (smooth ==> before)
    ensures Ahead(plan, s, t, n, smooth)
  {
  }

  lemma AsBefore(plan: Plan, s: State, t: State, n: nat, smooth: bool)
    requires Ahead(plan, s, t, n, smooth) && n < |plan|
    ensures t.statuses[n] == s.statuses[n]
    ensures smooth && AllKnown(s, plan[n]) ==> AllKnown(t, plan[n]) && (AllReady(t, plan[n]) <==> AllReady(s, plan[n]))
  {
  }

  /**
    What any amount of work does: published items stay published, and keep what no removal can take; no digest is
    changed; and bytes that match no digest, with no removal outstanding, are neither replaced nor removed.
   */
  ghost predicate Onward(plan: Plan, s: State, t: State) {
    && PublishedStay(s.statuses, t.statuses) && s.strangers <= t.strangers
    && (forall x | x !in Targets(plan) :: EnvKey(s, t, x))
    && (forall x | x in Targets(plan) :: Grown(s, t, x))
    && |s.statuses| == |plan|
    && forall i, j | Within(plan, i, j) :: s.statuses[i] == Succeeded ==> SecureKept(s, t, plan[i][j].target)
  }

  predicate SecureKept(s: State, t: State, k: Key) {
    Secure(s, k) ==> Secure(t, k) && t.store[k] == s.store[k]
  }

  lemma SecureKeptTwice(s: State, t: State, u: State, k: Key)
    requires SecureKept(s, t, k) && SecureKept(t, u, k)
    ensures SecureKept(s, u, k)
  {
  }

  lemma OnwardTwice(plan: Plan, s: State, t: State, u: State)
    requires Onward(plan, s, t) && Onward(plan, t, u)
    ensures Onward(plan, s, u)
  {
    hide Grown, EnvKey, Secure, SecureKept;
    forall i, j | Within(plan, i, j) && s.statuses[i] == Succeeded ensures SecureKept(s, u, plan[i][j].target) {
      SecureKeptTwice(s, t, u, plan[i][j].target);
    }
    forall x | x in Targets(plan) ensures Grown(s, u, x) {
      GrownTwice(s, t, u, x);
    }
    forall x | x !in Targets(plan) ensures EnvKey(s, u, x) {
      EnvKeyTwice(s, t, u, x);
    }
  }

  lemma NothingOnward(plan: Plan, s: State)
    requires |s.statuses| == |plan|
    ensures Onward(plan, s, s)
  {
    forall x ensures EnvKey(s, s, x) && Grown(s, s, x) {
      UntouchedGrows(s, s, x);
    }
  }

  lemma SecureStays(s: State, t: State, k: Key)
    requires Untouched(s, t, k)
    ensures SecureKept(s, t, k)
  {
  }

  lemma ItemOnward(plan: Plan, s: State, t: State, i: nat)
    requires PlanOk(plan) && i < |plan| && |s.statuses| == |plan| && PublishedStay(s.statuses, t.statuses)
    requires Touched(plan[i], s, t) && (s.statuses[i] == Succeeded ==> forall x :: Untouched(s, t, x))
    ensures Onward(plan, s, t)
  {
    hide Grown, EnvKey, Secure, SecureKept, Untouched;
    forall x | x in Targets(plan) ensures Grown(s, t, x) {
      if x !in TargetsOf(plan[i]) {
        UntouchedGrows(s, t, x);
      }
    }
    forall x | x !in Targets(plan) ensures EnvKey(s, t, x) {
      assert x !in TargetsOf(plan[i]) by {
        forall j | 0 <= j < |plan[i]| ensures plan[i][j].target != x {
          OwnKey(plan, i, j);
        }
      }
      UntouchedEnv(s, t, x);
    }
    forall m, l | Within(plan, m, l) && s.statuses[m] == Succeeded ensures SecureKept(s, t, plan[m][l].target) {
      if m != i {
        NotOf(plan, i, m, l);
      }
      SecureStays(s, t, plan[m][l].target);
    }
  }

  lemma UntouchedEnv(s: State, t: State, x: Key)
    requires Untouched(s, t, x)
    ensures EnvKey(s, t, x)
  {
  }

  /** The item of one turn of the loop. */
  method ExecuteNext(w: World, n: nat, ghost before: State) returns (r: Reply<Outcome>)
    requires w.Valid() && n < |w.plan| == |before.statuses| && before.statuses[n] != Succeeded
    requires Onward(w.plan, before, w.s) && Ahead(w.plan, before, w.s, n, w.smooth)
    modifies w`s, w`log, w`smooth
    ensures w.Valid() && Onward(w.plan, before, w.s) && old(w.log) <= w.log
    ensures |old(w.s.statuses)| == |w.s.statuses| == |w.plan| && Ahead(w.plan, before, w.s, n + 1, w.smooth)
    ensures forall m :: 0 <= m < |w.plan| && m != n ==> w.s.statuses[m] == old(w.s.statuses)[m]
    ensures r.Ok? ==> OutcomeShown(w.s.statuses[n], r.value)
    ensures w.smooth ==> old(w.smooth)
    ensures w.smooth && Workable(before, before.statuses[n], w.plan[n]) ==>
              r.Ok? && r.value != Uncertain && SettledAs(before, before.statuses[n], w.plan[n], w.s.statuses[n])
  {
    assert |w.s.statuses| == |w.plan|;
    hide Inv, PlanOk, AllKnown, AllReady, Ahead, Onward, Touched, CalmElsewhere, Untouched;
    ghost var s0, log0, smooth := w.s, w.log, w.smooth;
    AsBefore(w.plan, before, s0, n, smooth);
    r := ProcessItem(w, n);
    ItemOnward(w.plan, s0, w.s, n);
    OnwardTwice(w.plan, before, s0, w.s);
    StillAhead(w.plan, before, s0, w.s, log0, n, smooth, w.smooth);
  }

  /** Why the item loop ended: an item in doubt, one whose outcome was not recorded, or a failure once interrupted. */
  datatype Ending = AllSettled | Interrupted | InDoubt | Unrecorded(error: Error) | Crashed

  /** What an ending says of the item it is about. */
  predicate EndingShown(before: seq<ItemStatus>, after: seq<ItemStatus>, ending: Ending, reached: nat)
    requires |after| == |before|
  {
    match ending
    case AllSettled => reached == |after|
    case Interrupted =>
      0 < reached <= |after| && (after[reached - 1] == Failed || after[reached - 1] == Cancelled)
    case InDoubt => reached < |after| && after[reached] == NeedsReconciliation
    case Unrecorded(_) => reached < |after| && before[reached] != Succeeded
    case Crashed => reached < |after| && before[reached] != Succeeded
  }

  /** The items before `reached` are settled, and the loop did not get to later ones. */
  predicate EndedAt(before: seq<ItemStatus>, after: seq<ItemStatus>, ending: Ending, reached: nat) {
    && |after| == |before| && EndingShown(before, after, ending, reached)
    && (forall m :: 0 <= m < reached ==> Settled(after[m]))
    && (forall m :: reached < m < |after| ==> after[m] == before[m])
    && (ending.Interrupted? && reached < |after| ==> after[reached] == before[reached])
  }

  /**
    Once the lease is lost, at most one more item is given up, and then the loop ends: every other item that it
    passed is published, or as it was at the loss.
   */
  predicate StopsOnceLost(atLoss: Option<seq<ItemStatus>>, after: seq<ItemStatus>, ending: Ending, reached: nat) {
    && (ending.Interrupted? ==> atLoss.Some?)
    && (atLoss.Some? ==>
          && |atLoss.value| == |after|
          && forall m :: 0 <= m < |after| && m < reached && !(ending.Interrupted? && m == reached - 1) ==>
               after[m] == Succeeded || after[m] == atLoss.value[m])
  }

  lemma LossNoted(
    before: Option<seq<ItemStatus>>, after: Option<seq<ItemStatus>>, s: seq<ItemStatus>, lost: bool, n: nat)
    requires StopsOnceLost(before, s, AllSettled, n)
    requires after == if lost && before.None? then Some(s) else before
    ensures StopsOnceLost(after, s, AllSettled, n)
  {
  }

  /** After a turn: the item is in doubt, given up, published, or anything while the lease is held. */
  lemma StopsNext(
    atLoss: Option<seq<ItemStatus>>, s: seq<ItemStatus>, t: seq<ItemStatus>, n: nat, ending: Ending, reached: nat)
    requires StopsOnceLost(atLoss, s, AllSettled, n) && n < |s| == |t|
    requires forall m :: 0 <= m < |s| && m != n ==> t[m] == s[m]
    requires n <= reached <= n + 1 && (ending.Interrupted? ==> reached == n + 1 && atLoss.Some?)
    requires reached == n + 1 && !ending.Interrupted? ==> atLoss.None? || t[n] == Succeeded
    ensures StopsOnceLost(atLoss, t, ending, reached)
  {
  }

  /** The items before `n` are settled, and as they should be when nothing failed. */
  ghost predicate SettledTo(plan: Plan, s: State, t: seq<ItemStatus>, n: nat, smooth: bool) {
    && n <= |t| == |s.statuses| == |plan| && (forall m :: 0 <= m < n ==> Settled(t[m]))
    && (smooth && (forall m :: 0 <= m < |plan| ==> Workable(s, s.statuses[m], plan[m])) ==>
          forall m :: 0 <= m < n ==> SettledAs(s, s.statuses[m], plan[m], t[m]))
  }

  lemma SettledNext(
    plan: Plan, s: State, t: seq<ItemStatus>, u: seq<ItemStatus>, n: nat, before: bool, smooth: bool)
    requires SettledTo(plan, s, t, n, before) && (smooth ==> before) && n < |plan| == |u|
    requires Settled(u[n]) && forall m :: 0 <= m < |plan| && m != n ==> u[m] == t[m]
    requires smooth && Workable(s, s.statuses[n], plan[n]) ==> SettledAs(s, s.statuses[n], plan[n], u[n])
    ensures SettledTo(plan, s, u, n + 1, smooth)
  {
  }

  lemma NotSettled(
    plan: Plan, s: State, t: seq<ItemStatus>, u: seq<ItemStatus>, n: nat, before: bool, smooth: bool)
    requires SettledTo(plan, s, t, n, before) && (smooth ==> before) && n < |plan| == |u|
    requires forall m :: 0 <= m < |plan| && m != n ==> u[m] == t[m]
    ensures SettledTo(plan, s, u, n, smooth)
  {
  }

  lemma Ends(plan: Plan, s: State, t: State, ending: Ending, reached: nat, smooth: bool)
    requires Ahead(plan, s, t, if ending.Interrupted? then reached else reached + 1, smooth)
    requires EndingShown(s.statuses, t.statuses, ending, reached)
    requires SettledTo(plan, s, t.statuses, reached, smooth)
    ensures EndedAt(s.statuses, t.statuses, ending, reached)
    ensures smooth && (forall m :: 0 <= m < |plan| ==> Workable(s, s.statuses[m], plan[m])) ==>
              forall m :: 0 <= m < reached ==> SettledAs(s, s.statuses[m], plan[m], t.statuses[m])
  {
  }

  /** Where the loop stands when it gets to item `n`. */
  ghost predicate Reached(
    plan: Plan, before: State, s: State, atLoss: Option<seq<ItemStatus>>, n: nat, smooth: bool)
  {
    && n <= |plan| == |s.statuses| && Onward(plan, before, s) && Ahead(plan, before, s, n, smooth)
    && SettledTo(plan, before, s.statuses, n, smooth) && StopsOnceLost(atLoss, s.statuses, AllSettled, n)
  }

  lemma Starts(plan: Plan, s: State, smooth: bool)
    requires |s.statuses| == |plan|
    ensures Reached(plan, s, s, None, 0, smooth)
  {
    NothingBehind(plan, s, smooth);
    NothingOnward(plan, s);
  }

  lemma Skips(plan: Plan, before: State, s: State, atLoss: Option<seq<ItemStatus>>, n: nat, smooth: bool)
    requires Reached(plan, before, s, atLoss, n, smooth) && n < |plan| && before.statuses[n] == Succeeded
    ensures Reached(plan, before, s, atLoss, n + 1, smooth)
  {
    hide Onward, AllKnown, AllReady;
    AsBefore(plan, before, s, n, smooth);
    StopsNext(atLoss, s.statuses, s.statuses, n, AllSettled, n + 1);
    SettledNext(plan, before, s.statuses, s.statuses, n, smooth, smooth);
  }

  lemma Finishes(plan: Plan, before: State, s: State, atLoss: Option<seq<ItemStatus>>, smooth: bool)
    requires Reached(plan, before, s, atLoss, |plan|, smooth)
    ensures Onward(plan, before, s) && EndedAt(before.statuses, s.statuses, AllSettled, |plan|)
    ensures StopsOnceLost(atLoss, s.statuses, AllSettled, |plan|)
    ensures smooth && (forall m :: 0 <= m < |plan| ==> Workable(before, before.statuses[m], plan[m])) ==>
              forall m :: 0 <= m < |plan| ==> SettledAs(before, before.statuses[m], plan[m], s.statuses[m])
  {
    hide Onward, Ahead, SettledAs, Workable, StopsOnceLost;
    SkippedAhead(plan, before, s, |plan|, smooth);
    Ends(plan, before, s, AllSettled, |plan|, smooth);
  }

  /** One turn of the loop: a sign of life, then the item, and whether the loop goes on. */
  method Turn(w: World, n: nat, interrupted: bool, ghost before: State)
    returns (ending: Option<Ending>, next: nat, lost: bool)
    requires w.Valid() && n < |w.plan| == |before.statuses| && before.statuses[n] != Succeeded
    requires Reached(w.plan, before, w.s, w.atLoss, n, w.smooth) && interrupted == w.atLoss.Some?
    modifies w`s, w`log, w`smooth, w`atLoss
    ensures w.Valid() && old(w.log) <= w.log && lost == w.atLoss.Some?
    ensures w.smooth ==> old(w.smooth) && (lost ==> interrupted)
    ensures ending.None? ==> next == n + 1 && Reached(w.plan, before, w.s, w.atLoss, next, w.smooth)
    ensures ending.Some? ==>
              && Onward(w.plan, before, w.s) && EndedAt(before.statuses, w.s.statuses, ending.value, next)
              && StopsOnceLost(w.atLoss, w.s.statuses, ending.value, next)
    ensures w.smooth && !interrupted && Workable(before, before.statuses[n], w.plan[n]) ==> ending.None?
  {
    hide Inv, PlanOk, AllKnown, AllReady, Ahead, Onward, SettledTo, SettledAs, StopsOnceLost, EndedAt;
    ghost var statuses, atLoss, smooth := w.s.statuses, w.atLoss, w.smooth;
    var heartbeatLost := w.Heartbeat();
    lost := interrupted || heartbeatLost;
    LossNoted(atLoss, w.atLoss, statuses, heartbeatLost, n);
    LessSmooth(w.plan, before, w.s, n, smooth, w.smooth);
    var processed := ExecuteNext(w, n, before);
    NotSettled(w.plan, before, statuses, w.s.statuses, n, smooth, w.smooth);
    next := n;
    var stop: Ending;
    match processed {
      case Crash => stop := Crashed;
      case Err(error) => stop := Unrecorded(error);
      case Ok(outcome) =>
        if outcome == Uncertain {
          stop := InDoubt;
        } else {
          SettledNext(w.plan, before, statuses, w.s.statuses, n, smooth, w.smooth);
          next := n + 1;
          if outcome == Copied || !lost {
            StopsNext(w.atLoss, statuses, w.s.statuses, n, AllSettled, next);
            return None, next, lost;
          }
          stop := Interrupted;
        }
    }
    StopsNext(w.atLoss, statuses, w.s.statuses, n, stop, next);
    Ends(w.plan, before, w.s, stop, next, w.smooth);
    return Some(stop), next, lost;
  }

  /**
    The item loop. It stops at the first item whose outcome is unknown or could not be recorded, and after a
    failure once the run is interrupted; every item it passed is published or left nothing behind, and no item after
    the one it stopped at is touched.
    Items that the claim shows as published are never touched. When no call fails and no outcome is in doubt,
    it settles every item: those whose objects are all ready are published, and the others fail.
   */
  method Execute(w: World) returns (ending: Ending, reached: nat)
    requires w.Valid()
    modifies w`s, w`log, w`smooth, w`atLoss
    ensures w.Valid() && Onward(w.plan, old(w.s), w.s) && old(w.log) <= w.log
    ensures EndedAt(old(w.s.statuses), w.s.statuses, ending, reached)
    ensures StopsOnceLost(w.atLoss, w.s.statuses, ending, reached)
    ensures w.smooth && old(forall m :: 0 <= m < |w.plan| ==> Workable(w.s, w.s.statuses[m], w.plan[m])) ==>
              && ending == AllSettled
              && forall m :: 0 <= m < |w.plan| ==> SettledAs(old(w.s), old(w.s).statuses[m], w.plan[m], w.s.statuses[m])
  {
    assert |w.s.statuses| == |w.plan|;
    ghost var before, smooth0 := w.s, w.smooth;
    Starts(w.plan, before, w.smooth);
    hide Inv, PlanOk, Reached, Onward, SettledAs, StopsOnceLost, EndedAt, Workable;
    var claimed := w.s.statuses;
    var index, interrupted := 0, false;
    w.atLoss := None;
    while index < |w.plan|
      invariant index <= |w.plan| == |claimed| && claimed == before.statuses
      invariant w.Valid() && old(w.log) <= w.log && Reached(w.plan, before, w.s, w.atLoss, index, w.smooth)
      invariant interrupted == w.atLoss.Some? && (w.smooth ==> smooth0 && !interrupted)
    {
      if claimed[index] == Succeeded {
        Skips(w.plan, before, w.s, w.atLoss, index, w.smooth);
        index := index + 1;
        continue;
      }
      var stop: Option<Ending>;
      stop, index, interrupted := Turn(w, index, interrupted, before);
      if stop.Some? {
        return stop.value, index;
      }
    }
    Finishes(w.plan, before, w.s, w.atLoss, w.smooth);
    return AllSettled, index;
  }
}
