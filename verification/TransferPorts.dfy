/** The repository and object store ports of a copying worker, with every way they may fail. */
module TransferPorts {
  import opened Wrappers
  import opened TransferWorld
  import opened TransferSteps

  /** What becomes of one call: it works, fails before or after taking effect, or is cut off by a crash. */
  datatype Fate = Works | FailsBefore(error: Error) | FailsAfter(error: Error) | CrashesBefore | CrashesAfter

  class World {
    const plan: Plan
    var s: State
    ghost var log: seq<Event>

    /**
      Since this was last set, no call failed or was cut off, no lease was lost, no unanswered removal landed,
      nothing foreign arrived, and nobody changed a saved source.
     */
    ghost var smooth: bool

    /** The statuses at the moment when the run first found its lease lost. */
    ghost var atLoss: Option<seq<ItemStatus>>

    ghost predicate Valid()
      reads this
    {
      PlanOk(plan) && Inv(plan, s, log)
    }

    /** A frozen plan over a store that may hold anything, also at the targets. */
    constructor (plan: Plan, store: map<Key, Bytes>)
      requires PlanOk(plan)
      ensures Valid() && this.plan == plan && smooth && fresh(this)
      ensures forall k :: k in s.store <==> k in store
      ensures forall k | k in store :: s.store[k] == Blob(store[k], true)
    {
      this.plan := plan;
      s := State(map k | k in store :: Blob(store[k], true), map[], {}, set k | k in store :: (k, store[k]),
                 map k | k in Targets(plan) :: NEW_RECEIPT, seq(|plan|, _ => Queued));
      log, smooth, atLoss := [], true, None;
    }

    /** One round of what may happen between two calls. */
    method DriftOnce()
      requires Valid()
      modifies this`s, this`smooth
      ensures Valid() && Drifted(old(s), s)
      ensures smooth ==> old(smooth) && Calm(old(s), s)
    {
      hide Inv;
      var gone: set<Key> :| gone <= s.removals;
      var removals: set<Key> :| removals <= s.removals;
      var kept := s.store - gone;
      var landed: set<Key> :| landed <= s.writes.Keys && landed !! kept.Keys;
      var lost: set<Key> :| landed <= lost <= s.writes.Keys;
      var offered: map<Key, Bytes> := *;
      var arrived := offered - (kept.Keys + landed);
      var store := kept + (map x | x in landed :: Blob(s.writes[x], false))
        + (map x | x in arrived :: Blob(arrived[x], true));
      var t := s.(store := store, writes := s.writes - lost, removals := removals,
                  strangers := s.strangers + (set x | x in arrived :: (x, arrived[x])));
      assert Drifted(s, t) by {
        assert forall x :: EnvKey(s, t, x);
      }
      DriftKeeps(plan, s, t, log);
      smooth := smooth && gone !! s.store.Keys && arrived == map[];
      s := t;
    }

    method Drift()
      requires Valid()
      modifies this`s, this`smooth
      ensures Valid() && Drifted(old(s), s)
      ensures smooth ==> old(smooth) && Calm(old(s), s)
    {
      hide Inv, Drifted, Calm;
      ghost var s0, smooth0 := s, smooth;
      StillDrifted(s0);
      var rounds: nat :| rounds >= 0;
      for n := 0 to rounds
        invariant Valid() && Drifted(s0, s)
        invariant smooth ==> smooth0 && Calm(s0, s)
      {
        ghost var s1 := s;
        DriftOnce();
        DriftedTwice(s0, s1, s);
        if smooth {
          CalmAgain(s0, s1, s);
        }
      }
    }

    // The object store.

    method Get(k: Key) returns (r: Reply<Bytes>)
      requires Valid()
      modifies this`s, this`smooth
      ensures Valid() && Drifted(old(s), s) && Allowed(plan, old(s), GetCall(k, r), s)
      ensures r.Ok? ==> k in s.store && r.value == s.store[k].bytes
      ensures smooth ==>
                old(smooth) && Calm(old(s), s) && r == if k in s.store then Ok(s.store[k].bytes) else Err(NotFound)
      ensures smooth && r.Err? ==> !CalledOff(r.error)
    {
      Drift();
      var fate: Fate := *;
      smooth := smooth && fate.Works?;
      match fate {
        case Works => return if k in s.store then Ok(s.store[k].bytes) else Err(NotFound);
        case FailsBefore(e) => return Err(e);
        case FailsAfter(e) => return Err(e);
        case CrashesBefore => return Crash;
        case CrashesAfter => return Crash;
      }
    }

    /** Closing what was read may fail by itself. */
    method Close() returns (r: Reply<()>)
      requires Valid()
      modifies this`smooth
      ensures Valid() && (smooth ==> old(smooth) && r.Ok?)
    {
      var fate: Fate := *;
      smooth := smooth && fate.Works?;
      return match fate
        case Works => Ok(())
        case FailsBefore(e) => Err(e)
        case FailsAfter(e) => Err(e)
        case CrashesBefore => Crash
        case CrashesAfter => Crash;
    }

    method Exists(k: Key) returns (r: Reply<bool>)
      requires Valid()
      modifies this`s, this`smooth
      ensures Valid() && Drifted(old(s), s) && Allowed(plan, old(s), ExistsCall(k, r), s)
      ensures r.Ok? ==> r.value == (k in s.store)
      ensures smooth ==> old(smooth) && Calm(old(s), s) && r.Ok?
    {
      Drift();
      var fate: Fate := *;
      smooth := smooth && fate.Works?;
      match fate {
        case Works => return Ok(k in s.store);
        case FailsBefore(e) => return Err(e);
        case FailsAfter(e) => return Err(e);
        case CrashesBefore => return Crash;
        case CrashesAfter => return Crash;
      }
    }

    /**
      A conditional write: it never replaces bytes, and says so when there are some. Without an answer it may land
      now, later or never.
     */
    method PutIfAbsent(i: nat, j: nat, content: Bytes) returns (r: Reply<()>)
      requires Valid() && Within(plan, i, j)
      requires Row(s, plan[i][j].target).status == Pending && Row(s, plan[i][j].target).writeStarted
      requires Recorded(Row(s, plan[i][j].target), content)
      requires !HasPut(log, plan[i][j].target)
      modifies this`s, this`log, this`smooth
      ensures Valid() && SameElsewhere(old(s), s, plan[i][j].target)
      ensures Allowed(plan, old(s), PutCall(i, j, content, r), s)
      ensures s.receipts == old(s.receipts) && s.removals == old(s.removals)
      ensures plan[i][j].target in old(s.store) ==>
                && !r.Ok? && plan[i][j].target in s.store
                && s.store[plan[i][j].target] == old(s.store)[plan[i][j].target]
      ensures r.Ok? ==> plan[i][j].target in s.store && s.store[plan[i][j].target] == Blob(content, false)
      ensures log == old(log) + [Put(plan[i][j].target, content, Row(s, plan[i][j].target))]
      ensures smooth ==> old(smooth) && s.writes == old(s.writes)
      ensures smooth ==> r == if plan[i][j].target in old(s.store) then Err(AlreadyExists) else Ok(())
      ensures smooth && r.Err? ==> !CalledOff(r.error)
    {
      var k := plan[i][j].target;
      OwnKey(plan, i, j);
      var e := Put(k, content, s.receipts[k]);
      NothingWritten(s, log, k);
      PutRequested(s, log, e);
      Requested(plan, s, log, e);
      LogGrows(log, e, k);
      log := log + [e];
      var fate: Fate := *;
      var late: bool := *;
      smooth := smooth && fate.Works?;
      var present := k in s.store;
      var lands := fate.Works? || ((fate.FailsAfter? || fate.CrashesAfter?) && !late);
      var t := if lands && !present then s.(store := s.store[k := Blob(content, false)])
               else if !lands && late then s.(writes := s.writes[k := content])
               else s;
      PutTakesEffect(s, t, log, k, content);
      ObjectChanged(plan, s, t, log, i, j);
      s := t;
      match fate {
        case Works => return if present then Err(AlreadyExists) else Ok(());
        case FailsBefore(error) => return Err(error);
        case FailsAfter(error) => return Err(error);
        case CrashesBefore => return Crash;
        case CrashesAfter => return Crash;
      }
    }

    /**
      Removes one exact key, whatever is there by then: between the read that made it due and the removal anything
      may happen at the store. Without an answer it may take effect now, later or never.
     */
    method Remove(i: nat, j: nat, ghost content: Bytes) returns (r: Reply<()>, ghost asked: State)
      requires Valid() && Within(plan, i, j) && s.statuses[i] != Succeeded
      requires Recorded(Row(s, plan[i][j].target), content)
      modifies this`s, this`log, this`smooth
      ensures Valid() && Drifted(old(s), asked) && RemovedAt(asked, s, plan[i][j].target)
      ensures Allowed(plan, asked, RemoveCall(i, j, r), s)
      ensures exists late :: log == old(log) + [
                TransferWorld.Remove(plan[i][j].target, s.statuses[i], Row(s, plan[i][j].target), content, late)]
      ensures r.Ok? ==> plan[i][j].target !in s.store
      ensures smooth ==> old(smooth) && Calm(old(s), asked) && r.Ok?
    {
      var k := plan[i][j].target;
      Drift();
      asked := s;
      OwnKey(plan, i, j);
      var fate: Fate := *;
      var unanswered: bool := *;
      var late := !fate.Works? && unanswered;
      smooth := smooth && fate.Works?;
      ghost var e := TransferWorld.Remove(k, s.statuses[i], s.receipts[k], content, late);
      KeyLog(s, log, e, k);
      Requested(plan, s, log, e);
      LogGrows(log, e, k);
      log := log + [e];
      var lands := fate.Works? || ((fate.FailsAfter? || fate.CrashesAfter?) && !late);
      var t := if lands then s.(store := s.store - {k}) else if late then s.(removals := s.removals + {k}) else s;
      RemoveTakesEffect(s, t, log, k);
      ObjectChanged(plan, s, t, log, i, j);
      s := t;
      assert e == TransferWorld.Remove(k, s.statuses[i], Row(s, k), content, late);
      match fate {
        case Works => r := Ok(());
        case FailsBefore(error) => r := Err(error);
        case FailsAfter(error) => r := Err(error);
        case CrashesBefore => r := Crash;
        case CrashesAfter => r := Crash;
      }
    }

    // Receipts. Each commits in one transaction or not at all.

    method Objects(i: nat) returns (r: Reply<seq<Receipt>>)
      requires Valid() && i < |plan|
      modifies this`s, this`smooth
      ensures Valid() && Drifted(old(s), s) && Allowed(plan, old(s), ObjectsCall(i, r), s)
      ensures r.Ok? ==> |r.value| == |plan[i]| && forall j :: 0 <= j < |plan[i]| ==>
                r.value[j] == Row(s, plan[i][j].target)
      ensures smooth ==> old(smooth) && Calm(old(s), s) && r.Ok?
    {
      Drift();
      var fate: Fate := *;
      smooth := smooth && fate.Works?;
      match fate {
        case Works => return Ok(seq(|plan[i]|, j requires 0 <= j < |plan[i]| reads this => Row(s, plan[i][j].target)));
        case FailsBefore(e) => return Err(e);
        case FailsAfter(e) => return Err(e);
        case CrashesBefore => return Crash;
        case CrashesAfter => return Crash;
      }
    }

    /** Replaces one receipt in a transaction of the given fate. */
    method Commit(i: nat, j: nat, row: Receipt, fate: Fate) returns (r: Reply<()>)
      requires Valid() && Within(plan, i, j)
      requires KeyOk(s.(receipts := s.receipts[plan[i][j].target := row]), log, plan[i][j].target)
      requires PromiseKept(s.statuses[i], s, s.(receipts := s.receipts[plan[i][j].target := row]),
                 log, plan[i][j].target)
      modifies this`s, this`smooth
      ensures Valid() && RowSet(old(s), s, plan[i][j].target, row, r.Ok?)
      ensures smooth ==> old(smooth) && r.Ok?
    {
      OwnKey(plan, i, j);
      smooth := smooth && fate.Works?;
      var t := s.(receipts := s.receipts[plan[i][j].target := row]);
      if fate.FailsBefore? {
        return Err(fate.error);
      }
      if fate.CrashesBefore? {
        return Crash;
      }
      ObjectChanged(plan, s, t, log, i, j);
      s := t;
      return if fate.FailsAfter? then Err(fate.error) else if fate.CrashesAfter? then Crash else Ok(());
    }

    method RecordDigest(i: nat, j: nat, sha: Digest, size: int) returns (r: Reply<()>)
      requires Valid() && Within(plan, i, j)
      modifies this`s, this`smooth
      ensures Valid() && Allowed(plan, old(s), RecordCall(i, j, sha, size, r), s)
      ensures s == old(s).(receipts := s.receipts) && SameBut(old(s.receipts), s.receipts, plan[i][j].target)
      ensures RowGrows(old(s), s, plan[i][j].target)
      ensures r.Ok? ==> MayRecord(Row(old(s), plan[i][j].target), sha, size)
      ensures r.Ok? ==>
        Row(s, plan[i][j].target) ==
          Row(old(s), plan[i][j].target).(sha := Some(sha), size := Some(size), sourceVerified := true)
      ensures smooth ==> old(smooth) && !r.Crash? && (r.Ok? <==> MayRecord(Row(old(s), plan[i][j].target), sha, size))
      ensures smooth && r.Err? ==> !CalledOff(r.error)
    {
      var k := plan[i][j].target;
      OwnKey(plan, i, j);
      var row := s.receipts[k];
      if !MayRecord(row, sha, size) {
        return Err(Mismatch);
      }
      var fate: Fate := *;
      DigestRecorded(s, log, k, sha, size);
      r := Commit(i, j, row.(sha := Some(sha), size := Some(size), sourceVerified := true), fate);
    }

    method BeginWrite(i: nat, j: nat) returns (r: Reply<()>)
      requires Valid() && Within(plan, i, j) && s.statuses[i] != Failed && s.statuses[i] != Cancelled
      modifies this`s, this`smooth
      ensures Valid() && Allowed(plan, old(s), BeginCall(i, j, r), s)
      ensures s == old(s).(receipts := s.receipts) && SameBut(old(s.receipts), s.receipts, plan[i][j].target)
      ensures RowGrows(old(s), s, plan[i][j].target)
      ensures r.Ok? ==> MayBegin(Row(old(s), plan[i][j].target))
      ensures r.Ok? ==> Row(s, plan[i][j].target) == Row(old(s), plan[i][j].target).(writeStarted := true)
      ensures smooth ==> old(smooth) && !r.Crash? && (r.Ok? <==> MayBegin(Row(old(s), plan[i][j].target)))
      ensures smooth && r.Err? ==> !CalledOff(r.error)
    {
      var k := plan[i][j].target;
      OwnKey(plan, i, j);
      var row := s.receipts[k];
      if !MayBegin(row) {
        return Err(Mismatch);
      }
      var fate: Fate := *;
      WriteBegun(plan, s, log, k, s.statuses[i]);
      r := Commit(i, j, row.(writeStarted := true), fate);
    }

    /** Records a target that was just read back. */
    method ConfirmObject(i: nat, j: nat, sha: Digest, size: int) returns (r: Reply<()>)
      requires Valid() && Within(plan, i, j) && Holds(s, plan[i][j].target)
      modifies this`s, this`smooth
      ensures Valid() && Allowed(plan, old(s), ConfirmCall(i, j, sha, size, r), s)
      ensures s == old(s).(receipts := s.receipts) && SameBut(old(s.receipts), s.receipts, plan[i][j].target)
      ensures RowGrows(old(s), s, plan[i][j].target)
      ensures r.Ok? ==> MayConfirm(Row(old(s), plan[i][j].target), sha, size)
      ensures r.Ok? ==> Row(s, plan[i][j].target) == Row(old(s), plan[i][j].target).(status := Verified)
      ensures smooth ==> old(smooth) && !r.Crash? && (r.Ok? <==> MayConfirm(Row(old(s), plan[i][j].target), sha, size))
      ensures smooth && r.Err? ==> !CalledOff(r.error)
    {
      var k := plan[i][j].target;
      OwnKey(plan, i, j);
      var row := s.receipts[k];
      if !MayConfirm(row, sha, size) {
        return Err(Mismatch);
      }
      var fate: Fate := *;
      ObjectConfirmed(s, log, k);
      r := Commit(i, j, row.(status := Verified), fate);
    }

    /** Renews the lease of the worker, or finds it lost. */
    method Heartbeat() returns (lost: bool)
      requires Valid()
      modifies this`smooth, this`atLoss
      ensures Valid() && (smooth ==> old(smooth) && !lost)
      ensures atLoss == if lost && old(atLoss).None? then Some(s.statuses) else old(atLoss)
    {
      lost := *;
      smooth := smooth && !lost;
      if lost && atLoss.None? {
        atLoss := Some(s.statuses);
      }
    }

    /** Forbids removing an object of a published item. */
    method AuthorizeRemoval(i: nat, j: nat) returns (r: Reply<()>)
      requires Valid() && Within(plan, i, j)
      modifies this`s, this`smooth
      ensures Valid() && Drifted(old(s), s) && Allowed(plan, old(s), AuthorizeCall(i, j, r), s)
      ensures r.Ok? ==> s.statuses[i] != Succeeded
      ensures smooth ==> old(smooth) && Calm(old(s), s) && !r.Crash? && (r.Ok? <==> s.statuses[i] != Succeeded)
    {
      Drift();
      if s.statuses[i] == Succeeded {
        return Err(Conflict);
      }
      var fate: Fate := *;
      smooth := smooth && fate.Works?;
      match fate {
        case Works => return Ok(());
        case FailsBefore(e) => return Err(e);
        case FailsAfter(e) => return Err(e);
        case CrashesBefore => return Crash;
        case CrashesAfter => return Crash;
      }
    }

    /** Records that nothing of the worker is left at a key, or that a twin of its bytes made this uncertain. */
    method ConfirmRemoval(i: nat, j: nat) returns (r: Reply<()>)
      requires Valid() && Within(plan, i, j)
      requires NothingOurs(s, plan[i][j].target) || TwinMet(s, log, plan[i][j].target)
      modifies this`s, this`smooth
      ensures Valid() && Allowed(plan, old(s), ConfirmRemovalCall(i, j, r), s)
      ensures s == old(s).(receipts := s.receipts) && SameBut(old(s.receipts), s.receipts, plan[i][j].target)
      ensures RowGrows(old(s), s, plan[i][j].target)
      ensures r.Ok? ==> Row(s, plan[i][j].target).status == Removed && s.statuses[i] != Succeeded
      ensures smooth ==> old(smooth) && !r.Crash? && (r.Ok? <==> s.statuses[i] != Succeeded)
    {
      if s.statuses[i] == Succeeded {
        return Err(Conflict);
      }
      var k := plan[i][j].target;
      OwnKey(plan, i, j);
      var fate: Fate := *;
      RemovalConfirmed(s, log, k);
      r := Commit(i, j, s.receipts[k].(status := Removed), fate);
    }

    // Items.

    /** Sets the status of one item in a transaction of the given fate. */
    method Mark(i: nat, status: ItemStatus, fate: Fate) returns (r: Reply<()>)
      requires Valid() && i < |plan| && s.statuses[i] != Succeeded && ItemOk(s, log, status, plan[i])
      modifies this`s, this`smooth
      ensures Valid() && |s.statuses| == |old(s.statuses)| == |plan| && StatusSet(old(s), s, i, status, r.Ok?)
      ensures smooth ==> old(smooth) && r.Ok?
    {
      smooth := smooth && fate.Works?;
      if fate.FailsBefore? {
        return Err(fate.error);
      }
      if fate.CrashesBefore? {
        return Crash;
      }
      StatusChanged(plan, s, log, i, status);
      s := s.(statuses := s.statuses[i := status]);
      return if fate.FailsAfter? then Err(fate.error) else if fate.CrashesAfter? then Crash else Ok(());
    }

    /** The saved source and target folder may have changed since the plan was frozen. */
    method StartItem(i: nat) returns (r: Reply<bool>)
      requires Valid() && i < |plan|
      modifies this`s, this`smooth
      ensures Valid() && |old(s.statuses)| == |plan| && Allowed(plan, old(s), StartCall(i, r), s)
      ensures s == old(s).(statuses := s.statuses) && PublishedStay(old(s.statuses), s.statuses)
      ensures forall m :: 0 <= m < |plan| && m != i ==> s.statuses[m] == old(s.statuses)[m]
      ensures r.Ok? ==> s.statuses[i] == if r.value then Succeeded else Running
      ensures r.Ok? ==> if r.value then old(s.statuses[i]) == Succeeded else MayStart(old(s.statuses[i]))
      ensures smooth ==> old(smooth) && !r.Crash?
      ensures smooth && old(s.statuses[i]) == Succeeded ==> r == Ok(true)
      ensures smooth && MayStart(old(s.statuses[i])) ==> r == Ok(false)
      ensures smooth && r.Err? ==> !CalledOff(r.error)
    {
      var fate: Fate := *;
      if s.statuses[i] == Succeeded {
        smooth := smooth && fate.Works?;
        return match fate
          case Works => Ok(true)
          case FailsBefore(e) => Err(e)
          case FailsAfter(_) => Ok(true)
          case CrashesBefore => Crash
          case CrashesAfter => Crash;
      }
      var changed: Error := *;
      var sourceKept: bool := *;
      smooth := smooth && sourceKept;
      if !sourceKept {
        return Err(changed);
      }
      if !MayStart(s.statuses[i]) {
        return Err(Conflict);
      }
      var marked := Mark(i, Running, fate);
      return match marked case Ok(_) => Ok(false) case Err(e) => Err(e) case Crash => Crash;
    }

    /** Registers a complete item; every object of it was read back in this pass. */
    method PublishItem(i: nat) returns (r: Reply<()>)
      requires Valid() && i < |plan|
      requires forall j :: 0 <= j < |plan[i]| ==> Published(s, log, plan[i][j].target)
      modifies this`s, this`smooth
      ensures Valid() && |old(s.statuses)| == |plan| && Allowed(plan, old(s), PublishCall(i, r), s)
      ensures s == old(s).(statuses := s.statuses) && PublishedStay(old(s.statuses), s.statuses)
      ensures forall m :: 0 <= m < |plan| && m != i ==> s.statuses[m] == old(s.statuses)[m]
      ensures r.Ok? ==> s.statuses[i] == Succeeded
      ensures r.Ok? && old(s.statuses[i]) != Succeeded ==> MayPublish(old(s), old(s.statuses[i]), plan[i])
      ensures smooth ==> old(smooth) && !r.Crash? && (MayPublish(old(s), old(s.statuses[i]), plan[i]) ==> r.Ok?)
      ensures smooth && r.Err? ==> !CalledOff(r.error)
    {
      if s.statuses[i] == Succeeded {
        return Ok(());
      }
      if s.statuses[i] != Running {
        return Err(Conflict);
      }
      if exists j :: 0 <= j < |plan[i]| && Row(s, plan[i][j].target).status != Verified {
        return Err(Mismatch);
      }
      var fate: Fate := *;
      r := Mark(i, Succeeded, fate);
    }

    /** Keeps unknown outcomes apart from a completed failure, which leaves nothing behind. */
    method FailItem(i: nat, code: string, unknown: bool) returns (r: Reply<()>)
      requires Valid() && i < |plan|
      requires !unknown ==> forall j :: 0 <= j < |plan[i]| ==> Gone(s, plan[i][j].target)
      modifies this`s, this`smooth
      ensures Valid() && |old(s.statuses)| == |plan| && Allowed(plan, old(s), FailCall(i, unknown, r), s)
      ensures s == old(s).(statuses := s.statuses) && PublishedStay(old(s.statuses), s.statuses)
      ensures forall m :: 0 <= m < |plan| && m != i ==> s.statuses[m] == old(s.statuses)[m]
      ensures r.Ok? && unknown ==> s.statuses[i] == NeedsReconciliation
      ensures r.Ok? && !unknown ==>
                s.statuses[i] == Failed || (s.statuses[i] == Cancelled && code == "cancelled")
      ensures smooth ==> old(smooth) && !r.Crash? && (r.Ok? <==> old(s.statuses[i]) != Succeeded)
      ensures r.Ok? ==> old(s.statuses[i]) != Succeeded
    {
      if s.statuses[i] == Succeeded {
        return Err(Conflict);
      }
      var fate: Fate := *;
      var cancelRequested: bool := *;
      var status := if unknown then NeedsReconciliation
        else if code == "cancelled" && cancelRequested then Cancelled else Failed;
      r := Mark(i, status, fate);
    }
  }

  // Each call by itself.

  lemma StillDrifted(s: State)
    ensures Drifted(s, s) && Calm(s, s)
  {
    assert forall x :: EnvKey(s, s, x);
  }

  lemma CalmAgain(s: State, t: State, u: State)
    requires Calm(s, t) && Calm(t, u)
    ensures Calm(s, u)
  {
    forall x ensures CalmKey(s, u, x) {
      assert CalmKey(s, t, x) && CalmKey(t, u, x);
    }
  }

  lemma NothingWritten(s: State, log: seq<Event>, k: Key)
    requires KeyOk(s, log, k) && !HasPut(log, k)
    ensures NothingOurs(s, k)
  {
    assert forall b :: !Wrote(log, k, b);
  }

  lemma PutRequested(s: State, log: seq<Event>, e: Event)
    requires e.Put? && KeyOk(s, log, e.key) && !HasPut(log, e.key) && e.receipt == s.receipts[e.key] && EventOk(e)
    requires NothingOurs(s, e.key)
    ensures KeyOk(s, log + [e], e.key)
  {
    var more := log + [e];
    LogGrows(log, e, e.key);
    assert forall i :: 0 <= i < |log| ==> more[i] == log[i];
    forall i | 0 <= i < |more| && more[i].Put? && more[i].key == e.key
      ensures Recorded(s.receipts[e.key], more[i].content)
    {
      assert i == |log|;
    }
  }

  lemma PutTakesEffect(s: State, t: State, log: seq<Event>, k: Key, content: Bytes)
    requires KeyOk(s, log, k) && NothingOurs(s, k) && s.receipts[k].status == Pending && s.receipts[k].writeStarted
    requires Wrote(log, k, content)
    requires
      || t == s
      || (k !in s.store && t == s.(store := s.store[k := Blob(content, false)]))
      || t == s.(writes := s.writes[k := content])
    ensures KeyOk(t, log, k) && SameElsewhere(s, t, k) && forall status :: PromiseKept(status, s, t, log, k)
  {
  }

  lemma RemoveTakesEffect(s: State, t: State, log: seq<Event>, k: Key)
    requires KeyOk(s, log, k) && HasRemoval(log, k) && (t.removals != s.removals ==> HasLate(log, k))
    requires t == s || t == s.(store := s.store - {k}) || t == s.(removals := s.removals + {k})
    ensures KeyOk(t, log, k) && SameElsewhere(s, t, k)
    ensures forall status :: status != Succeeded ==> PromiseKept(status, s, t, log, k)
  {
    if TwinMet(s, log, k) {
      TwinStays(s, t, log, k);
    }
  }

  lemma DigestRecorded(s: State, log: seq<Event>, k: Key, sha: Digest, size: int)
    requires KeyOk(s, log, k) && MayRecord(s.receipts[k], sha, size)
    ensures var row := s.receipts[k].(sha := Some(sha), size := Some(size), sourceVerified := true);
            var t := s.(receipts := s.receipts[k := row]);
            KeyOk(t, log, k) && forall status :: PromiseKept(status, s, t, log, k)
  {
  }

  lemma WriteBegun(plan: Plan, s: State, log: seq<Event>, k: Key, status: ItemStatus)
    requires Inv(plan, s, log) && k in Targets(plan) && MayBegin(s.receipts[k])
    requires status != Failed && status != Cancelled
    ensures var t := s.(receipts := s.receipts[k := s.receipts[k].(writeStarted := true)]);
            KeyOk(t, log, k) && PromiseKept(status, s, t, log, k)
  {
    assert KeyOk(s, log, k);
  }

  lemma ObjectConfirmed(s: State, log: seq<Event>, k: Key)
    requires KeyOk(s, log, k) && Holds(s, k) && s.receipts[k].writeStarted && s.receipts[k].status != Removed
    ensures var t := s.(receipts := s.receipts[k := s.receipts[k].(status := Verified)]);
            KeyOk(t, log, k) && forall status :: PromiseKept(status, s, t, log, k)
  {
    var t := s.(receipts := s.receipts[k := s.receipts[k].(status := Verified)]);
    TwinOrSettled(s, log, k);
    if TwinMet(s, log, k) {
      TwinStays(s, t, log, k);
    }
  }

  /** Where matching bytes were read, either no write of the key can land any more, or the bytes are a foreign twin. */
  lemma TwinOrSettled(s: State, log: seq<Event>, k: Key)
    requires KeyOk(s, log, k) && Holds(s, k)
    ensures k !in s.writes || TwinMet(s, log, k)
  {
    if k in s.writes {
      assert Wrote(log, k, s.writes[k]);
      assert Recorded(s.receipts[k], s.writes[k]);
      assert s.store[k].bytes == s.writes[k];
    }
  }

  lemma RemovalConfirmed(s: State, log: seq<Event>, k: Key)
    requires KeyOk(s, log, k) && (NothingOurs(s, k) || TwinMet(s, log, k))
    ensures var t := s.(receipts := s.receipts[k := s.receipts[k].(status := Removed)]);
            KeyOk(t, log, k) && forall status :: status != Succeeded ==> PromiseKept(status, s, t, log, k)
  {
    var t := s.(receipts := s.receipts[k := s.receipts[k].(status := Removed)]);
    if TwinMet(s, log, k) {
      TwinStays(s, t, log, k);
    }
  }
}
