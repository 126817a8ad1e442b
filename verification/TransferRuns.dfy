/** Whole histories of a copy: any number of runs, with whatever happens between and during them. */
module TransferRuns {
  import opened Wrappers
  import opened TransferWorld
  import opened TransferSteps
  import opened TransferPorts
  import opened TransferItem
  import opened TransferWorker

  /** Over all runs at most one content is ever written to a key. */
  lemma OneWrite(log: seq<Event>, k: Key, a: Bytes, b: Bytes)
    requires LogOk(log) && Wrote(log, k, a) && Wrote(log, k, b)
    ensures a == b
  {
    var i :| 0 <= i < |log| && log[i].Put? && log[i].key == k && log[i].content == a;
    var j :| 0 <= j < |log| && log[j].Put? && log[j].key == k && log[j].content == b;
    assert i == j;
  }

  lemma DriftIsOnward(plan: Plan, s: State, t: State)
    requires |s.statuses| == |plan| && Drifted(s, t)
    ensures Onward(plan, s, t)
  {
    forall x ensures EnvKey(s, t, x) && Grown(s, t, x) && SecureKept(s, t, x) {
      assert EnvKey(s, t, x);
      UntouchedGrows(s, t, x);
      SecureStays(s, t, x);
    }
  }

  // Published bytes.

  /**
    A published object keeps its bytes, whatever runs, failures and crashes follow, exactly if no removal of it is
    outstanding.
   */
  lemma PublishedStaysIff(plan: Plan, s: State, i: nat, j: nat)
    requires |s.statuses| == |plan| && Within(plan, i, j)
    requires s.statuses[i] == Succeeded && Holds(s, plan[i][j].target)
    ensures var k := plan[i][j].target;
            (forall t :: Onward(plan, s, t) ==> k in t.store && t.store[k] == s.store[k]) <==> k !in s.removals
  {
    var k := plan[i][j].target;
    if k in s.removals {
      StaysIff(s, k);
      var t :| Drifted(s, t) && !(k in t.store && t.store[k] == s.store[k]);
      DriftIsOnward(plan, s, t);
    } else {
      assert Secure(s, k);
      forall t | Onward(plan, s, t) ensures k in t.store && t.store[k] == s.store[k] {
        assert SecureKept(s, t, k);
      }
    }
  }

  /** A removal is outstanding only after one of the key went without an answer. */
  lemma AnsweredIsSecure(plan: Plan, s: State, log: seq<Event>, i: nat, j: nat)
    requires Inv(plan, s, log) && Within(plan, i, j) && s.statuses[i] == Succeeded && !HasLate(log, plan[i][j].target)
    ensures Secure(s, plan[i][j].target)
  {
    OwnKey(plan, i, j);
    assert KeyOk(s, log, plan[i][j].target);
    ItemOutcomes(plan, s, log, i, j);
  }

  // Bytes of other origin.

  /**
    Bytes at a target that never match its recorded digest are neither replaced nor removed, as long as no removal
    of the key was outstanding to begin with.
   */
  lemma ForeignBytesStay(plan: Plan, states: seq<State>, k: Key, n: nat)
    requires n < |states| && forall m :: 0 <= m < |states| - 1 ==> Onward(plan, states[m], states[m + 1])
    requires k in Targets(plan) && Blocks(states[0], states[n], k)
    ensures k in states[n].store && states[n].store[k] == states[0].store[k] && k !in states[n].removals
  {
    if n == 0 {
    } else {
      OnwardFrom(plan, states, n);
      assert Grown(states[0], states[n], k);
    }
  }

  lemma {:induction false} OnwardFrom(plan: Plan, states: seq<State>, n: nat)
    requires 0 < n < |states| && forall m :: 0 <= m < |states| - 1 ==> Onward(plan, states[m], states[m + 1])
    ensures Onward(plan, states[0], states[n])
    decreases n
  {
    if n == 1 {
      assert Onward(plan, states[0], states[0 + 1]);
    } else {
      OnwardFrom(plan, states, n - 1);
      assert Onward(plan, states[n - 1], states[n - 1 + 1]);
      OnwardTwice(plan, states[0], states[n - 1], states[n]);
    }
  }

  // The condition is needed: a run that loses published bytes.

  const ONE: Plan := [[Frozen(1, 2)]]
  const CONTENT: Bytes := [7]
  const WRITTEN := Receipt(Pending, Some(Sha(CONTENT)), Some(1), true, true)

  /** The state of this run; only what changes in it is named. */
  function At(held: bool, removals: set<Key>, row: Receipt, status: ItemStatus): State {
    State(if held then map[1 := Blob(CONTENT, true), 2 := Blob(CONTENT, false)] else map[1 := Blob(CONTENT, true)],
          map[], removals, {(1, CONTENT)}, map[2 := row], [status])
  }

  const RECORDED := WRITTEN.(writeStarted := false)
  const VERIFIED := WRITTEN.(status := Verified)

  /** The first run reads the source and makes digest and intent durable. */
  function Begun(): seq<(Call, State)> {
    [ (StartCall(0, Ok(false)), At(false, {}, NEW_RECEIPT, Running)),
      (ObjectsCall(0, Ok([NEW_RECEIPT])), At(false, {}, NEW_RECEIPT, Running)),
      (GetCall(1, Ok(CONTENT)), At(false, {}, NEW_RECEIPT, Running)),
      (RecordCall(0, 0, Sha(CONTENT), 1, Ok(())), At(false, {}, RECORDED, Running)),
      (BeginCall(0, 0, Ok(())), At(false, {}, WRITTEN, Running)) ]
  }

  /** It writes the object and confirms it, but the item is not published. */
  function Copied(error: Error): seq<(Call, State)> {
    [ (PutCall(0, 0, CONTENT, Ok(())), At(true, {}, WRITTEN, Running)),
      (GetCall(2, Ok(CONTENT)), At(true, {}, WRITTEN, Running)),
      (ConfirmCall(0, 0, Sha(CONTENT), 1, Ok(())), At(true, {}, VERIFIED, Running)),
      (PublishCall(0, Err(error)), At(true, {}, VERIFIED, Running)) ]
  }

  /** Its cleanup asks for a removal that gets no answer, so the item is left in doubt. */
  function CleanedUp(error: Error): seq<(Call, State)> {
    [ (ObjectsCall(0, Ok([VERIFIED])), At(true, {}, VERIFIED, Running)),
      (AuthorizeCall(0, 0, Ok(())), At(true, {}, VERIFIED, Running)),
      (ExistsCall(2, Ok(true)), At(true, {}, VERIFIED, Running)),
      (GetCall(2, Ok(CONTENT)), At(true, {}, VERIFIED, Running)),
      (RemoveCall(0, 0, Err(error)), At(true, {2}, VERIFIED, Running)),
      (FailCall(0, true, Ok(())), At(true, {2}, VERIFIED, NeedsReconciliation)) ]
  }

  /** The next run reads the object back and publishes the item; then the removal lands. */
  function PublishedThenLost(): seq<(Call, State)> {
    [ (StartCall(0, Ok(false)), At(true, {2}, VERIFIED, Running)),
      (ObjectsCall(0, Ok([VERIFIED])), At(true, {2}, VERIFIED, Running)),
      (GetCall(2, Ok(CONTENT)), At(true, {2}, VERIFIED, Running)),
      (PublishCall(0, Ok(())), At(true, {2}, VERIFIED, Succeeded)),
      (EnvironmentStep, At(false, {}, VERIFIED, Succeeded)) ]
  }

  function Before(s: State, steps: seq<(Call, State)>, n: nat): State
    requires n <= |steps|
  {
    if n == 0 then s else steps[n - 1].1
  }

  /** A run of calls: each is one that its port allows, and takes one state to the next. */
  ghost predicate Run(plan: Plan, s: State, steps: seq<(Call, State)>) {
    forall n :: 0 <= n < |steps| ==> Allowed(plan, Before(s, steps, n), steps[n].0, steps[n].1)
  }

  lemma RunOn(plan: Plan, s: State, a: seq<(Call, State)>, b: seq<(Call, State)>)
    requires Run(plan, s, a) && Run(plan, Before(s, a, |a|), b)
    ensures Run(plan, s, a + b)
  {
    hide Allowed;
    forall n | 0 <= n < |a + b| ensures Allowed(plan, Before(s, a + b, n), (a + b)[n].0, (a + b)[n].1) {
      if n < |a| {
        assert Before(s, a + b, n) == Before(s, a, n);
      } else {
        assert Before(s, a + b, n) == Before(Before(s, a, |a|), b, n - |a|);
      }
    }
  }

  lemma Quiet(held: bool, removals: set<Key>, row: Receipt, status: ItemStatus)
    ensures Drifted(At(held, removals, row, status), At(held, removals, row, status))
  {
    StillDrifted(At(held, removals, row, status));
  }

  lemma BegunRuns()
    ensures Run(ONE, At(false, {}, NEW_RECEIPT, Queued), Begun())
  {
    Quiet(false, {}, NEW_RECEIPT, Running);
  }

  lemma CopiedRuns(error: Error)
    ensures Run(ONE, At(false, {}, WRITTEN, Running), Copied(error))
  {
    Quiet(true, {}, WRITTEN, Running);
  }

  lemma CleanedUpRuns(error: Error)
    ensures Run(ONE, At(true, {}, VERIFIED, Running), CleanedUp(error))
  {
    Quiet(true, {}, VERIFIED, Running);
  }

  lemma PublishedThenLostRuns()
    ensures Run(ONE, At(true, {2}, VERIFIED, NeedsReconciliation), PublishedThenLost())
  {
    Quiet(true, {2}, VERIFIED, Running);
    var s, t := At(true, {2}, VERIFIED, Succeeded), At(false, {}, VERIFIED, Succeeded);
    assert Drifted(s, t) by {
      assert forall x :: EnvKey(s, t, x);
    }
  }

  /**
    The bytes of a published item can be lost. A copied object whose item could not be published is cleaned up, and
    the removal gets no answer; the next run finds the object in place and publishes it; then the removal lands.
   */
  lemma PublishedBytesLost(publishing: Error, removing: Error)
    requires !publishing.Reconcile?
    ensures var steps := Begun() + Copied(publishing) + CleanedUp(removing) + PublishedThenLost();
            && Run(ONE, At(false, {}, NEW_RECEIPT, Queued), steps)
            && Before(At(false, {}, NEW_RECEIPT, Queued), steps, |steps| - 1) == At(true, {2}, VERIFIED, Succeeded)
            && steps[|steps| - 1].1 == At(false, {}, VERIFIED, Succeeded)
  {
    hide Run;
    BegunRuns();
    CopiedRuns(publishing);
    CleanedUpRuns(removing);
    PublishedThenLostRuns();
    var first := At(false, {}, NEW_RECEIPT, Queued);
    var copied := Begun() + Copied(publishing);
    RunOn(ONE, first, Begun(), Copied(publishing));
    RunOn(ONE, first, copied, CleanedUp(removing));
    RunOn(ONE, first, copied + CleanedUp(removing), PublishedThenLost());
  }
}
