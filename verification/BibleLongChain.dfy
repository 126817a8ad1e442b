/**
  A run of commands, each under its own key, that all succeed and still record a history that cannot be copied:
  merging characters one into the next gives a redirect chain longer than the validator follows.
 */
module BibleLongChain {
  import opened Wrappers
  import opened Ids
  import opened Rows
  import opened BibleContent
  import opened BibleHistory
  import opened BibleInvariant
  import opened BibleCommands
  import opened BibleRuns

  const ORG: Id := 1
  const PROJECT: Id := 1
  const ACTOR: Id := 1
  const NAMED := Labels("name", [], [])

  function IdsOf(k: nat): NewIdentities {
    NewIdentities(7 * k + 1, 7 * k + 2, 7 * k + 3, 7 * k + 4, 7 * k + 5, 7 * k + 6, 7 * k + 7)
  }

  function EnvOf(k: nat): Env {
    Env(1, IdsOf(k), map[], None, None, true, true, true)
  }

  /** Step `k` of creating `n + 1` characters, confirming each, and merging each but the last into the next. */
  function StepAt(n: nat, k: nat): Step {
    var m := n + 1;
    Step(ACTOR,
      if k < m then Command(k + 1, Character, NIL, 0, Create(NAMED))
      else if k < 2 * m then Command(k + 1, Character, Entry(k - m), 1, Confirm)
      else Command(k + 1, Character, Entry(k - 2 * m), 2, Merge(Entry(k - 2 * m + 1), 2)),
      EnvOf(k))
  }

  function Steps(n: nat, count: nat): seq<Step> {
    seq(count, k requires 0 <= k < count => StepAt(n, k))
  }

  function Entry(i: nat): Id {
    7 * i + 1
  }

  function VersionOf(i: nat): Version {
    FirstVersionOf(ORG, PROJECT, ACTOR, Character, 7 * i + 2, Entry(i), NewBody(Character, NAMED, 7 * i + 3), 1)
  }

  function HeadOf(i: nat, revision: int, redirect: Option<Id>): Head {
    Head(Entry(i), ORG, PROJECT, Character, revision, 7 * i + 2,
         if revision == 1 then None else Some(7 * i + 2), redirect, false, 1, 1)
  }

  ghost predicate Holds(h: History, i: nat, x: Head) {
    && Entry(i) in Heads(h) && Heads(h)[Entry(i)] == x
    && 7 * i + 2 in Versions(h) && Versions(h)[7 * i + 2] == VersionOf(i)
  }

  ghost predicate Below(h: History, k: nat) {
    forall id :: id in AllIds(h) ==> id <= 7 * k
  }

  ghost predicate Succeeds(h: History, n: nat, k: nat) {
    Change(h, ORG, PROJECT, ACTOR, StepAt(n, k).command, EnvOf(k)).Success?
  }

  /** The history once step `k` ran on it. */
  ghost function Done(h: History, n: nat, k: nat): History {
    match Change(h, ORG, PROJECT, ACTOR, StepAt(n, k).command, EnvOf(k))
    case Success(r) => r.0
    case Failure(_) => h
  }

  lemma BelowIsFresh(h: History, k: nat)
    requires Below(h, k)
    ensures FreshFor(h, IdsOf(k))
  {
    var all := IdsOf(k).All();
    assert forall i :: 0 <= i < 7 ==> all[i] == 7 * k + 1 + i;
  }

  lemma VersionOfValid(i: nat)
    ensures VersionOf(i).Valid()
  {
    var c := VersionOf(i).body.character;
    assert OnlyDefault(c.looks, 0);
  }

  lemma CreateEffect(h: History, n: nat, k: nat)
    requires Below(h, k) && k <= n
    ensures var g := Done(h, n, k);
            && Heads(g) == Heads(h)[Entry(k) := HeadOf(k, 1, None)]
            && Versions(g) == Versions(h)[7 * k + 2 := VersionOf(k)]
            && g.redirects == h.redirects && Below(g, k + 1) && Succeeds(h, n, k)
  {
    var s, v, x := StepAt(n, k), VersionOf(k), HeadOf(k, 1, None);
    VersionOfValid(k);
    BelowIsFresh(h, k);
    FreshParts(h, IdsOf(k));
    assert 7 * k + 3 == IdsOf(k).All()[2];
    assert forall l | l in v.Looks() :: l.id !in LookRows(h);
    assert CreatedVersion(ORG, PROJECT, ACTOR, s.command, s.env) == Success(v);
    assert Change(h, ORG, PROJECT, ACTOR, s.command, s.env).value.0 == EntryAdded(h, x, v);
    EntryTables(h, x, v);
    EntryAddedMembers(h, x, v);
    NewLooksAre(h.looks, v.Looks(), 7 * k + 3);
  }

  function ConfirmedRow(i: nat, k: nat): Confirmation {
    Confirmation(7 * k + 4, Character, Entry(i), 7 * i + 2, 2, ACTOR, 1)
  }

  function RedirectRow(i: nat, k: nat): Link {
    Link(7 * k + 4, Entry(i), Entry(i + 1), 7 * i + 2, 7 * (i + 1) + 2, ACTOR, 1)
  }

  function Touched(x: Head): Head {
    x.(revision := x.revision + 1, updatedAt := 1)
  }

  lemma ConfirmOutcome(h: History, n: nat, k: nat, i: nat)
    requires n + 1 <= k < 2 * (n + 1) && i == k - n - 1 && Holds(h, i, HeadOf(i, 1, None))
    ensures var y := Touched(HeadOf(i, 1, None));
            Succeeds(h, n, k) && Done(h, n, k) == ConfirmationAdded(SetHead(h, y), y, ConfirmedRow(i, k))
  {
    hide Revised, Merged, SplitOff, ConfirmationAdded, SetHead;
  }

  lemma MergeOutcome(h: History, n: nat, k: nat, i: nat)
    requires 2 * (n + 1) <= k < 3 * n + 2 && i == k - 2 * (n + 1)
    requires Holds(h, i, HeadOf(i, 2, None)) && Holds(h, i + 1, HeadOf(i + 1, 2, None))
    ensures var y := Touched(HeadOf(i, 2, None));
            Succeeds(h, n, k) && Done(h, n, k) == RedirectAdded(SetHead(h, y), y, RedirectRow(i, k))
  {
    hide Revised, SplitOff, RedirectAdded, SetHead;
  }

  /** The tables after one head moved on twice, once with a record beside it. */
  lemma RecordTables(h: History, g: History, x: Head, y: Head, z: Head)
    requires x.id in Heads(h) && y.id == x.id == z.id
    requires g.heads == SetHead(SetHead(h, y), z).heads && g.versions == h.versions && g.looks == h.looks
    ensures Heads(g) == Heads(h)[x.id := z] && EntryIds(g) == EntryIds(h)
  {
    hide Index, NoDup;
    ReplaceTwice(h.heads, HeadId, y, z);
    ReplaceIndex(h.heads, HeadId, z);
  }

  lemma ConfirmTables(h: History, x: Head, y: Head, c: Confirmation, k: nat)
    requires NoDup(Keys(h.heads, HeadId)) && x.id in Heads(h) && y.id == x.id && Below(h, k) && c.id <= 7 * (k + 1)
    ensures var g := ConfirmationAdded(SetHead(h, y), y, c);
            && Heads(g) == Heads(h)[x.id := y.(confirmed := Some(c.version))]
            && Versions(g) == Versions(h) && g.redirects == h.redirects && Below(g, k + 1)
  {
    var g := ConfirmationAdded(SetHead(h, y), y, c);
    RecordTables(h, g, x, y, y.(confirmed := Some(c.version)));
    KeysAppend(h.confirmations, c, ConfirmationId);
    forall id | id in AllIds(g) ensures id <= 7 * (k + 1) {
      assert id in EntryIds(h) || id in RecordIds(h) || id == c.id;
      assert id in AllIds(h) || id == c.id;
    }
  }

  lemma MergeTables(h: History, x: Head, y: Head, r: Link, k: nat)
    requires NoDup(Keys(h.heads, HeadId)) && x.id in Heads(h) && y.id == x.id && Below(h, k) && r.id <= 7 * (k + 1)
    ensures var g := RedirectAdded(SetHead(h, y), y, r);
            && Heads(g) == Heads(h)[x.id := y.(redirect := Some(r.target))]
            && Versions(g) == Versions(h) && Below(g, k + 1)
            && Redirects(g) == Redirects(h)[r.source := r] && |g.redirects| == |h.redirects| + 1
  {
    var g := RedirectAdded(SetHead(h, y), y, r);
    RecordTables(h, g, x, y, y.(redirect := Some(r.target)));
    KeysAppend(h.redirects, r, LinkId);
    IndexAppend(h.redirects, r, LinkSource);
    forall id | id in AllIds(g) ensures id <= 7 * (k + 1) {
      assert id in EntryIds(h) || id in RecordIds(h) || id == r.id;
      assert id in AllIds(h) || id == r.id;
    }
  }

  lemma ConfirmEffect(h: History, n: nat, k: nat, i: nat)
    requires n + 1 <= k < 2 * (n + 1) && i == k - n - 1 && Below(h, k) && NoDup(Keys(h.heads, HeadId))
    requires Holds(h, i, HeadOf(i, 1, None))
    ensures var g := Done(h, n, k);
            && Heads(g) == Heads(h)[Entry(i) := HeadOf(i, 2, None)]
            && Versions(g) == Versions(h) && g.redirects == h.redirects && Below(g, k + 1) && Succeeds(h, n, k)
  {
    hide Done, Succeeds, ConfirmationAdded, SetHead, Below;
    ConfirmOutcome(h, n, k, i);
    ConfirmTables(h, HeadOf(i, 1, None), Touched(HeadOf(i, 1, None)), ConfirmedRow(i, k), k);
  }

  lemma MergeEffect(h: History, n: nat, k: nat, i: nat)
    requires 2 * (n + 1) <= k < 3 * n + 2 && i == k - 2 * (n + 1) && Below(h, k) && NoDup(Keys(h.heads, HeadId))
    requires Holds(h, i, HeadOf(i, 2, None)) && Holds(h, i + 1, HeadOf(i + 1, 2, None))
    ensures var g := Done(h, n, k);
            && Heads(g) == Heads(h)[Entry(i) := HeadOf(i, 3, Some(Entry(i + 1)))]
            && Versions(g) == Versions(h) && Below(g, k + 1)
            && Redirects(g) == Redirects(h)[Entry(i) := RedirectRow(i, k)]
            && |g.redirects| == |h.redirects| + 1 && Succeeds(h, n, k)
  {
    hide Done, Succeeds, RedirectAdded, SetHead, Below;
    MergeOutcome(h, n, k, i);
    MergeTables(h, HeadOf(i, 2, None), Touched(HeadOf(i, 2, None)), RedirectRow(i, k), k);
  }

  /** Where character `i` stands after `k` steps. */
  function StateOf(n: nat, k: nat, i: nat): Head {
    if 2 * (n + 1) + i < k then HeadOf(i, 3, Some(Entry(i + 1)))
    else if n + 1 + i < k then HeadOf(i, 2, None)
    else HeadOf(i, 1, None)
  }

  ghost predicate HoldsAt(h: History, n: nat, k: nat, i: nat) {
    Holds(h, i, StateOf(n, k, i))
  }

  ghost predicate Reached(h: History, n: nat, k: nat) {
    && Below(h, k) && |h.redirects| == (if k < 2 * (n + 1) then 0 else k - 2 * (n + 1))
    && (forall i: nat :: i < k && i <= n ==> HoldsAt(h, n, k, i))
    && (forall i: nat :: i < n && 2 * (n + 1) + i < k ==>
          Entry(i) in Redirects(h) && Redirects(h)[Entry(i)].target == Entry(i + 1))
  }

  lemma StepReaches(h: History, n: nat, k: nat)
    requires k < 3 * n + 2 && Reached(h, n, k) && NoDup(Keys(h.heads, HeadId))
    ensures Reached(Done(h, n, k), n, k + 1) && Succeeds(h, n, k)
  {
    hide Done, Succeeds, Below, Index;
    var g := Done(h, n, k);
    if k <= n {
      CreateEffect(h, n, k);
    } else if k < 2 * (n + 1) {
      var i := k - n - 1;
      assert HoldsAt(h, n, k, i);
      ConfirmEffect(h, n, k, i);
    } else {
      var i := k - 2 * (n + 1);
      assert HoldsAt(h, n, k, i) && HoldsAt(h, n, k, i + 1);
      MergeEffect(h, n, k, i);
    }
    var m := k + 1;
    forall i: nat | i < m && i <= n ensures HoldsAt(g, n, m, i) {
      assert i < k ==> HoldsAt(h, n, k, i);
    }
  }

  /** The run so far: proper, every step a success, and one key used for each step. */
  ghost predicate Progress(n: nat, k: nat) {
    && Proper(ORG, PROJECT, Steps(n, k)) && Reached(RunAll(ORG, PROJECT, Steps(n, k)), n, k)
    && LastTime(Steps(n, k)) <= 1 && (forall p | p in Answered(ORG, PROJECT, Steps(n, k)) :: p.1 <= k)
    && forall j :: 0 <= j < k ==> TakesNext(ORG, PROJECT, Steps(n, j), StepAt(n, j))
  }

  /** Its key is not answered yet, so step `k` is done. */
  lemma NextIsDone(n: nat, k: nat)
    requires Succeeds(RunAll(ORG, PROJECT, Steps(n, k)), n, k)
    requires forall p | p in Answered(ORG, PROJECT, Steps(n, k)) :: p.1 <= k
    ensures TakesNext(ORG, PROJECT, Steps(n, k), StepAt(n, k))
    ensures var h := RunAll(ORG, PROJECT, Steps(n, k));
            After(h, Answered(ORG, PROJECT, Steps(n, k)), ORG, PROJECT, StepAt(n, k)) == Done(h, n, k)
  {
    hide Change, RunAll, Answered;
  }

  lemma NextProgress(n: nat, k: nat)
    requires k < 3 * n + 2 && Progress(n, k)
    ensures Progress(n, k + 1)
  {
    hide Change, After, Done, TakesNext, Reached, Below, FreshFor, Succeeds, Inv, RunAll, Proper, Answered, IdsOk;
    var front := Steps(n, k);
    var h := RunAll(ORG, PROJECT, front);
    RunKeepsInv(ORG, PROJECT, front);
    DistinctHeads(h, LastTime(front));
    StepReaches(h, n, k);
    NextIsDone(n, k);
    ReachedIsFresh(h, n, k);
    ProperNext(ORG, PROJECT, front, StepAt(n, k));
    assert front + [StepAt(n, k)] == Steps(n, k + 1);
  }

  lemma DistinctHeads(h: History, t: Time)
    requires Inv(h, ORG, PROJECT, t)
    ensures NoDup(Keys(h.heads, HeadId))
  {
    TableIds(h);
  }

  lemma ReachedIsFresh(h: History, n: nat, k: nat)
    requires Reached(h, n, k)
    ensures FreshFor(h, IdsOf(k))
  {
    BelowIsFresh(h, k);
  }

  lemma {:induction false} RunReaches(n: nat, k: nat)
    requires k <= 3 * n + 2
    ensures Progress(n, k)
  {
    if k == 0 {
      assert AllIds(EMPTY) == [];
    } else {
      hide Progress;
      RunReaches(n, k - 1);
      NextProgress(n, k - 1);
    }
  }

  lemma {:induction false} LongChain(redirects: map<Id, Link>, n: nat, i: nat, steps: nat)
    requires forall j: nat :: j < n ==> Entry(j) in redirects && redirects[Entry(j)].target == Entry(j + 1)
    requires i + steps < n
    ensures !Stops(redirects, Entry(i), steps)
    decreases steps
  {
    if steps > 0 {
      LongChain(redirects, n, i + 1, steps - 1);
    }
  }

  lemma LongIsInvalid(h: History, n: nat)
    requires n > MAX_REDIRECTS && Reached(h, n, 3 * n + 2)
    ensures !ValidHistory(h, ORG, PROJECT)
  {
    LongChain(Redirects(h), n, 0, MAX_REDIRECTS);
    assert HoldsAt(h, n, 3 * n + 2, 0);
    IndexHolds(h.heads, HeadId);
    hide Stops, Closed;
  }

  lemma RunEnds(n: nat)
    ensures Proper(ORG, PROJECT, Steps(n, 3 * n + 2))
    ensures Reached(RunAll(ORG, PROJECT, Steps(n, 3 * n + 2)), n, 3 * n + 2)
    ensures forall k :: 0 <= k < 3 * n + 2 ==> TakesNext(ORG, PROJECT, Steps(n, k), StepAt(n, k))
  {
    RunReaches(n, 3 * n + 2);
  }

  lemma ValidUpToBound(n: nat, h: History)
    requires Reached(h, n, 3 * n + 2) && (|h.redirects| <= MAX_REDIRECTS ==> ValidHistory(h, ORG, PROJECT))
    ensures |h.redirects| == n && (ValidHistory(h, ORG, PROJECT) <==> n <= MAX_REDIRECTS)
  {
    hide ValidHistory, Below, HoldsAt;
    if n > MAX_REDIRECTS {
      LongIsInvalid(h, n);
    }
  }

  /**
    Merging `n` characters in a row succeeds at every step, for every `n`; the result can be copied exactly if `n`
    is at most 32.
   */
  lemma LongMergeRun(n: nat)
    ensures Proper(ORG, PROJECT, Steps(n, 3 * n + 2))
    ensures forall k :: 0 <= k < 3 * n + 2 ==> TakesNext(ORG, PROJECT, Steps(n, k), StepAt(n, k))
    ensures |RunAll(ORG, PROJECT, Steps(n, 3 * n + 2)).redirects| == n
    ensures ValidHistory(RunAll(ORG, PROJECT, Steps(n, 3 * n + 2)), ORG, PROJECT) <==> n <= MAX_REDIRECTS
  {
    RunEnds(n);
    RunChainsStop(ORG, PROJECT, Steps(n, 3 * n + 2), NIL);
    hide *;
    ValidUpToBound(n, RunAll(ORG, PROJECT, Steps(n, 3 * n + 2)));
  }
}
