/**
  Durable receipts and the object store as one copying worker sees them. Every call may fail, take effect
  and still fail, or be the last one before a crash; a write or a removal without an answer may land later.
  Bytes of other origin may sit at any key, or appear at one that is free.
 */
module TransferWorld {
  import opened Wrappers

  type Key = nat
  type Bytes = seq<nat>

  /** An ideal digest: equal exactly for equal bytes. */
  datatype Digest = Sha(bytes: Bytes)

  const MAX_BYTES := 0x8000_0000

  datatype Status = Pending | Verified | Removed

  /** The durable row of one object. */
  datatype Receipt = Receipt(
    status: Status, sha: Option<Digest>, size: Option<int>, sourceVerified: bool, writeStarted: bool)

  const NEW_RECEIPT := Receipt(Pending, None, None, false, false)

  datatype ItemStatus = Queued | Running | Succeeded | Failed | Cancelled | NeedsReconciliation

  /** The frozen part of an object: where it is read and where its copy goes. */
  datatype Frozen = Frozen(source: Key, target: Key)

  datatype Error =
    | Mismatch | AlreadyExists | NotFound | Unavailable | Conflict | ContextCanceled | TransferCancelled
    | ItemError(code: string) | Reconcile(reason: string)

  datatype Reply<+T> = Ok(value: T) | Err(error: Error) | Crash

  /** The work was called off, by its context or by its owner. */
  predicate CalledOff(e: Error) {
    e.ContextCanceled? || e.TransferCancelled? || e == ItemError("cancelled")
  }

  /** A stored object. No call shows whether the worker wrote it or it is `foreign`. */
  datatype Blob = Blob(bytes: Bytes, foreign: bool)

  /**
    `writes` and `removals` were asked for without an answer and may still land; `strangers` are the foreign
    objects that ever were at a key.
   */
  datatype State = State(
    store: map<Key, Blob>, writes: map<Key, Bytes>, removals: set<Key>, strangers: set<(Key, Bytes)>,
    receipts: map<Key, Receipt>, statuses: seq<ItemStatus>)

  /** What was asked of the object store, with the durable state at that moment, and what made it due. */
  datatype Event =
    | Put(key: Key, content: Bytes, receipt: Receipt)
    | Remove(key: Key, item: ItemStatus, receipt: Receipt, content: Bytes, late: bool)

  // The plan.

  type Plan = seq<seq<Frozen>>

  predicate Within(plan: Plan, i: int, j: int) {
    0 <= i < |plan| && 0 <= j < |plan[i]|
  }

  function Targets(plan: Plan): set<Key> {
    set i, j | 0 <= i < |plan| && 0 <= j < |plan[i]| :: plan[i][j].target
  }

  /** Target keys belong to one object each, and none of them is a source. */
  ghost predicate PlanOk(plan: Plan) {
    && (forall i, j, k, l | Within(plan, i, j) && Within(plan, k, l) ::
          plan[i][j].target == plan[k][l].target ==> i == k && j == l)
    && (forall i, j | Within(plan, i, j) :: plan[i][j].source !in Targets(plan))
  }

  // The protocol invariant.

  predicate Recorded(r: Receipt, content: Bytes) {
    r.sourceVerified && r.sha == Some(Sha(content)) && r.size == Some(|content|)
  }

  ghost predicate HasPut(log: seq<Event>, k: Key) {
    exists i :: 0 <= i < |log| && log[i].Put? && log[i].key == k
  }

  ghost predicate Wrote(log: seq<Event>, k: Key, content: Bytes) {
    exists i :: 0 <= i < |log| && log[i].Put? && log[i].key == k && log[i].content == content
  }

  /** A removal of the key was asked for. */
  ghost predicate HasRemoval(log: seq<Event>, k: Key) {
    exists i :: 0 <= i < |log| && log[i].Remove? && log[i].key == k
  }

  /** Some removal of the key stayed without an answer. */
  ghost predicate HasLate(log: seq<Event>, k: Key) {
    exists i :: 0 <= i < |log| && log[i].Remove? && log[i].key == k && log[i].late
  }

  /**
    A write is asked for after its digest and its intent are durable. A removal is asked for after bytes with the
    recorded digest were read at the key, and never for a published item.
   */
  predicate EventOk(e: Event) {
    match e
    case Put(_, content, receipt) => receipt.status == Pending && receipt.writeStarted && Recorded(receipt, content)
    case Remove(_, item, receipt, content, _) => item != Succeeded && Recorded(receipt, content)
  }

  /** Every write was asked for in order, and at most once per key. */
  ghost predicate LogOk(log: seq<Event>) {
    && (forall i :: 0 <= i < |log| ==> EventOk(log[i]))
    && (forall i, j :: 0 <= i < j < |log| && log[i].Put? && log[j].Put? ==> log[i].key != log[j].key)
  }

  predicate ValidSize(size: int) {
    1 <= size <= MAX_BYTES
  }

  predicate ReceiptOk(r: Receipt) {
    && (r.sourceVerified ==> r.sha.Some? && r.size.Some? && ValidSize(r.size.value))
    && (r.writeStarted ==> r.sourceVerified)
    && (r.status == Verified ==> r.writeStarted)
  }

  /** The worker's own bytes are at the key. */
  predicate Ours(s: State, k: Key) {
    k in s.store && !s.store[k].foreign
  }

  /** Foreign bytes equal to the ones the worker wrote were met at the key. */
  ghost predicate TwinMet(s: State, log: seq<Event>, k: Key) {
    exists c :: Wrote(log, k, c) && (k, c) in s.strangers
  }

  /** The worker left nothing at the key, and no write of it can land any more. */
  predicate NothingOurs(s: State, k: Key) {
    !Ours(s, k) && k !in s.writes
  }

  ghost predicate KeyOk(s: State, log: seq<Event>, k: Key) {
    && k in s.receipts && ReceiptOk(s.receipts[k])
    && (Ours(s, k) ==> k !in s.writes && Wrote(log, k, s.store[k].bytes))
    && (k in s.store && s.store[k].foreign ==> (k, s.store[k].bytes) in s.strangers)
    && (k in s.writes ==> Wrote(log, k, s.writes[k]))
    && (k in s.removals ==> HasLate(log, k))
    && (HasPut(log, k) ==> s.receipts[k].writeStarted)
    && (forall i :: 0 <= i < |log| && log[i].Put? && log[i].key == k ==> Recorded(s.receipts[k], log[i].content))
    && (s.receipts[k].status == Verified ==> k !in s.writes || TwinMet(s, log, k))
    && (s.receipts[k].status == Verified ==> Holds(s, k) || HasRemoval(log, k))
    && (s.receipts[k].status == Removed ==> NothingOurs(s, k) || TwinMet(s, log, k))
  }

  predicate Gone(s: State, k: Key) {
    k in s.receipts && (s.receipts[k].status == Removed || !s.receipts[k].writeStarted)
  }

  /** The target holds the recorded bytes. */
  predicate Holds(s: State, k: Key) {
    k in s.store && k in s.receipts && Recorded(s.receipts[k], s.store[k].bytes)
  }

  /** The object was verified, and is there unless a removal without an answer may have taken it. */
  ghost predicate Published(s: State, log: seq<Event>, k: Key) {
    k in s.receipts && s.receipts[k].status == Verified && (Holds(s, k) || HasLate(log, k))
  }

  /** It is there, and no removal can land on it any more. */
  predicate Secure(s: State, k: Key) {
    Holds(s, k) && k !in s.removals
  }

  ghost predicate ItemOk(s: State, log: seq<Event>, status: ItemStatus, objects: seq<Frozen>) {
    && (status == Succeeded ==> forall j :: 0 <= j < |objects| ==> Published(s, log, objects[j].target))
    && (status == Failed || status == Cancelled ==> forall j :: 0 <= j < |objects| ==> Gone(s, objects[j].target))
  }

  ghost predicate ItemsOk(plan: Plan, s: State, log: seq<Event>) {
    |s.statuses| == |plan| && forall i :: 0 <= i < |plan| ==> ItemOk(s, log, s.statuses[i], plan[i])
  }

  ghost predicate Inv(plan: Plan, s: State, log: seq<Event>) {
    && LogOk(log)
    && (forall k | k in Targets(plan) :: KeyOk(s, log, k))
    && (forall k | k in s.writes :: k in Targets(plan)) && s.removals <= Targets(plan)
    && ItemsOk(plan, s, log)
  }

  /** The row of an object; unplanned keys have none. */
  function Row(s: State, k: Key): Receipt {
    if k in s.receipts then s.receipts[k] else NEW_RECEIPT
  }

  // What the invariant means.

  /** The worker's own bytes at a target are exactly those whose digest was recorded from the source. */
  lemma StoredMatchesDigest(plan: Plan, s: State, log: seq<Event>, k: Key)
    requires Inv(plan, s, log) && k in Targets(plan) && Ours(s, k)
    ensures Recorded(s.receipts[k], s.store[k].bytes)
  {
    assert KeyOk(s, log, k);
  }

  /**
    A verified object holds the bytes whose digest was recorded from the source, whatever its item came to, unless
    the worker asked for its removal.
   */
  lemma VerifiedMeansStored(plan: Plan, s: State, log: seq<Event>, k: Key)
    requires Inv(plan, s, log) && k in Targets(plan)
    requires s.receipts[k].status == Verified && !HasRemoval(log, k)
    ensures Holds(s, k)
  {
    assert KeyOk(s, log, k);
  }

  /**
    An object of a published item holds the recorded bytes unless a removal of it went without an answer; of a
    failed or cancelled item nothing of the worker is left, now or by a write that lands later, unless foreign
    bytes equal to its own were met there.
   */
  lemma ItemOutcomes(plan: Plan, s: State, log: seq<Event>, i: nat, j: nat)
    requires Inv(plan, s, log) && Within(plan, i, j)
    ensures var k := plan[i][j].target;
            && (s.statuses[i] == Succeeded ==> Row(s, k).status == Verified && (Holds(s, k) || HasLate(log, k)))
            && (s.statuses[i] == Failed || s.statuses[i] == Cancelled ==> NothingOurs(s, k) || TwinMet(s, log, k))
  {
    var k := plan[i][j].target;
    assert k in Targets(plan) && KeyOk(s, log, k) && ItemOk(s, log, s.statuses[i], plan[i]);
    if s.statuses[i] == Succeeded {
      assert Published(s, log, k);
    }
    if s.statuses[i] == Failed || s.statuses[i] == Cancelled {
      assert Gone(s, k);
      NeverWritten(s, log, k);
    }
  }

  lemma NeverWritten(s: State, log: seq<Event>, k: Key)
    requires KeyOk(s, log, k) && Gone(s, k)
    ensures NothingOurs(s, k) || TwinMet(s, log, k)
  {
    if s.receipts[k].status != Removed {
      assert !HasPut(log, k);
      assert Ours(s, k) ==> HasPut(log, k);
      assert k in s.writes ==> HasPut(log, k);
    }
  }

  // What happens at a key without the worker.

  /** Unanswered requests may land or be lost, and foreign bytes may appear where there are none. */
  ghost predicate EnvKey(s: State, t: State, x: Key) {
    && (x in s.store ==> x in s.removals || (x in t.store && t.store[x] == s.store[x]))
    && (x in t.store ==>
          || (x in s.store && t.store[x] == s.store[x])
          || (t.store[x].foreign && (x, t.store[x].bytes) in t.strangers)
          || (x in s.writes && x !in t.writes && t.store[x] == Blob(s.writes[x], false)))
    && (x in t.writes ==> x in s.writes && t.writes[x] == s.writes[x])
    && (x in t.removals ==> x in s.removals)
  }

  ghost predicate Drifted(s: State, t: State) {
    && t.receipts == s.receipts && t.statuses == s.statuses && s.strangers <= t.strangers
    && forall x :: EnvKey(s, t, x)
  }

  lemma EnvKeyTwice(s: State, t: State, u: State, x: Key)
    requires EnvKey(s, t, x) && EnvKey(t, u, x) && t.strangers <= u.strangers
    ensures EnvKey(s, u, x)
  {
  }

  lemma DriftedTwice(s: State, t: State, u: State)
    requires Drifted(s, t) && Drifted(t, u)
    ensures Drifted(s, u)
  {
    forall x ensures EnvKey(s, u, x) {
      EnvKeyTwice(s, t, u, x);
    }
  }

  lemma TwinStays(s: State, t: State, log: seq<Event>, k: Key)
    requires s.strangers <= t.strangers && TwinMet(s, log, k)
    ensures TwinMet(t, log, k)
  {
    var c :| Wrote(log, k, c) && (k, c) in s.strangers;
  }

  lemma EnvKeyOk(s: State, t: State, log: seq<Event>, k: Key)
    requires KeyOk(s, log, k) && EnvKey(s, t, k) && s.strangers <= t.strangers
    requires k in t.receipts && t.receipts[k] == s.receipts[k]
    ensures KeyOk(t, log, k)
    ensures (Published(s, log, k) ==> Published(t, log, k)) && (Gone(s, k) ==> Gone(t, k))
  {
    if TwinMet(s, log, k) {
      TwinStays(s, t, log, k);
    }
  }

  lemma EnvItemOk(s: State, t: State, log: seq<Event>, status: ItemStatus, objects: seq<Frozen>)
    requires ItemOk(s, log, status, objects)
    requires forall j :: 0 <= j < |objects| ==>
               var k := objects[j].target;
               (Published(s, log, k) ==> Published(t, log, k)) && (Gone(s, k) ==> Gone(t, k))
    ensures ItemOk(t, log, status, objects)
  {
    forall j | 0 <= j < |objects| && status == Succeeded ensures Published(t, log, objects[j].target) {
      assert Published(s, log, objects[j].target);
    }
    forall j | 0 <= j < |objects| && (status == Failed || status == Cancelled) ensures Gone(t, objects[j].target) {
      assert Gone(s, objects[j].target);
    }
  }

  /** The invariant survives whatever happens without the worker. */
  lemma DriftKeeps(plan: Plan, s: State, t: State, log: seq<Event>)
    requires Inv(plan, s, log) && Drifted(s, t)
    ensures Inv(plan, t, log)
  {
    forall k | k in Targets(plan) ensures KeyOk(t, log, k) {
      assert KeyOk(s, log, k) && EnvKey(s, t, k);
      EnvKeyOk(s, t, log, k);
    }
    forall k | k in t.writes ensures k in Targets(plan) {
      assert EnvKey(s, t, k);
    }
    forall k | k in t.removals ensures k in Targets(plan) {
      assert EnvKey(s, t, k);
    }
    forall i | 0 <= i < |plan| ensures ItemOk(t, log, t.statuses[i], plan[i]) {
      assert ItemOk(s, log, s.statuses[i], plan[i]);
      forall j | 0 <= j < |plan[i]|
        ensures var k := plan[i][j].target;
                  (Published(s, log, k) ==> Published(t, log, k)) && (Gone(s, k) ==> Gone(t, k))
      {
        var k := plan[i][j].target;
        assert k in Targets(plan) && KeyOk(s, log, k) && EnvKey(s, t, k);
        EnvKeyOk(s, t, log, k);
      }
      EnvItemOk(s, t, log, s.statuses[i], plan[i]);
    }
  }

  /**
    What is at a key stays there whatever happens without the worker, exactly if no removal of the key is
    outstanding.
   */
  lemma StaysIff(s: State, k: Key)
    requires k in s.store
    ensures (forall t :: Drifted(s, t) ==> k in t.store && t.store[k] == s.store[k]) <==> k !in s.removals
  {
    var lost := s.(store := s.store - {k}, removals := s.removals - {k});
    if k in s.removals {
      assert forall x :: EnvKey(s, lost, x);
      assert Drifted(s, lost) && k !in lost.store;
    } else {
      forall t | Drifted(s, t) ensures k in t.store && t.store[k] == s.store[k] {
        assert EnvKey(s, t, k);
      }
    }
  }

  // Keeping the invariant over the worker's own steps.

  lemma KeyFrame(s: State, t: State, log: seq<Event>, k: Key)
    requires KeyOk(s, log, k)
    requires k in t.receipts && t.receipts[k] == s.receipts[k]
    requires (k in t.store <==> k in s.store) && (k in s.store ==> t.store[k] == s.store[k])
    requires (k in t.writes <==> k in s.writes) && (k in s.writes ==> t.writes[k] == s.writes[k])
    requires (k in t.removals ==> k in s.removals) && t.strangers == s.strangers
    ensures KeyOk(t, log, k)
  {
    if TwinMet(s, log, k) {
      TwinStays(s, t, log, k);
    }
  }

  lemma LogGrows(log: seq<Event>, e: Event, k: Key)
    ensures HasPut(log + [e], k) <==> HasPut(log, k) || (e.Put? && e.key == k)
    ensures HasRemoval(log + [e], k) <==> HasRemoval(log, k) || (e.Remove? && e.key == k)
    ensures HasLate(log + [e], k) <==> HasLate(log, k) || (e.Remove? && e.key == k && e.late)
    ensures forall b :: Wrote(log, k, b) ==> Wrote(log + [e], k, b)
    ensures e.Put? && e.key == k ==> Wrote(log + [e], k, e.content)
  {
    var more := log + [e];
    assert more[|log|] == e;
    assert forall i :: 0 <= i < |log| ==> more[i] == log[i];
    if i :| 0 <= i < |log| && log[i].Put? && log[i].key == k {
      assert more[i].Put? && more[i].key == k;
    }
    if i :| 0 <= i < |log| && log[i].Remove? && log[i].key == k {
      assert more[i].Remove? && more[i].key == k;
    }
    if i :| 0 <= i < |log| && log[i].Remove? && log[i].key == k && log[i].late {
      assert more[i].Remove? && more[i].key == k && more[i].late;
    }
    forall b | Wrote(log, k, b) ensures Wrote(more, k, b) {
      var i :| 0 <= i < |log| && log[i].Put? && log[i].key == k && log[i].content == b;
      assert more[i].content == b;
    }
  }

  lemma TwinInLonger(s: State, log: seq<Event>, e: Event, k: Key)
    requires TwinMet(s, log, k)
    ensures TwinMet(s, log + [e], k)
  {
    LogGrows(log, e, k);
    var c :| Wrote(log, k, c) && (k, c) in s.strangers;
  }

  /** A request that says nothing new about the writes of a key. */
  lemma KeyLog(s: State, log: seq<Event>, e: Event, k: Key)
    requires KeyOk(s, log, k) && (e.Put? ==> e.key != k)
    ensures KeyOk(s, log + [e], k)
  {
    LogGrows(log, e, k);
    if TwinMet(s, log, k) {
      TwinInLonger(s, log, e, k);
    }
    var more := log + [e];
    forall i | 0 <= i < |more| && more[i].Put? && more[i].key == k ensures Recorded(s.receipts[k], more[i].content) {
      assert i < |log| && more[i] == log[i];
    }
  }

  lemma LogOkGrows(log: seq<Event>, e: Event)
    requires LogOk(log) && EventOk(e) && (e.Put? ==> !HasPut(log, e.key))
    ensures LogOk(log + [e])
  {
  }

  lemma ItemLog(s: State, log: seq<Event>, e: Event, status: ItemStatus, objects: seq<Frozen>)
    requires ItemOk(s, log, status, objects)
    ensures ItemOk(s, log + [e], status, objects)
  {
    forall j | 0 <= j < |objects| && status == Succeeded ensures Published(s, log + [e], objects[j].target) {
      assert Published(s, log, objects[j].target);
      LogGrows(log, e, objects[j].target);
    }
  }

  ghost predicate SameBut<V(!new)>(a: map<Key, V>, b: map<Key, V>, k: Key) {
    forall x | x != k :: (x in a <==> x in b) && (x in a ==> a[x] == b[x])
  }

  /** The keys other than `k` are as before. */
  ghost predicate SameElsewhere(s: State, t: State, k: Key) {
    && t.statuses == s.statuses && t.strangers == s.strangers
    && SameBut(s.store, t.store, k) && SameBut(s.writes, t.writes, k) && SameBut(s.receipts, t.receipts, k)
    && forall x | x != k :: x in t.removals <==> x in s.removals
  }

  lemma ElsewhereKept(s: State, t: State, log: seq<Event>, k: Key, x: Key)
    requires SameElsewhere(s, t, k) && x != k
    ensures Published(s, log, x) == Published(t, log, x) && Gone(s, x) == Gone(t, x)
  {
  }

  /** What an item of the given status promises about one of its keys goes on holding. */
  ghost predicate PromiseKept(status: ItemStatus, s: State, t: State, log: seq<Event>, k: Key) {
    && (status == Succeeded && Published(s, log, k) ==> Published(t, log, k))
    && (status == Failed || status == Cancelled ==> Gone(s, k) ==> Gone(t, k))
  }

  lemma ItemFrame(s: State, t: State, log: seq<Event>, k: Key, status: ItemStatus, objects: seq<Frozen>)
    requires ItemOk(s, log, status, objects) && SameElsewhere(s, t, k)
    requires PromiseKept(status, s, t, log, k) || forall l :: 0 <= l < |objects| ==> objects[l].target != k
    ensures ItemOk(t, log, status, objects)
  {
    hide SameElsewhere;
    forall j | 0 <= j < |objects| && status == Succeeded ensures Published(t, log, objects[j].target) {
      assert Published(s, log, objects[j].target);
      if objects[j].target != k {
        ElsewhereKept(s, t, log, k, objects[j].target);
      }
    }
    forall j | 0 <= j < |objects| && (status == Failed || status == Cancelled) ensures Gone(t, objects[j].target) {
      assert Gone(s, objects[j].target);
      if objects[j].target != k {
        ElsewhereKept(s, t, log, k, objects[j].target);
      }
    }
  }

  lemma RequestsKept(plan: Plan, s: State, t: State, k: Key)
    requires SameElsewhere(s, t, k) && k in Targets(plan)
    requires (forall x | x in s.writes :: x in Targets(plan)) && s.removals <= Targets(plan)
    ensures (forall x | x in t.writes :: x in Targets(plan)) && t.removals <= Targets(plan)
  {
  }

  lemma OwnKey(plan: Plan, i: nat, j: nat)
    requires Within(plan, i, j)
    ensures plan[i][j].target in Targets(plan)
  {
  }

  /** A change of one object only matters to the one item that owns it. */
  lemma ObjectChanged(plan: Plan, s: State, t: State, log: seq<Event>, i: nat, j: nat)
    requires PlanOk(plan) && Inv(plan, s, log) && Within(plan, i, j)
    requires SameElsewhere(s, t, plan[i][j].target) && KeyOk(t, log, plan[i][j].target)
    requires PromiseKept(s.statuses[i], s, t, log, plan[i][j].target)
    ensures Inv(plan, t, log)
  {
    var k := plan[i][j].target;
    OwnKey(plan, i, j);
    RequestsKept(plan, s, t, k);
    assert t.statuses == s.statuses;
    forall x | x in Targets(plan) ensures KeyOk(t, log, x) {
      if x != k {
        KeyFrame(s, t, log, x);
      }
    }
    hide SameElsewhere, PromiseKept, KeyOk;
    forall m | 0 <= m < |plan| ensures ItemOk(t, log, t.statuses[m], plan[m]) {
      assert ItemOk(s, log, s.statuses[m], plan[m]);
      if m != i {
        forall l | 0 <= l < |plan[m]| ensures plan[m][l].target != k {
          assert Within(plan, m, l);
        }
      }
      ItemFrame(s, t, log, k, s.statuses[m], plan[m]);
    }
  }

  /** One more request to the store. */
  lemma Requested(plan: Plan, s: State, log: seq<Event>, e: Event)
    requires Inv(plan, s, log) && EventOk(e) && KeyOk(s, log + [e], e.key) && (e.Put? ==> !HasPut(log, e.key))
    ensures Inv(plan, s, log + [e])
  {
    LogOkGrows(log, e);
    hide LogOk, EventOk;
    forall x | x in Targets(plan) ensures KeyOk(s, log + [e], x) {
      hide KeyOk;
      if x != e.key {
        KeyLog(s, log, e, x);
      }
    }
    forall m | 0 <= m < |plan| ensures ItemOk(s, log + [e], s.statuses[m], plan[m]) {
      hide ItemOk;
      ItemLog(s, log, e, s.statuses[m], plan[m]);
    }
  }

  lemma StatusChanged(plan: Plan, s: State, log: seq<Event>, i: nat, status: ItemStatus)
    requires Inv(plan, s, log) && i < |plan| && ItemOk(s, log, status, plan[i])
    ensures Inv(plan, s.(statuses := s.statuses[i := status]), log)
  {
    var t := s.(statuses := s.statuses[i := status]);
    forall k | k in Targets(plan) ensures KeyOk(t, log, k) {
      KeyFrame(s, t, log, k);
    }
    forall m | 0 <= m < |plan| ensures ItemOk(t, log, t.statuses[m], plan[m]) {
      assert ItemOk(s, log, s.statuses[m], plan[m]);
      SameItem(s, t, log, t.statuses[m], plan[m]);
    }
  }

  lemma SameItem(s: State, t: State, log: seq<Event>, status: ItemStatus, objects: seq<Frozen>)
    requires t == s.(statuses := t.statuses) && ItemOk(s, log, status, objects)
    ensures ItemOk(t, log, status, objects)
  {
    forall j | 0 <= j < |objects| && status == Succeeded ensures Published(t, log, objects[j].target) {
      assert Published(s, log, objects[j].target);
    }
    forall j | 0 <= j < |objects| && (status == Failed || status == Cancelled) ensures Gone(t, objects[j].target) {
      assert Gone(s, objects[j].target);
    }
  }
}
