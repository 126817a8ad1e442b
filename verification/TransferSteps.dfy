/** What the calls of a copying worker may do to the state, and what a piece of its work leaves alone. */
module TransferSteps {
  import opened Wrappers
  import opened TransferWorld

  // What is said of two states, one before and one after some work.

  /** Foreign bytes that no digest ever matched, with no removal outstanding: nothing the worker does concerns them. */
  predicate Blocks(s: State, t: State, k: Key) {
    k in s.store && k !in s.removals && !Recorded(Row(t, k), s.store[k].bytes)
  }

  predicate Stays(s: State, t: State, k: Key) {
    k in s.store && k in t.store && t.store[k] == s.store[k] && k !in t.removals
  }

  /** A recorded digest stays recorded. */
  ghost predicate RowGrows(s: State, t: State, k: Key) {
    forall b: Bytes :: Recorded(Row(s, k), b) ==> Recorded(Row(t, k), b)
  }

  /** Work on one key: at every other one only what happens without the worker, and blocking bytes stay. */
  ghost predicate Work(s: State, t: State, k: Key) {
    && t.statuses == s.statuses && s.strangers <= t.strangers
    && (forall x | x != k :: EnvKey(s, t, x)) && SameBut(s.receipts, t.receipts, k)
    && RowGrows(s, t, k) && (Blocks(s, t, k) ==> Stays(s, t, k))
  }

  lemma DriftIsWork(s: State, t: State, k: Key)
    requires Drifted(s, t)
    ensures Work(s, t, k) && Row(t, k) == Row(s, k)
  {
    assert EnvKey(s, t, k);
  }

  lemma CommitIsWork(s: State, t: State, k: Key)
    requires t == s.(receipts := t.receipts) && SameBut(s.receipts, t.receipts, k) && RowGrows(s, t, k)
    ensures Work(s, t, k)
  {
  }

  lemma WorkTwice(s: State, t: State, u: State, k: Key)
    requires Work(s, t, k) && Work(t, u, k)
    ensures Work(s, u, k)
  {
    forall x | x != k ensures EnvKey(s, u, x) {
      EnvKeyTwice(s, t, u, x);
    }
    if Blocks(s, u, k) {
      BlocksEarlier(s, t, u, k);
    }
  }

  lemma BlocksEarlier(s: State, t: State, u: State, k: Key)
    requires Work(s, t, k) && Work(t, u, k) && Blocks(s, u, k)
    ensures Blocks(s, t, k) && Blocks(t, u, k) && t.store[k] == s.store[k]
  {
    assert !Recorded(Row(t, k), s.store[k].bytes);
  }

  lemma NoWork(s: State, k: Key)
    ensures Work(s, s, k)
  {
  }

  /** A removal of one key, answered or not. */
  predicate RemovedAt(s: State, t: State, k: Key) {
    && t == s.(store := t.store, removals := t.removals)
    && (t.store == s.store || t.store == s.store - {k})
    && (t.removals == s.removals || t.removals == s.removals + {k})
  }

  /** Once matching bytes were read at the key, a removal is no harm to blocking bytes. */
  lemma RemovalIsWork(s: State, t: State, u: State, k: Key)
    requires Work(s, t, k) && RemovedAt(t, u, k) && !Blocks(s, t, k)
    ensures Work(s, u, k)
  {
    forall x | x != k ensures EnvKey(s, u, x) {
      assert EnvKey(s, t, x);
    }
  }

  /** No removal landed at the key and nothing foreign arrived. */
  predicate CalmKey(s: State, t: State, x: Key) {
    && (x in s.store ==> x in t.store && t.store[x] == s.store[x])
    && (x in t.store ==> x in s.store || x in s.writes)
    && (x in t.writes ==> x in s.writes)
  }

  ghost predicate CalmBut(s: State, t: State, k: Key) {
    forall x | x != k :: CalmKey(s, t, x)
  }

  ghost predicate Calm(s: State, t: State) {
    forall x :: CalmKey(s, t, x)
  }

  lemma CalmTwice(s: State, t: State, u: State, k: Key)
    requires CalmBut(s, t, k) && CalmBut(t, u, k)
    ensures CalmBut(s, u, k)
  {
    forall x | x != k ensures CalmKey(s, u, x) {
      assert CalmKey(s, t, x) && CalmKey(t, u, x);
    }
  }

  /** No published item is ever taken back. */
  ghost predicate PublishedStay(a: seq<ItemStatus>, b: seq<ItemStatus>) {
    |a| == |b| && forall i :: 0 <= i < |a| && a[i] == Succeeded ==> b[i] == Succeeded
  }

  // Calls and their replies.

  datatype Call =
    | EnvironmentStep
    | StartCall(i: nat, started: Reply<bool>)
    | ObjectsCall(i: nat, rows: Reply<seq<Receipt>>)
    | GetCall(k: Key, got: Reply<Bytes>)
    | ExistsCall(k: Key, there: Reply<bool>)
    | PutCall(i: nat, j: nat, content: Bytes, done: Reply<()>)
    | RemoveCall(i: nat, j: nat, done: Reply<()>)
    | RecordCall(i: nat, j: nat, sha: Digest, size: int, done: Reply<()>)
    | BeginCall(i: nat, j: nat, done: Reply<()>)
    | ConfirmCall(i: nat, j: nat, sha: Digest, size: int, done: Reply<()>)
    | AuthorizeCall(i: nat, j: nat, done: Reply<()>)
    | ConfirmRemovalCall(i: nat, j: nat, done: Reply<()>)
    | PublishCall(i: nat, done: Reply<()>)
    | FailCall(i: nat, unknown: bool, done: Reply<()>)

  // What a receipt or an item must look like for the next step.

  predicate MayRecord(row: Receipt, sha: Digest, size: int) {
    && ValidSize(size) && row.status == Pending && !row.writeStarted
    && (row.sha.Some? ==> row.sha == Some(sha)) && (row.size.Some? ==> row.size == Some(size))
  }

  predicate MayBegin(row: Receipt) {
    && row.status == Pending && !row.writeStarted && row.sourceVerified && row.sha.Some?
    && row.size.Some? && ValidSize(row.size.value)
  }

  predicate MayConfirm(row: Receipt, sha: Digest, size: int) {
    && row.status != Removed && row.sourceVerified && row.writeStarted
    && row.sha == Some(sha) && row.size == Some(size) && ValidSize(size)
  }

  predicate MayStart(status: ItemStatus) {
    status == Queued || status == NeedsReconciliation || status == Running
  }

  predicate MayPublish(s: State, status: ItemStatus, objects: seq<Frozen>) {
    status == Running && forall j :: 0 <= j < |objects| ==> Row(s, objects[j].target).status == Verified
  }

  /** A row is replaced in one transaction: wholly if the call succeeds, and else perhaps. */
  predicate RowSet(s: State, t: State, k: Key, row: Receipt, done: bool) {
    && (t == s || t == s.(receipts := s.receipts[k := row]))
    && (done ==> t == s.(receipts := s.receipts[k := row]))
  }

  predicate StatusSet(s: State, t: State, i: nat, status: ItemStatus, done: bool)
    requires i < |s.statuses|
  {
    && (t == s || t == s.(statuses := s.statuses[i := status]))
    && (done ==> t == s.(statuses := s.statuses[i := status]))
  }

  /** Whether a call with this reply may take one state to the other. */
  ghost predicate Allowed(plan: Plan, s: State, c: Call, t: State) {
    match c
    case EnvironmentStep => Drifted(s, t)
    case StartCall(i, reply) =>
      && i < |s.statuses|
      && if s.statuses[i] == Succeeded then t == s && (reply.Ok? ==> reply.value)
         else
           && StatusSet(s, t, i, Running, reply.Ok?) && (reply.Ok? ==> !reply.value)
           && (t != s || reply.Ok? ==> MayStart(s.statuses[i]))
    case ObjectsCall(i, reply) =>
      && i < |plan| && Drifted(s, t)
      && (reply.Ok? ==>
            |reply.value| == |plan[i]| && forall j :: 0 <= j < |plan[i]| ==>
              reply.value[j] == Row(t, plan[i][j].target))
    case GetCall(k, reply) => Drifted(s, t) && (reply.Ok? ==> k in t.store && reply.value == t.store[k].bytes)
    case ExistsCall(k, reply) => Drifted(s, t) && (reply.Ok? ==> reply.value == (k in t.store))
    case PutCall(i, j, content, reply) =>
      && Within(plan, i, j)
      && var k := plan[i][j].target;
         if k in s.store then !reply.Ok? && (t == s || t == s.(writes := s.writes[k := content]))
         else
           && (t == s || t == s.(store := s.store[k := Blob(content, false)])
                 || t == s.(writes := s.writes[k := content]))
           && (reply.Ok? ==> t == s.(store := s.store[k := Blob(content, false)]))
    case RemoveCall(i, j, reply) =>
      && Within(plan, i, j)
      && var k := plan[i][j].target;
         RemovedAt(s, t, k) && (reply.Ok? ==> k !in t.store && t.removals == s.removals)
    case RecordCall(i, j, sha, size, reply) =>
      && Within(plan, i, j)
      && var k := plan[i][j].target;
         && RowSet(s, t, k, Row(s, k).(sha := Some(sha), size := Some(size), sourceVerified := true), reply.Ok?)
         && (t != s || reply.Ok? ==> MayRecord(Row(s, k), sha, size))
    case BeginCall(i, j, reply) =>
      && Within(plan, i, j)
      && var k := plan[i][j].target;
         RowSet(s, t, k, Row(s, k).(writeStarted := true), reply.Ok?) && (t != s || reply.Ok? ==> MayBegin(Row(s, k)))
    case ConfirmCall(i, j, sha, size, reply) =>
      && Within(plan, i, j)
      && var k := plan[i][j].target;
         RowSet(s, t, k, Row(s, k).(status := Verified), reply.Ok?)
           && (t != s || reply.Ok? ==> MayConfirm(Row(s, k), sha, size))
    case AuthorizeCall(i, j, reply) => i < |s.statuses| && Drifted(s, t) && (reply.Ok? ==> s.statuses[i] != Succeeded)
    case ConfirmRemovalCall(i, j, reply) =>
      && Within(plan, i, j) && i < |s.statuses|
      && RowSet(s, t, plan[i][j].target, Row(s, plan[i][j].target).(status := Removed), reply.Ok?)
      && (t != s || reply.Ok? ==> s.statuses[i] != Succeeded)
    case PublishCall(i, reply) =>
      && i < |plan| && i < |s.statuses|
      && if s.statuses[i] == Succeeded then t == s
         else
           && StatusSet(s, t, i, Succeeded, reply.Ok?)
           && (t != s || reply.Ok? ==> MayPublish(s, s.statuses[i], plan[i]))
    case FailCall(i, unknown, reply) =>
      && i < |s.statuses|
      && if s.statuses[i] == Succeeded then t == s && !reply.Ok?
         else if unknown then StatusSet(s, t, i, NeedsReconciliation, reply.Ok?)
         else StatusSet(s, t, i, Failed, reply.Ok?) || StatusSet(s, t, i, Cancelled, reply.Ok?)
  }
}
