/** transferPrivateObject: one object from its source to its target, over any number of attempts. */
module TransferObject {
  import opened Wrappers
  import opened TransferWorld
  import opened TransferSteps
  import opened TransferPorts

  /** What copyObjectBytes accepts: bytes of an allowed size that meet every expectation. */
  predicate Acceptable(content: Bytes, size: Option<int>, sha: Option<Digest>) {
    && ValidSize(|content|)
    && (size.Some? ==> size.value == |content|)
    && (sha.Some? ==> sha.value == Sha(content))
  }

  /** Reads one byte more than it may, so that longer content is noticed without reading all of it. */
  method CopyObjectBytes(content: Bytes, expectedSize: Option<int>, expectedSha: Option<Digest>)
    returns (r: Result<(int, Digest), Error>)
    ensures r.Success? <==> Acceptable(content, expectedSize, expectedSha)
    ensures r.Success? ==> r.value == (|content|, Sha(content))
    ensures r.Failure? ==> r.error == Mismatch
  {
    var limit := MAX_BYTES;
    if expectedSize.Some? {
      if expectedSize.value < 1 || expectedSize.value > limit {
        return Failure(Mismatch);
      }
      limit := expectedSize.value;
    }
    var read := if |content| <= limit + 1 then content else content[..limit + 1];
    var size, digest := |read|, Sha(read);
    if size < 1 || size > limit || (expectedSize.Some? && size != expectedSize.value)
       || (expectedSha.Some? && digest != expectedSha.value) {
      return Failure(Mismatch);
    }
    return Success((size, digest));
  }

  method VerifyTransferred(w: World, k: Key, o: Receipt) returns (r: Reply<()>)
    requires w.Valid()
    modifies w`s, w`smooth
    ensures w.Valid() && Drifted(old(w.s), w.s)
    ensures r.Ok? ==> k in w.s.store && Recorded(o, w.s.store[k].bytes)
    ensures w.smooth ==> old(w.smooth) && Calm(old(w.s), w.s) && !r.Crash?
    ensures w.smooth ==> (r.Err? ==> !r.error.Reconcile?)
    ensures w.smooth && k in old(w.s.store) && Recorded(o, old(w.s.store)[k].bytes) && ReceiptOk(o) ==> r.Ok?
    ensures w.smooth && r.Err? ==> !CalledOff(r.error)
  {
    if o.sha == None || o.size == None || !o.sourceVerified {
      StillDrifted(w.s);
      return Err(Mismatch);
    }
    ghost var s0 := w.s;
    var got := w.Get(k);
    assert w.smooth ==> CalmKey(s0, w.s, k);
    if got.Crash? {
      return Crash;
    }
    if got.Err? {
      return Err(got.error);
    }
    var read := CopyObjectBytes(got.value, o.size, o.sha);
    var closed := w.Close();
    if closed.Crash? {
      return Crash;
    }
    return if read.Failure? then Err(read.error) else closed;
  }

  // Chaining what calls leave alone.

  /** What one attempt at an object leaves alone, from `s` to `t`. */
  ghost predicate Copying(s: State, t: State, k: Key) {
    Work(s, t, k) && t.removals <= s.removals
  }

  lemma CopyingTwice(s: State, t: State, u: State, k: Key)
    requires Copying(s, t, k) && Copying(t, u, k)
    ensures Copying(s, u, k)
  {
    WorkTwice(s, t, u, k);
  }

  lemma DriftIsCopying(s: State, t: State, k: Key)
    requires Drifted(s, t)
    ensures Copying(s, t, k) && Row(t, k) == Row(s, k)
    ensures Calm(s, t) ==> CalmBut(s, t, k)
  {
    DriftIsWork(s, t, k);
    forall x | x in t.removals ensures x in s.removals {
      assert EnvKey(s, t, x);
    }
  }

  lemma CommitIsCopying(s: State, t: State, k: Key)
    requires t == s.(receipts := t.receipts) && SameBut(s.receipts, t.receipts, k) && RowGrows(s, t, k)
    ensures Copying(s, t, k) && CalmBut(s, t, k)
  {
    CommitIsWork(s, t, k);
  }

  lemma PutIsCopying(s: State, t: State, k: Key)
    requires SameElsewhere(s, t, k) && t.receipts == s.receipts && t.removals == s.removals
    requires k in s.store ==> k in t.store && t.store[k] == s.store[k]
    ensures Copying(s, t, k) && CalmBut(s, t, k)
  {
    forall x | x != k ensures EnvKey(s, t, x) {
    }
  }

  lemma CalmTwiceIf(smooth: bool, s: State, t: State, u: State, k: Key)
    requires smooth ==> CalmBut(s, t, k) && CalmBut(t, u, k)
    ensures smooth ==> CalmBut(s, u, k)
  {
    if smooth {
      CalmTwice(s, t, u, k);
    }
  }

  /** Whoever reads the recorded bytes at the end met nothing that blocks. */
  lemma HeldIsFree(s: State, t: State, k: Key)
    requires Work(s, t, k) && Holds(t, k)
    ensures !Blocks(s, t, k)
  {
  }

  // What a run without failures makes of an object.

  /** Nothing about it is in doubt: not written yet at a free key, or written and there. */
  predicate Known(s: State, f: Frozen) {
    var row := Row(s, f.target);
    f.target !in s.writes &&
    if row.writeStarted then row.status != Removed && f.target in s.store && Recorded(row, s.store[f.target].bytes)
    else row.status == Pending && f.target !in s.store
  }

  /** It can be copied, or was: an unwritten object has a readable source that meets what was recorded of it. */
  predicate Ready(s: State, f: Frozen) {
    var row := Row(s, f.target);
    Known(s, f) && (!row.writeStarted ==> f.source in s.store && Acceptable(s.store[f.source].bytes, row.size, row.sha))
  }

  /** When no call fails: an object in no doubt is copied exactly if it is ready, and stays in no doubt if not. */
  predicate SmoothAnswer(s: State, t: State, f: Frozen, r: Reply<()>) {
    && !r.Crash?
    && (Known(s, f) ==> (r.Ok? <==> Ready(s, f)) && (r.Err? ==> !r.error.Reconcile?) && Known(t, f))
  }

  /** Sources are no targets, and nothing is written where no write was begun. */
  lemma AtFirst(w: World, i: nat, j: nat)
    requires w.Valid() && Within(w.plan, i, j)
    ensures var f := w.plan[i][j];
            && f.source !in w.s.writes && f.source !in w.s.removals && f.source != f.target
            && f.target in w.s.receipts && ReceiptOk(Row(w.s, f.target))
            && (!Row(w.s, f.target).writeStarted ==> f.target !in w.s.writes && !HasPut(w.log, f.target))
  {
    OwnKey(w.plan, i, j);
    assert KeyOk(w.s, w.log, w.plan[i][j].target);
  }

  lemma CalmRead(s: State, t: State, k: Key)
    requires Calm(s, t) && k !in s.writes
    ensures k in s.store <==> k in t.store
    ensures k in s.store ==> t.store[k] == s.store[k]
  {
    assert CalmKey(s, t, k);
  }

  lemma CalmWrites(s: State, t: State, k: Key)
    requires Calm(s, t) && k !in s.writes
    ensures k !in t.writes
  {
    assert CalmKey(s, t, k);
  }

  lemma VerifiedIsKnown(w: World, i: nat, j: nat)
    requires w.Valid() && Within(w.plan, i, j) && w.plan[i][j].target !in w.s.writes
    requires Row(w.s, w.plan[i][j].target).status == Verified && Holds(w.s, w.plan[i][j].target)
    ensures Known(w.s, w.plan[i][j])
  {
    OwnKey(w.plan, i, j);
    assert KeyOk(w.s, w.log, w.plan[i][j].target);
  }

  lemma KnownAfterRead(s: State, t: State, f: Frozen)
    requires Calm(s, t) && Known(s, f) && Row(t, f.target) == Row(s, f.target)
    ensures Known(t, f)
  {
    assert CalmKey(s, t, f.target);
  }

  /** The first attempt at writing an object. A digest that was recorded stays the one the written bytes have. */
  method FirstWrite(w: World, i: nat, j: nat, o: Receipt) returns (r: Reply<()>)
    requires w.Valid() && Within(w.plan, i, j) && o == Row(w.s, w.plan[i][j].target)
    requires o.status == Pending && !o.writeStarted && w.s.statuses[i] != Failed && w.s.statuses[i] != Cancelled
    modifies w`s, w`log, w`smooth
    ensures w.Valid() && Copying(old(w.s), w.s, w.plan[i][j].target) && old(w.log) <= w.log
    ensures r.Ok? ==> Row(w.s, w.plan[i][j].target).status == Verified && Holds(w.s, w.plan[i][j].target)
    ensures w.smooth ==>
              && old(w.smooth) && CalmBut(old(w.s), w.s, w.plan[i][j].target)
              && SmoothAnswer(old(w.s), w.s, w.plan[i][j], r)
    ensures w.smooth && r.Err? ==> !CalledOff(r.error)
  {
    hide Drifted, Calm, CalmBut, Copying, SameBut, Inv, PlanOk, SameElsewhere, RowGrows;
    var k, source := w.plan[i][j].target, w.plan[i][j].source;
    ghost var s0 := w.s;
    AtFirst(w, i, j);
    var got := w.Get(source);
    DriftIsCopying(s0, w.s, k);
    if w.smooth {
      CalmRead(s0, w.s, source);
      if Known(s0, w.plan[i][j]) {
        KnownAfterRead(s0, w.s, w.plan[i][j]);
      }
    }
    if got.Crash? {
      return Crash;
    }
    if got.Err? {
      return Err(got.error);
    }
    var read := CopyObjectBytes(got.value, o.size, o.sha);
    if read.Failure? {
      return Err(read.error);
    }
    r := WriteContent(w, i, j, got.value, s0);
    if r.Ok? {
      if k !in w.s.writes {
        VerifiedIsKnown(w, i, j);
      }
      r := w.Close();
    }
  }

  /** The steps of a first write once the source was read. */
  method WriteContent(w: World, i: nat, j: nat, content: Bytes, ghost s0: State) returns (r: Reply<()>)
    requires w.Valid() && Within(w.plan, i, j) && Copying(s0, w.s, w.plan[i][j].target)
    requires w.s.statuses[i] != Failed && w.s.statuses[i] != Cancelled
    requires Acceptable(content, Row(w.s, w.plan[i][j].target).size, Row(w.s, w.plan[i][j].target).sha)
    requires w.smooth ==> CalmBut(s0, w.s, w.plan[i][j].target)
    modifies w`s, w`log, w`smooth
    ensures w.Valid() && Copying(s0, w.s, w.plan[i][j].target) && old(w.log) <= w.log
    ensures r.Ok? ==> Row(w.s, w.plan[i][j].target).status == Verified && Holds(w.s, w.plan[i][j].target)
    ensures w.smooth ==> old(w.smooth) && CalmBut(s0, w.s, w.plan[i][j].target) && !r.Crash?
    ensures var row := Row(old(w.s), w.plan[i][j].target);
            w.smooth && row.status == Pending && !row.writeStarted && w.plan[i][j].target !in old(w.s.store) ==> r.Ok?
    ensures w.smooth && w.plan[i][j].target !in old(w.s.writes) ==> w.plan[i][j].target !in w.s.writes
    ensures w.smooth && r.Err? ==> !CalledOff(r.error)
  {
    hide Drifted, Calm, CalmBut, Copying, SameBut, Inv, PlanOk, SameElsewhere, RowGrows;
    var k := w.plan[i][j].target;
    r := RecordAndBegin(w, i, j, Sha(content), |content|, s0);
    if !r.Ok? {
      return;
    }
    ghost var s1 := w.s;
    var put := w.PutIfAbsent(i, j, content);
    PutIsCopying(s1, w.s, k);
    CopyingTwice(s0, s1, w.s, k);
    CalmTwiceIf(w.smooth, s0, s1, w.s, k);
    if put.Crash? {
      return Crash;
    }
    if put.Err? && put.error != AlreadyExists {
      return Err(Reconcile("object_write_unknown"));
    }
    r := ReadBackAndConfirm(w, i, j, Row(w.s, k), true, s0);
  }

  /** The digest, then the intent: both durable before anything is written. */
  method RecordAndBegin(w: World, i: nat, j: nat, digest: Digest, size: int, ghost s0: State) returns (r: Reply<()>)
    requires w.Valid() && Within(w.plan, i, j) && Copying(s0, w.s, w.plan[i][j].target)
    requires w.s.statuses[i] != Failed && w.s.statuses[i] != Cancelled
    requires w.smooth ==> CalmBut(s0, w.s, w.plan[i][j].target)
    modifies w`s, w`smooth
    ensures w.Valid() && Copying(s0, w.s, w.plan[i][j].target) && w.s == old(w.s).(receipts := w.s.receipts)
    ensures w.smooth ==> old(w.smooth) && CalmBut(s0, w.s, w.plan[i][j].target) && !r.Crash?
    ensures w.smooth && MayRecord(Row(old(w.s), w.plan[i][j].target), digest, size) ==> r.Ok?
    ensures r.Ok? ==> !HasPut(w.log, w.plan[i][j].target)
    ensures r.Ok? ==> Row(w.s, w.plan[i][j].target) == Receipt(Pending, Some(digest), Some(size), true, true)
    ensures w.smooth && r.Err? ==> !CalledOff(r.error)
  {
    var k := w.plan[i][j].target;
    hide Calm, CalmBut, Copying, SameBut, Inv, PlanOk, RowGrows;
    ghost var s1 := w.s;
    r := w.RecordDigest(i, j, digest, size);
    CommitIsCopying(s1, w.s, k);
    CopyingTwice(s0, s1, w.s, k);
    CalmTwiceIf(w.smooth, s0, s1, w.s, k);
    if !r.Ok? {
      return;
    }
    AtFirst(w, i, j);
    ghost var s2 := w.s;
    r := w.BeginWrite(i, j);
    CommitIsCopying(s2, w.s, k);
    CopyingTwice(s0, s2, w.s, k);
    CalmTwiceIf(w.smooth, s0, s2, w.s, k);
  }

  method ReadBackAndConfirm(w: World, i: nat, j: nat, o: Receipt, first: bool, ghost s0: State) returns (r: Reply<()>)
    requires w.Valid() && Within(w.plan, i, j) && Copying(s0, w.s, w.plan[i][j].target)
    requires o == Row(w.s, w.plan[i][j].target)
    requires w.smooth ==> CalmBut(s0, w.s, w.plan[i][j].target)
    modifies w`s, w`smooth
    ensures w.Valid() && Copying(s0, w.s, w.plan[i][j].target) && w.log == old(w.log)
    ensures r.Ok? ==> Row(w.s, w.plan[i][j].target).status == Verified && Holds(w.s, w.plan[i][j].target)
    ensures w.smooth ==> old(w.smooth) && CalmBut(s0, w.s, w.plan[i][j].target) && !r.Crash?
    ensures w.smooth && Holds(old(w.s), w.plan[i][j].target) && o.status != Removed && o.writeStarted ==> r.Ok?
    ensures w.smooth && w.plan[i][j].target !in old(w.s.writes) ==> w.plan[i][j].target !in w.s.writes
    ensures w.smooth && r.Err? ==> !CalledOff(r.error)
  {
    hide Drifted, Calm, CalmBut, Copying, SameBut, Inv, PlanOk, RowGrows;
    var k := w.plan[i][j].target;
    AtFirst(w, i, j);
    ghost var s1 := w.s;
    var verified := VerifyTransferred(w, k, o);
    DriftIsCopying(s1, w.s, k);
    CopyingTwice(s0, s1, w.s, k);
    CalmTwiceIf(w.smooth, s0, s1, w.s, k);
    if w.smooth && k !in s1.writes {
      CalmWrites(s1, w.s, k);
    }
    if verified.Crash? {
      return Crash;
    }
    if verified.Err? {
      return Err(Reconcile("object_readback_unverified"));
    }
    AtFirst(w, i, j);
    ghost var s2 := w.s;
    var confirmed := w.ConfirmObject(i, j, o.sha.value, o.size.value);
    CommitIsCopying(s2, w.s, k);
    CopyingTwice(s0, s2, w.s, k);
    CalmTwiceIf(w.smooth, s0, s2, w.s, k);
    if confirmed.Err? && first {
      return Err(Reconcile("object_receipt_unknown"));
    }
    return confirmed;
  }

  /**
    One attempt at one object. Whatever happened in earlier attempts, it asks for at most one write ever, and
    never over bytes that are there; success means that the object is there, verified, with the recorded digest.
   */
  method TransferPrivateObject(w: World, i: nat, j: nat, o: Receipt) returns (r: Reply<()>)
    requires w.Valid() && Within(w.plan, i, j) && o == Row(w.s, w.plan[i][j].target)
    requires w.s.statuses[i] != Failed && w.s.statuses[i] != Cancelled
    modifies w`s, w`log, w`smooth
    ensures w.Valid() && Copying(old(w.s), w.s, w.plan[i][j].target) && old(w.log) <= w.log
    ensures r.Ok? ==> Row(w.s, w.plan[i][j].target).status == Verified && Holds(w.s, w.plan[i][j].target)
    ensures r.Ok? ==> !Blocks(old(w.s), w.s, w.plan[i][j].target)
    ensures w.smooth ==>
              && old(w.smooth) && CalmBut(old(w.s), w.s, w.plan[i][j].target)
              && SmoothAnswer(old(w.s), w.s, w.plan[i][j], r)
    ensures w.smooth && r.Err? ==> !CalledOff(r.error)
  {
    var k := w.plan[i][j].target;
    ghost var s0 := w.s;
    NothingCopied(s0, k);
    AtFirst(w, i, j);
    hide Drifted, Calm, CalmBut, SameBut, Inv, PlanOk;
    if o.status == Verified {
      var verified := VerifyTransferred(w, k, o);
      DriftIsCopying(s0, w.s, k);
      HeldIf(s0, w.s, k, o, verified.Ok?);
      if w.smooth && Known(s0, w.plan[i][j]) {
        KnownAfterRead(s0, w.s, w.plan[i][j]);
      }
      return match verified
        case Ok(_) => Ok(())
        case Err(_) => Err(Reconcile("object_readback_unverified"))
        case Crash => Crash;
    }
    if o.status != Pending {
      return Err(Unavailable);
    }
    if o.writeStarted {
      r := ReadBackAndConfirm(w, i, j, o, false, s0);
    } else {
      r := FirstWrite(w, i, j, o);
    }
    if r.Ok? {
      HeldIsFree(s0, w.s, k);
      if k !in w.s.writes {
        VerifiedIsKnown(w, i, j);
      }
    }
  }

  lemma NothingCopied(s: State, k: Key)
    ensures Copying(s, s, k) && CalmBut(s, s, k)
  {
    NoWork(s, k);
  }

  lemma HeldIf(s: State, t: State, k: Key, o: Receipt, verified: bool)
    requires Copying(s, t, k) && o == Row(s, k) == Row(t, k) && k in s.receipts
    requires verified ==> k in t.store && Recorded(o, t.store[k].bytes)
    ensures verified ==> Holds(t, k) && !Blocks(s, t, k)
  {
    if k !in t.receipts {
      assert !Recorded(NEW_RECEIPT, if k in t.store then t.store[k].bytes else []);
    }
  }
}
