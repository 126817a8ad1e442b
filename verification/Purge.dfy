/** RemovePurgeObjects: verify the whole set first, then delete it key by key, over any crashes and re-runs. */
module Purge {
  import opened Wrappers
  import opened TransferWorld
  import opened TransferPorts
  import opened TransferObject

  const NO_KEY: Key := 0
  const MAX_OBJECTS := 17

  /** The durable row of one object of a purged item. */
  datatype PurgeRow = PurgeRow(size: Option<int>, sha: Option<Digest>, verified: bool, started: bool, removed: bool)

  datatype PurgeObject = PurgeObject(key: Key, row: PurgeRow)

  datatype PurgeError = ObjectMismatch | Unknown | Invalid | Other(error: Error)

  datatype Answer<+T> = Done(value: T) | Stopped(error: PurgeError) | Crashed

  /** What was observed and asked for, in order; a removal with the rows of the moment it was asked for. */
  datatype Observed = Checked(key: Key) | SeenAbsent(key: Key, started: bool)
    | Removing(key: Key, rows: map<Key, PurgeRow>)

  predicate RowMatches(row: PurgeRow, content: Bytes) {
    row.sha == Some(Sha(content)) && row.size == Some(|content|)
  }

  /** Bytes never change, an object only goes missing after its removal intent, and receipts tell the truth. */
  ghost predicate KeySafe(initial: map<Key, Bytes>, store: map<Key, Bytes>, k: Key, row: PurgeRow) {
    && (k in store ==> k in initial && store[k] == initial[k])
    && (k in initial && k !in store ==> row.started)
    && (row.verified ==> k in initial && RowMatches(row, initial[k]) && ValidSize(|initial[k]|))
    && (row.started ==> row.verified)
    && (row.removed ==> row.started && k !in store)
  }

  /** Nothing is removed before the whole set is verified, and only keys with a durable intent. */
  predicate RemovalOk(e: Observed) {
    e.Removing? ==> e.key in e.rows && e.rows[e.key].started && forall k | k in e.rows :: e.rows[k].verified
  }

  /** Nothing but removals happened, and only of the given keys. */
  ghost predicate Shrunk(keys: set<Key>, store: map<Key, Bytes>, less: map<Key, Bytes>) {
    && (forall x | x in less :: x in store && less[x] == store[x])
    && (forall x | x in store && x !in keys :: x in less)
  }

  /** What a row has on record stays on record. */
  predicate RowForward(row: PurgeRow, after: PurgeRow) {
    && (row.size.Some? ==> after.size == row.size) && (row.sha.Some? ==> after.sha == row.sha)
    && (row.verified ==> after.verified) && (row.started ==> after.started) && (row.removed ==> after.removed)
  }

  /** Rows only move forward, and of the objects only those with a row may go away. */
  ghost predicate MovedOn(
    store: map<Key, Bytes>, rows: map<Key, PurgeRow>, less: map<Key, Bytes>, after: map<Key, PurgeRow>)
  {
    && Shrunk(rows.Keys, store, less) && after.Keys == rows.Keys
    && (forall k | k in rows :: RowForward(rows[k], after[k]))
  }

  lemma NotMoved(store: map<Key, Bytes>, rows: map<Key, PurgeRow>)
    ensures MovedOn(store, rows, store, rows)
  {
  }

  lemma MovedTwice(
    store: map<Key, Bytes>, rows: map<Key, PurgeRow>, less: map<Key, Bytes>, after: map<Key, PurgeRow>,
    least: map<Key, Bytes>, last: map<Key, PurgeRow>)
    requires MovedOn(store, rows, less, after) && MovedOn(less, after, least, last)
    ensures MovedOn(store, rows, least, last)
  {
    forall k | k in rows ensures RowForward(rows[k], last[k]) {
      assert RowForward(rows[k], after[k]) && RowForward(after[k], last[k]);
    }
  }

  predicate MayRecordDigest(row: PurgeRow, sha: Digest, size: int) {
    && ValidSize(size) && !row.removed
    && (row.sha.Some? ==> row.sha == Some(sha)) && (row.size.Some? ==> row.size == Some(size))
  }

  class PurgeWorld {
    const initial: map<Key, Bytes>
    var store: map<Key, Bytes>

    /** Keys with a removal that may still land. */
    var pending: set<Key>
    var rows: map<Key, PurgeRow>
    ghost var log: seq<Observed>

    /** No call failed or was cut off so far, no late removal landed, and nobody cancelled or interrupted the work. */
    ghost var smooth: bool

    ghost predicate Valid()
      reads this
    {
      && (forall k | k in rows :: KeySafe(initial, store, k, rows[k]))
      && (forall k | k in pending :: k in rows && rows[k].started)
      && (forall i :: 0 <= i < |log| ==> RemovalOk(log[i]))
    }

    /** What was recorded of the objects beforehand is only a size and a digest to expect. */
    constructor (initial: map<Key, Bytes>, rows: map<Key, PurgeRow>)
      requires forall k | k in rows :: !rows[k].verified && !rows[k].started && !rows[k].removed
      ensures Valid() && this.initial == initial && store == initial && this.rows == rows && smooth && fresh(this)
    {
      this.initial, this.store, pending, this.rows, log, smooth := initial, initial, {}, rows, [], true;
    }

    /** Whether the work is called off between two steps. */
    method Interrupted() returns (yes: bool)
      requires Valid()
      modifies this`smooth
      ensures Valid() && (smooth ==> old(smooth) && !yes)
    {
      yes := *;
      smooth := smooth && !yes;
    }

    /** Removals without an answer land, or are lost. */
    method Drift()
      requires Valid()
      modifies this`store, this`pending, this`smooth
      ensures Valid() && Shrunk(rows.Keys, old(store), store)
      ensures smooth ==> old(smooth) && store == old(store)
    {
      var landed: set<Key> :| landed <= pending;
      var open: set<Key> :| open <= pending;
      smooth := smooth && landed !! store.Keys;
      store, pending := store - landed, open;
    }

    method Get(k: Key) returns (r: Answer<Bytes>)
      requires Valid()
      modifies this`store, this`pending, this`smooth
      ensures Valid() && Shrunk(rows.Keys, old(store), store)
      ensures r.Done? ==> k in store && r.value == store[k]
      ensures smooth ==> old(smooth) && store == old(store) && (r.Done? <==> k in store)
    {
      Drift();
      var fate: Fate := *;
      smooth := smooth && fate.Works?;
      return match fate
        case Works => (if k in store then Done(store[k]) else Stopped(Other(NotFound)))
        case FailsBefore(e) => Stopped(Other(e))
        case FailsAfter(e) => Stopped(Other(e))
        case CrashesBefore => Crashed
        case CrashesAfter => Crashed;
    }

    /** A look at one key; a missing object is on record with what its row said then. */
    method Exists(k: Key) returns (r: Answer<bool>)
      requires Valid() && k in rows
      modifies this`store, this`pending, this`log, this`smooth
      ensures Valid() && Shrunk(rows.Keys, old(store), store)
      ensures smooth ==> old(smooth) && store == old(store) && r.Done?
      ensures r.Done? ==> r.value == (k in store)
      ensures log == if r == Done(false) then old(log) + [SeenAbsent(k, rows[k].started)] else old(log)
    {
      Drift();
      var fate: Fate := *;
      smooth := smooth && fate.Works?;
      match fate {
        case Works =>
          if k !in store {
            log := log + [SeenAbsent(k, rows[k].started)];
          }
          return Done(k in store);
        case FailsBefore(e) => return Stopped(Other(e));
        case FailsAfter(e) => return Stopped(Other(e));
        case CrashesBefore => return Crashed;
        case CrashesAfter => return Crashed;
      }
    }

    /** Removes one exact key. It may take effect after its answer; without one it may also never do. */
    method Remove(k: Key) returns (r: Answer<()>)
      requires Valid() && k in rows && rows[k].started && forall x | x in rows :: rows[x].verified
      modifies this`store, this`pending, this`log, this`smooth
      ensures smooth ==> old(smooth) && r.Done? && k !in store
      ensures Valid() && (store == old(store) || store == old(store) - {k})
      ensures MovedOn(old(store), rows, store, rows)
      ensures pending == old(pending) || pending == old(pending) + {k}
      ensures log == old(log) + [Removing(k, rows)]
    {
      log := log + [Removing(k, rows)];
      var fate: Fate := *;
      var late: bool := *;
      smooth := smooth && fate.Works? && !late;
      if late {
        pending := pending + {k};
      } else if fate.Works? || fate.FailsAfter? || fate.CrashesAfter? {
        store := store - {k};
      }
      return match fate
        case Works => Done(())
        case FailsBefore(e) => Stopped(Other(e))
        case FailsAfter(e) => Stopped(Other(e))
        case CrashesBefore => Crashed
        case CrashesAfter => Crashed;
    }

    /** Replaces one row in a transaction of the given fate. */
    method Commit(k: Key, row: PurgeRow, fate: Fate) returns (r: Answer<()>)
      requires Valid() && k in rows && KeySafe(initial, store, k, row) && (rows[k].started ==> row.started)
      modifies this`rows, this`smooth
      ensures Valid() && (rows == old(rows) || rows == old(rows)[k := row])
      ensures r.Done? ==> rows == old(rows)[k := row]
      ensures smooth ==> old(smooth) && r.Done?
    {
      smooth := smooth && fate.Works?;
      if fate.FailsBefore? {
        return Stopped(Other(fate.error));
      }
      if fate.CrashesBefore? {
        return Crashed;
      }
      rows := rows[k := row];
      return if fate.FailsAfter? then Stopped(Other(fate.error)) else if fate.CrashesAfter? then Crashed else Done(());
    }

    /** Records bytes that were just read; this is the check of one object. */
    method RecordDigest(k: Key, sha: Digest, size: int) returns (r: Answer<()>)
      requires Valid() && k in rows && k in initial && sha == Sha(initial[k]) && size == |initial[k]|
      modifies this`rows, this`log, this`smooth
      ensures smooth ==> old(smooth) && (r.Done? <==> MayRecordDigest(old(rows)[k], sha, size))
      ensures Valid() && MovedOn(store, old(rows), store, rows)
      ensures forall x | x in rows :: rows[x] == old(rows[x])
                || (x == k && rows[x] == old(rows[x]).(sha := Some(sha), size := Some(size), verified := true))
      ensures r.Done? ==> rows[k].verified && log == old(log) + [Checked(k)]
      ensures !r.Done? ==> log == old(log)
    {
      var row := rows[k];
      if !MayRecordDigest(row, sha, size) {
        return Stopped(ObjectMismatch);
      }
      var fate: Fate := *;
      r := Commit(k, row.(sha := Some(sha), size := Some(size), verified := true), fate);
      if r.Done? {
        log := log + [Checked(k)];
      }
    }

    method BeginRemoval(k: Key) returns (r: Answer<()>)
      requires Valid() && k in rows
      modifies this`rows, this`smooth
      ensures smooth ==> old(smooth)
      ensures smooth && !old(rows)[k].started && (forall x | x in rows :: rows[x].verified) ==> r.Done?
      ensures Valid() && MovedOn(store, old(rows), store, rows)
      ensures forall x | x in rows :: rows[x] == old(rows[x]) || (x == k && rows[x] == old(rows[x]).(started := true))
      ensures r.Done? ==> !old(rows)[k].started && rows[k].started && forall x | x in rows :: rows[x].verified
    {
      var cancelled := Interrupted();
      if cancelled && forall x | x in rows :: !rows[x].started {
        return Stopped(Other(TransferCancelled));
      }
      var row := rows[k];
      if !row.verified || row.sha == None || row.size == None || row.started || row.removed {
        return Stopped(ObjectMismatch);
      }
      if exists x | x in rows :: !rows[x].verified {
        return Stopped(ObjectMismatch);
      }
      var fate: Fate := *;
      r := Commit(k, row.(started := true), fate);
    }

    method ConfirmRemoval(k: Key) returns (r: Answer<()>)
      requires Valid() && k in rows && k !in store
      modifies this`rows, this`smooth
      ensures smooth ==> old(smooth) && (old(rows)[k].started ==> r.Done?)
      ensures Valid() && MovedOn(store, old(rows), store, rows)
      ensures forall x | x in rows :: rows[x] == old(rows[x]) || (x == k && rows[x] == old(rows[x]).(removed := true))
      ensures r.Done? ==> rows[k].removed
    {
      var row := rows[k];
      if !row.verified || !row.started {
        return Stopped(ObjectMismatch);
      }
      var fate: Fate := *;
      r := Commit(k, row.(removed := true), fate);
    }
  }

  // The set of one call.

  function PurgeKeys(objects: seq<PurgeObject>): set<Key> {
    set i | 0 <= i < |objects| :: objects[i].key
  }

  ghost predicate DistinctKeys(objects: seq<PurgeObject>, n: nat) {
    forall i, j :: 0 <= i < j < |objects| && j < n ==> objects[i].key != objects[j].key
  }

  predicate Consistent(o: PurgeObject) {
    && o.key != NO_KEY
    && (o.row.started ==> o.row.verified && o.row.sha.Some? && o.row.size.Some?)
    && (o.row.removed ==> o.row.started)
  }

  /** The object is on its way out already, or is there with the bytes that are expected of it. */
  predicate Checkable(initial: map<Key, Bytes>, o: PurgeObject) {
    o.row.started || (o.key in initial && Acceptable(initial[o.key], o.row.size, o.row.sha))
  }

  ghost predicate CheckableTo(initial: map<Key, Bytes>, objects: seq<PurgeObject>, n: nat) {
    forall i :: 0 <= i < |objects| && i < n ==> objects[i].key != NO_KEY && Checkable(initial, objects[i])
  }

  /** The set that a run without failures removes. */
  ghost predicate MayPurge(initial: map<Key, Bytes>, objects: seq<PurgeObject>) {
    DistinctKeys(objects, |objects|) && CheckableTo(initial, objects, |objects|)
  }

  lemma NextCheckable(initial: map<Key, Bytes>, objects: seq<PurgeObject>, n: nat)
    requires n < |objects| && CheckableTo(initial, objects, n)
    ensures CheckableTo(initial, objects, n + 1) <==> objects[n].key != NO_KEY && Checkable(initial, objects[n])
    ensures MayPurge(initial, objects) ==> CheckableTo(initial, objects, n + 1)
  {
    hide Checkable;
  }

  lemma RepeatedKey(initial: map<Key, Bytes>, objects: seq<PurgeObject>, seen: set<Key>, i: nat)
    requires i < |objects| && seen == KeysTo(objects, i) && objects[i].key in seen
    ensures !MayPurge(initial, objects)
  {
    hide Checkable;
  }

  lemma RowsConsistent(w: PurgeWorld, objects: seq<PurgeObject>)
    requires w.Valid() && PurgeKeys(objects) == w.rows.Keys
    requires forall i :: 0 <= i < |objects| ==> objects[i].row == w.rows[objects[i].key]
    ensures forall i :: 0 <= i < |objects| ==> (Consistent(objects[i]) <==> objects[i].key != NO_KEY)
  {
    forall i | 0 <= i < |objects| ensures Consistent(objects[i]) <==> objects[i].key != NO_KEY {
      assert objects[i].key in PurgeKeys(objects)
        && KeySafe(w.initial, w.store, objects[i].key, w.rows[objects[i].key]);
    }
  }

  /** Since `from` the key was read and checked, or found absent under an earlier intent. */
  ghost predicate Settled(log: seq<Observed>, from: nat, k: Key) {
    exists q :: from <= q < |log| && (log[q] == Checked(k) || log[q] == SeenAbsent(k, true))
  }

  lemma SettledStays(log: seq<Observed>, more: seq<Observed>, from: nat, k: Key)
    requires Settled(log, from, k) && log <= more
    ensures Settled(more, from, k)
  {
    var q :| from <= q < |log| && (log[q] == Checked(k) || log[q] == SeenAbsent(k, true));
    assert more[q] == log[q];
  }

  ghost predicate NoRemoval(log: seq<Observed>, from: nat) {
    forall p :: from <= p < |log| ==> !log[p].Removing?
  }

  /** Reads the object and records its digest. */
  method ReadAndRecord(w: PurgeWorld, o: PurgeObject, ghost from: nat) returns (r: Answer<()>)
    requires w.Valid() && o.key in w.rows && o.row == w.rows[o.key]
    requires from <= |w.log| && NoRemoval(w.log, from) && !o.row.removed
    requires w.smooth && o.row.started ==> o.key in w.store
    modifies w`store, w`pending, w`rows, w`log, w`smooth
    ensures w.smooth ==> old(w.smooth) && w.store == old(w.store) && (r.Done? <==> Checkable(w.initial, o))
    ensures w.Valid() && w.rows.Keys == old(w.rows.Keys) && old(w.log) <= w.log && NoRemoval(w.log, from)
    ensures MovedOn(old(w.store), old(w.rows), w.store, w.rows)
    ensures forall x | x in w.rows && x != o.key :: w.rows[x] == old(w.rows[x])
    ensures w.rows[o.key].started == o.row.started && w.rows[o.key].removed == o.row.removed
    ensures r.Done? ==> w.rows[o.key].verified && Settled(w.log, from, o.key)
  {
    assert KeySafe(w.initial, w.store, o.key, w.rows[o.key]);
    var got := w.Get(o.key);
    assert KeySafe(w.initial, w.store, o.key, w.rows[o.key]);
    hide PurgeWorld.Valid, KeySafe, Shrunk;
    if !got.Done? {
      return if got.Crashed? then Crashed else Stopped(got.error);
    }
    var read := CopyObjectBytes(got.value, o.row.size, o.row.sha);
    if read.Failure? {
      return Stopped(ObjectMismatch);
    }
    r := w.RecordDigest(o.key, read.value.1, read.value.0);
    if r.Done? {
      assert w.log[|w.log| - 1] == Checked(o.key);
    }
  }

  /** The first phase for one object: bytes read and recorded, or absence under an earlier intent observed. */
  method CheckObject(w: PurgeWorld, o: PurgeObject, ghost from: nat) returns (r: Answer<()>)
    requires w.Valid() && o.key in w.rows && o.row == w.rows[o.key] && from <= |w.log| && NoRemoval(w.log, from)
    modifies w`store, w`pending, w`rows, w`log, w`smooth
    ensures w.smooth ==> old(w.smooth) && w.store == old(w.store) && (r.Done? <==> Checkable(w.initial, o))
    ensures w.Valid() && w.rows.Keys == old(w.rows.Keys) && old(w.log) <= w.log && NoRemoval(w.log, from)
    ensures MovedOn(old(w.store), old(w.rows), w.store, w.rows)
    ensures forall x | x in w.rows && x != o.key :: w.rows[x] == old(w.rows[x])
    ensures w.rows[o.key].started == o.row.started && w.rows[o.key].removed == o.row.removed
    ensures r.Done? ==> w.rows[o.key].verified && Settled(w.log, from, o.key)
  {
    assert KeySafe(w.initial, w.store, o.key, w.rows[o.key]);
    if o.row.started {
      var there := w.Exists(o.key);
      if !there.Done? {
        return if there.Crashed? then Crashed else Stopped(Unknown);
      }
      if !there.value {
        assert w.log[|w.log| - 1] == SeenAbsent(o.key, true);
        return Done(());
      }
      if o.row.removed {
        return Stopped(ObjectMismatch);
      }
    }
    r := ReadAndRecord(w, o, from);
  }

  ghost predicate SettledUpTo(log: seq<Observed>, from: nat, objects: seq<PurgeObject>, n: nat) {
    forall i :: 0 <= i < |objects| && i < n ==> Settled(log, from, objects[i].key)
  }

  /** The rows of the objects from `n` on are as they were read, but possibly verified since. */
  ghost predicate AsRead(rows: map<Key, PurgeRow>, objects: seq<PurgeObject>, n: nat) {
    forall i :: 0 <= i < |objects| ==>
      && objects[i].key in rows
      && (n <= i ==> rows[objects[i].key].started == objects[i].row.started)
  }

  lemma DistinctNext(objects: seq<PurgeObject>, seen: set<Key>, i: nat)
    requires i < |objects| && DistinctKeys(objects, i) && objects[i].key !in seen
    requires seen == set j | 0 <= j < i :: objects[j].key
    ensures DistinctKeys(objects, i + 1)
  {
  }

  lemma SettledNext(log: seq<Observed>, more: seq<Observed>, from: nat, objects: seq<PurgeObject>, i: nat)
    requires i < |objects| && SettledUpTo(log, from, objects, i) && log <= more && Settled(more, from, objects[i].key)
    ensures SettledUpTo(more, from, objects, i + 1)
  {
    forall j | 0 <= j < i ensures Settled(more, from, objects[j].key) {
      SettledStays(log, more, from, objects[j].key);
    }
  }

  ghost predicate RowsDone(rows: map<Key, PurgeRow>, objects: seq<PurgeObject>, n: nat) {
    forall j :: 0 <= j < |objects| && j < n ==>
      objects[j].key in rows && rows[objects[j].key].verified && rows[objects[j].key].started == objects[j].row.started
  }

  ghost predicate RowsLeft(before: map<Key, PurgeRow>, rows: map<Key, PurgeRow>, seen: set<Key>) {
    rows.Keys == before.Keys && forall x | x in rows && x !in seen :: rows[x] == before[x]
  }

  lemma RowsNext(
    before: map<Key, PurgeRow>, rows: map<Key, PurgeRow>, after: map<Key, PurgeRow>,
    objects: seq<PurgeObject>, seen: set<Key>, i: nat)
    requires i < |objects| && RowsDone(rows, objects, i) && RowsLeft(before, rows, seen) && after.Keys == rows.Keys
    requires seen == (set j | 0 <= j < i :: objects[j].key) && objects[i].key !in seen
    requires forall x | x in after && x != objects[i].key :: after[x] == rows[x]
    requires objects[i].key in after && after[objects[i].key].verified
    requires after[objects[i].key].started == objects[i].row.started
    ensures RowsDone(after, objects, i + 1) && RowsLeft(before, after, seen + {objects[i].key})
  {
    forall j | 0 <= j < i ensures objects[j].key != objects[i].key {
      assert objects[j].key in seen;
    }
  }

  lemma AllDone(rows: map<Key, PurgeRow>, objects: seq<PurgeObject>)
    requires RowsDone(rows, objects, |objects|) && rows.Keys == PurgeKeys(objects)
    ensures AsRead(rows, objects, 0) && forall k | k in rows :: rows[k].verified
  {
    assert forall k | k in rows :: k in PurgeKeys(objects);
  }

  /** The keys of the first `n` objects. */
  function KeysTo(objects: seq<PurgeObject>, n: nat): set<Key> {
    set j | 0 <= j < |objects| && j < n :: objects[j].key
  }

  /** The first phase as far as `n`: every object before it is settled and verified, the others are as they were. */
  ghost predicate CheckedTo(
    before: map<Key, PurgeRow>, rows: map<Key, PurgeRow>, log: seq<Observed>, from: nat, objects: seq<PurgeObject>,
    n: nat)
  {
    && NoRemoval(log, from) && DistinctKeys(objects, n) && SettledUpTo(log, from, objects, n)
    && RowsDone(rows, objects, n) && RowsLeft(before, rows, KeysTo(objects, n))
  }

  lemma NoneChecked(rows: map<Key, PurgeRow>, log: seq<Observed>, objects: seq<PurgeObject>)
    ensures CheckedTo(rows, rows, log, |log|, objects, 0)
  {
  }

  lemma NotCheckedYet(
    before: map<Key, PurgeRow>, rows: map<Key, PurgeRow>, log: seq<Observed>, from: nat, objects: seq<PurgeObject>,
    n: nat)
    requires CheckedTo(before, rows, log, from, objects, n) && n < |objects| && objects[n].key !in KeysTo(objects, n)
    requires PurgeKeys(objects) == before.Keys && objects[n].row == before[objects[n].key]
    ensures objects[n].key in rows && objects[n].row == rows[objects[n].key] && NoRemoval(log, from)
  {
    assert objects[n].key in PurgeKeys(objects);
  }

  lemma NextChecked(
    before: map<Key, PurgeRow>, rows: map<Key, PurgeRow>, after: map<Key, PurgeRow>, log: seq<Observed>,
    more: seq<Observed>, from: nat, objects: seq<PurgeObject>, n: nat)
    requires CheckedTo(before, rows, log, from, objects, n) && n < |objects| && objects[n].key !in KeysTo(objects, n)
    requires log <= more && NoRemoval(more, from) && Settled(more, from, objects[n].key) && after.Keys == rows.Keys
    requires forall x | x in after && x != objects[n].key :: after[x] == rows[x]
    requires objects[n].key in after && after[objects[n].key].verified
    requires after[objects[n].key].started == objects[n].row.started
    ensures CheckedTo(before, after, more, from, objects, n + 1)
    ensures KeysTo(objects, n + 1) == KeysTo(objects, n) + {objects[n].key}
  {
    hide NoRemoval, Settled, SettledUpTo, DistinctKeys, RowsDone, RowsLeft;
    assert KeysTo(objects, n + 1) == KeysTo(objects, n) + {objects[n].key};
    assert KeysTo(objects, n) == set j | 0 <= j < n :: objects[j].key;
    DistinctNext(objects, KeysTo(objects, n), n);
    RowsNext(before, rows, after, objects, KeysTo(objects, n), n);
    SettledNext(log, more, from, objects, n);
  }

  lemma AllChecked(
    before: map<Key, PurgeRow>, rows: map<Key, PurgeRow>, log: seq<Observed>, from: nat, objects: seq<PurgeObject>)
    requires CheckedTo(before, rows, log, from, objects, |objects|) && PurgeKeys(objects) == before.Keys
    ensures NoRemoval(log, from) && DistinctKeys(objects, |objects|) && SettledUpTo(log, from, objects, |objects|)
    ensures rows.Keys == before.Keys && AsRead(rows, objects, 0) && forall k | k in rows :: rows[k].verified
  {
    hide NoRemoval, SettledUpTo, DistinctKeys, AsRead;
    AllDone(rows, objects);
  }

  method CheckNext(
    w: PurgeWorld, objects: seq<PurgeObject>, i: nat, seen: set<Key>, ghost before: map<Key, PurgeRow>, ghost from: nat)
    returns (r: Answer<()>)
    requires w.Valid() && i < |objects| && w.rows.Keys == before.Keys && PurgeKeys(objects) == before.Keys
    requires objects[i].row == before[objects[i].key] && (Consistent(objects[i]) <==> objects[i].key != NO_KEY)
    requires seen == KeysTo(objects, i) && from <= |w.log| && CheckedTo(before, w.rows, w.log, from, objects, i)
    requires w.smooth ==> CheckableTo(w.initial, objects, i)
    modifies w`store, w`pending, w`rows, w`log, w`smooth
    ensures w.Valid() && w.rows.Keys == before.Keys && old(w.log) <= w.log && NoRemoval(w.log, from)
    ensures MovedOn(old(w.store), old(w.rows), w.store, w.rows)
    ensures r.Done? ==> CheckedTo(before, w.rows, w.log, from, objects, i + 1)
    ensures r.Done? ==> KeysTo(objects, i + 1) == seen + {objects[i].key}
    ensures w.smooth ==> old(w.smooth) && w.store == old(w.store)
    ensures w.smooth ==> if r.Done? then CheckableTo(w.initial, objects, i + 1) else !MayPurge(w.initial, objects)
  {
    var o := objects[i];
    StillNoRemoval(before, w.rows, w.log, from, objects, i);
    if w.smooth {
      NextCheckable(w.initial, objects, i);
      if o.key in seen {
        RepeatedKey(w.initial, objects, seen, i);
      }
    }
    hide PurgeWorld.Valid, NoRemoval, Settled, Consistent, CheckableTo, Checkable, MayPurge, PurgeKeys, KeysTo;
    hide CheckedTo;
    if !Consistent(o) || o.key in seen {
      return Stopped(ObjectMismatch);
    }
    var interrupted := w.Interrupted();
    if interrupted {
      return Stopped(Other(ContextCanceled));
    }
    NotCheckedYet(before, w.rows, w.log, from, objects, i);
    ghost var log, rows := w.log, w.rows;
    r := CheckObject(w, o, from);
    if !r.Done? {
      return;
    }
    NextChecked(before, rows, w.rows, log, w.log, from, objects, i);
  }

  method CheckAll(w: PurgeWorld, objects: seq<PurgeObject>) returns (r: Answer<()>)
    requires w.Valid() && PurgeKeys(objects) == w.rows.Keys
    requires forall i :: 0 <= i < |objects| ==> objects[i].row == w.rows[objects[i].key]
    modifies w`store, w`pending, w`rows, w`log, w`smooth
    ensures w.smooth ==> old(w.smooth) && w.store == old(w.store) && (r.Done? <==> MayPurge(w.initial, objects))
    ensures w.Valid() && w.rows.Keys == old(w.rows.Keys) && old(w.log) <= w.log && NoRemoval(w.log, |old(w.log)|)
    ensures MovedOn(old(w.store), old(w.rows), w.store, w.rows)
    ensures r.Done? ==> DistinctKeys(objects, |objects|) && AsRead(w.rows, objects, 0)
    ensures r.Done? ==>
              SettledUpTo(w.log, |old(w.log)|, objects, |objects|) && forall k | k in w.rows :: w.rows[k].verified
  {
    ghost var from, before, smooth0 := |w.log|, w.rows, w.smooth;
    RowsConsistent(w, objects);
    NoneChecked(before, w.log, objects);
    NoneCheckable(w.initial, objects);
    var seen := {};
    NotMoved(w.store, w.rows);
    hide PurgeWorld.Valid, NoRemoval, Settled, SettledUpTo, DistinctKeys, Consistent, CheckableTo, Checkable, MayPurge;
    hide AsRead, PurgeKeys, CheckedTo, MovedOn;
    for i := 0 to |objects|
      invariant w.Valid() && w.rows.Keys == before.Keys && old(w.log) <= w.log
      invariant seen == KeysTo(objects, i)
      invariant CheckedTo(before, w.rows, w.log, from, objects, i)
      invariant w.smooth ==> smooth0 && w.store == old(w.store) && CheckableTo(w.initial, objects, i)
      invariant MovedOn(old(w.store), before, w.store, w.rows)
    {
      ghost var store, rows := w.store, w.rows;
      r := CheckNext(w, objects, i, seen, before, from);
      MovedTwice(old(w.store), before, store, rows, w.store, w.rows);
      if !r.Done? {
        return;
      }
      seen := seen + {objects[i].key};
    }
    AllChecked(before, w.rows, w.log, from, objects);
    if w.smooth {
      AllCheckable(w.initial, objects);
    }
    return Done(());
  }

  lemma StillNoRemoval(
    before: map<Key, PurgeRow>, rows: map<Key, PurgeRow>, log: seq<Observed>, from: nat, objects: seq<PurgeObject>,
    n: nat)
    requires CheckedTo(before, rows, log, from, objects, n)
    ensures NoRemoval(log, from)
  {
  }

  lemma NoneCheckable(initial: map<Key, Bytes>, objects: seq<PurgeObject>)
    ensures CheckableTo(initial, objects, 0)
  {
  }

  lemma AllCheckable(initial: map<Key, Bytes>, objects: seq<PurgeObject>)
    requires CheckableTo(initial, objects, |objects|) && DistinctKeys(objects, |objects|)
    ensures MayPurge(initial, objects)
  {
  }

  /** Removes a key under its intent, observes that it is gone, and confirms that. */
  method RemoveAndConfirm(w: PurgeWorld, k: Key) returns (r: Answer<()>)
    requires w.Valid() && k in w.rows && w.rows[k].started && forall x | x in w.rows :: w.rows[x].verified
    modifies w`store, w`pending, w`rows, w`log, w`smooth
    ensures w.smooth ==> old(w.smooth) && r.Done?
    ensures w.Valid() && w.rows.Keys == old(w.rows.Keys) && old(w.log) <= w.log
    ensures MovedOn(old(w.store), old(w.rows), w.store, w.rows)
    ensures forall x | x in w.rows && x != k :: w.rows[x] == old(w.rows[x])
    ensures forall x | x in w.rows :: w.rows[x].verified
    ensures r.Done? ==> k !in w.store && w.rows[k].removed
    ensures r.Stopped? ==> r.error == Unknown
  {
    hide PurgeWorld.Valid;
    var gone := w.Remove(k);
    if !gone.Done? {
      return if gone.Crashed? then Crashed else Stopped(Unknown);
    }
    var there := w.Exists(k);
    if !there.Done? || there.value {
      return if there.Crashed? then Crashed else Stopped(Unknown);
    }
    r := w.ConfirmRemoval(k);
    return match r case Done(_) => r case Stopped(_) => Stopped(Unknown) case Crashed => Crashed;
  }

  /** The second phase for one object: its absence is observed, then confirmed. */
  method RemoveObject(w: PurgeWorld, o: PurgeObject) returns (r: Answer<()>)
    requires w.Valid() && o.key in w.rows && o.row.started == w.rows[o.key].started
    requires forall k | k in w.rows :: w.rows[k].verified
    modifies w`store, w`pending, w`rows, w`log, w`smooth
    ensures w.smooth ==> old(w.smooth) && r.Done?
    ensures w.Valid() && w.rows.Keys == old(w.rows.Keys) && old(w.log) <= w.log
    ensures MovedOn(old(w.store), old(w.rows), w.store, w.rows)
    ensures forall x | x in w.rows && x != o.key :: w.rows[x] == old(w.rows[x])
    ensures forall k | k in w.rows :: w.rows[k].verified
    ensures r.Done? ==> o.key !in w.store && w.rows[o.key].removed
    ensures r.Stopped? && r.error != Unknown ==> w.log == old(w.log)
  {
    if o.row.started {
      var there := w.Exists(o.key);
      if !there.Done? {
        return if there.Crashed? then Crashed else Stopped(Unknown);
      }
      if !there.value {
        r := w.ConfirmRemoval(o.key);
        return match r case Done(_) => r case Stopped(_) => Stopped(Unknown) case Crashed => Crashed;
      }
    } else {
      r := w.BeginRemoval(o.key);
      if !r.Done? {
        return;
      }
    }
    r := RemoveAndConfirm(w, o.key);
  }

  /** Every removal asked for since `from` comes after the whole set was settled. */
  ghost predicate VerifiedFirst(log: seq<Observed>, from: nat, objects: seq<PurgeObject>) {
    forall p, i :: from <= p < |log| && log[p].Removing? && 0 <= i < |objects| ==>
      Settled(log[..p], from, objects[i].key)
  }

  lemma LateRemovals(log: seq<Observed>, more: seq<Observed>, from: nat, objects: seq<PurgeObject>)
    requires NoRemoval(log, from) && SettledUpTo(log, from, objects, |objects|) && log <= more
    ensures VerifiedFirst(more, from, objects)
  {
    assert forall q :: 0 <= q < |log| ==> more[q] == log[q];
    forall p, i | from <= p < |more| && more[p].Removing? && 0 <= i < |objects|
      ensures Settled(more[..p], from, objects[i].key)
    {
      assert p >= |log|;
      SettledStays(log, more[..p], from, objects[i].key);
    }
  }

  lemma EarlyRemovals(log: seq<Observed>, from: nat, objects: seq<PurgeObject>)
    requires NoRemoval(log, from)
    ensures VerifiedFirst(log, from, objects)
  {
  }

  /** The second phase as far as `n`: everything before it is gone and confirmed, the others are as they were read. */
  ghost predicate RemovedTo(store: map<Key, Bytes>, rows: map<Key, PurgeRow>, objects: seq<PurgeObject>, n: nat) {
    && AsRead(rows, objects, n) && (forall k | k in rows :: rows[k].verified)
    && forall j :: 0 <= j < |objects| && j < n ==> objects[j].key !in store && rows[objects[j].key].removed
  }

  lemma NextRemoved(
    store: map<Key, Bytes>, rows: map<Key, PurgeRow>, less: map<Key, Bytes>, after: map<Key, PurgeRow>,
    objects: seq<PurgeObject>, n: nat)
    requires n < |objects| && DistinctKeys(objects, |objects|)
    requires RemovedTo(store, rows, objects, n) && MovedOn(store, rows, less, after)
    requires forall x | x in after && x != objects[n].key :: after[x] == rows[x]
    requires forall k | k in after :: after[k].verified
    requires objects[n].key in after && objects[n].key !in less && after[objects[n].key].removed
    ensures RemovedTo(less, after, objects, n + 1)
  {
    assert forall j :: 0 <= j < n ==> objects[j].key != objects[n].key;
    assert forall j :: n < j < |objects| ==> objects[n].key != objects[j].key;
  }

  lemma AtNext(store: map<Key, Bytes>, rows: map<Key, PurgeRow>, objects: seq<PurgeObject>, n: nat)
    requires n < |objects| && RemovedTo(store, rows, objects, n)
    ensures objects[n].key in rows && objects[n].row.started == rows[objects[n].key].started
    ensures forall k | k in rows :: rows[k].verified
  {
  }

  method RemoveNext(w: PurgeWorld, objects: seq<PurgeObject>, i: nat) returns (r: Answer<()>)
    requires w.Valid() && i < |objects| && DistinctKeys(objects, |objects|) && RemovedTo(w.store, w.rows, objects, i)
    modifies w`store, w`pending, w`rows, w`log, w`smooth
    ensures w.smooth ==> old(w.smooth) && r.Done?
    ensures w.Valid() && w.rows.Keys == old(w.rows.Keys) && old(w.log) <= w.log
    ensures MovedOn(old(w.store), old(w.rows), w.store, w.rows)
    ensures r.Done? ==> RemovedTo(w.store, w.rows, objects, i + 1)
  {
    hide PurgeWorld.Valid, RemovedTo, DistinctKeys;
    var interrupted := w.Interrupted();
    if interrupted {
      return Stopped(Other(ContextCanceled));
    }
    AtNext(w.store, w.rows, objects, i);
    ghost var store, rows := w.store, w.rows;
    r := RemoveObject(w, objects[i]);
    if r.Done? {
      NextRemoved(store, rows, w.store, w.rows, objects, i);
    }
  }

  method RemoveAll(w: PurgeWorld, objects: seq<PurgeObject>) returns (r: Answer<()>)
    requires w.Valid() && PurgeKeys(objects) == w.rows.Keys && DistinctKeys(objects, |objects|)
    requires AsRead(w.rows, objects, 0) && forall k | k in w.rows :: w.rows[k].verified
    modifies w`store, w`pending, w`rows, w`log, w`smooth
    ensures w.smooth ==> old(w.smooth) && r.Done?
    ensures w.Valid() && w.rows.Keys == old(w.rows.Keys) && old(w.log) <= w.log
    ensures MovedOn(old(w.store), old(w.rows), w.store, w.rows)
    ensures r.Done? ==> RemovedTo(w.store, w.rows, objects, |objects|)
  {
    ghost var smooth0 := w.smooth;
    assert RemovedTo(w.store, w.rows, objects, 0);
    NotMoved(w.store, w.rows);
    hide PurgeWorld.Valid, RemovedTo, DistinctKeys, PurgeKeys, AsRead, MovedOn;
    for i := 0 to |objects|
      invariant w.smooth ==> smooth0
      invariant w.Valid() && w.rows.Keys == old(w.rows.Keys) && old(w.log) <= w.log
      invariant RemovedTo(w.store, w.rows, objects, i) && MovedOn(old(w.store), old(w.rows), w.store, w.rows)
    {
      ghost var store, rows := w.store, w.rows;
      r := RemoveNext(w, objects, i);
      MovedTwice(old(w.store), old(w.rows), store, rows, w.store, w.rows);
      if !r.Done? {
        return;
      }
    }
    return Done(());
  }

  /**
    One call over the rows of one item as they were just read. No removal is asked for before every object
    was read and checked, or seen absent under its own earlier intent; success means that all of them are
    absent and confirmed. Nothing without a row goes away, what the rows have on record stays on record, and
    interrupted anywhere they allow the same call again. When nothing fails, the call succeeds exactly if the
    set is well formed and every object not yet on its way out has the expected bytes, and else removes nothing.
   */
  method RemovePurgeObjects(w: PurgeWorld, original: seq<PurgeObject>) returns (r: Answer<()>)
    requires w.Valid() && PurgeKeys(original) == w.rows.Keys
    requires forall i :: 0 <= i < |original| ==> original[i].row == w.rows[original[i].key]
    modifies w`store, w`pending, w`rows, w`log, w`smooth
    ensures w.smooth ==> old(w.smooth) && (r.Done? <==> 1 <= |original| <= MAX_OBJECTS && MayPurge(w.initial, original))
    ensures w.Valid() && w.rows.Keys == old(w.rows.Keys) && old(w.log) <= w.log
    ensures MovedOn(old(w.store), old(w.rows), w.store, w.rows)
    ensures VerifiedFirst(w.log, |old(w.log)|, original)
    ensures w.smooth && !r.Done? ==> w.store == old(w.store)
    ensures !(1 <= |original| <= MAX_OBJECTS) ==> r == Stopped(Invalid) && w.log == old(w.log)
    ensures r.Done? ==> 1 <= |original| <= MAX_OBJECTS && forall k | k in w.rows :: k !in w.store && w.rows[k].removed
  {
    hide PurgeWorld.Valid, VerifiedFirst, SettledUpTo, NoRemoval, DistinctKeys, AsRead;
    ghost var from := |w.log|;
    if |original| < 1 || |original| > MAX_OBJECTS {
      assert NoRemoval(w.log, from) by {
        Nothing(w.log);
      }
      EarlyRemovals(w.log, from, original);
      return Stopped(Invalid);
    }
    r := CheckAll(w, original);
    if !r.Done? {
      EarlyRemovals(w.log, from, original);
      return;
    }
    ghost var checked := w.log;
    r := RemoveAll(w, original);
    LateRemovals(checked, w.log, from, original);
    assert forall k | k in w.rows :: k in PurgeKeys(original);
  }

  lemma Nothing(log: seq<Observed>)
    ensures NoRemoval(log, |log|)
  {
  }

  // What the rows mean at any moment, also after a crash.

  /** An object is only ever missing under its own durable intent, with the digest of its bytes on record. */
  lemma MissingOnlyUnderIntent(w: PurgeWorld, k: Key)
    requires w.Valid() && k in w.rows && k in w.initial && k !in w.store
    ensures w.rows[k].started && RowMatches(w.rows[k], w.initial[k])
  {
    assert KeySafe(w.initial, w.store, k, w.rows[k]);
  }
}
