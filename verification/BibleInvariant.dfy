/**
  What every recorded change keeps. The records of one change are composed of six kinds of table update; each
  keeps `Inv`, which is everything the history validator asks for except the bound on redirect chains.
 */
module BibleInvariant {
  import opened Wrappers
  import opened Ids
  import opened Rows
  import opened BibleContent
  import opened BibleHistory

  // The table updates.

  /** Adds a look row for every look identity that appears for the first time. */
  function InsertLooks(rows: seq<LookRow>, ls: seq<Look>, entry: Id, at: Time): (r: seq<LookRow>)
    ensures rows <= r
  {
    if ls == [] then rows else
      var before := InsertLooks(rows, ls[..|ls| - 1], entry, at);
      var l := ls[|ls| - 1];
      if l.id in Index(before, LookRowId) then before else before + [LookRow(l.id, entry, at)]
  }

  function AddVersion(h: History, v: Version): History {
    h.(versions := h.versions + [v], looks := InsertLooks(h.looks, v.Looks(), v.entry, v.createdAt))
  }

  function AddHead(h: History, x: Head): History {
    h.(heads := h.heads + [x])
  }

  function SetHead(h: History, x: Head): History {
    h.(heads := Replace(h.heads, HeadId, x))
  }

  function AddConfirmation(h: History, c: Confirmation): History {
    h.(confirmations := h.confirmations + [c])
  }

  function AddRedirect(h: History, r: Link): History {
    h.(redirects := h.redirects + [r])
  }

  function AddSplit(h: History, r: Link): History {
    h.(splits := h.splits + [r])
  }

  // The invariant.

  ghost predicate Recent(h: History, t: Time) {
    && (forall x | x in h.heads :: x.createdAt <= t && x.updatedAt <= t)
    && (forall v | v in h.versions :: v.createdAt <= t)
    && (forall l | l in h.looks :: l.createdAt <= t)
  }

  /** A merge target that is itself merged later comes later in the table. */
  ghost predicate RedirectsOrdered(rs: seq<Link>) {
    forall i, j :: 0 <= i < |rs| && 0 <= j < |rs| && rs[i].target == rs[j].source ==> i < j
  }

  ghost predicate Inv(h: History, org: Id, project: Id, t: Time) {
    Closed(h, org, project) && Recent(h, t) && RedirectsOrdered(h.redirects)
  }

  // Rows stay acceptable while the tables they refer to grow.

  ghost predicate HeadsGrow(a: map<Id, Head>, b: map<Id, Head>) {
    forall k | k in a :: k in b && a[k].kind == b[k].kind && a[k].revision <= b[k].revision
  }

  ghost predicate RowsGrow<T(!new)>(a: map<Id, T>, b: map<Id, T>) {
    forall k | k in a :: k in b && a[k] == b[k]
  }

  lemma VersionRowKept(
    heads: map<Id, Head>, heads': map<Id, Head>, looks: map<Id, LookRow>, looks': map<Id, LookRow>,
    v: Version, org: Id, project: Id)
    requires HeadsGrow(heads, heads') && RowsGrow(looks, looks') && VersionRowOk(heads, looks, v, org, project)
    ensures VersionRowOk(heads', looks', v, org, project)
  {
  }

  lemma ConfirmationRowKept(
    heads: map<Id, Head>, heads': map<Id, Head>, versions: map<Id, Version>, versions': map<Id, Version>,
    c: Confirmation)
    requires HeadsGrow(heads, heads') && RowsGrow(versions, versions') && ConfirmationRowOk(heads, versions, c)
    ensures ConfirmationRowOk(heads', versions', c)
  {
  }

  lemma LinkKept(
    heads: map<Id, Head>, heads': map<Id, Head>, versions: map<Id, Version>, versions': map<Id, Version>, r: Link)
    requires HeadsGrow(heads, heads') && RowsGrow(versions, versions') && LinkOk(heads, versions, r)
    ensures LinkOk(heads', versions', r)
    ensures SplitRowOk(heads, versions, r) ==> SplitRowOk(heads', versions', r)
  {
  }

  /** A version of another entry does not disturb an entry's chain. */
  lemma ChainKept(versions: map<Id, Version>, v: Version, x: Head)
    requires v.id !in versions && v.entry != x.id && ChainOk(versions, x)
    ensures ChainOk(versions[v.id := v], x)
  {
  }

  // Identities.

  lemma IndexKeys<T>(s: seq<T>, key: T -> Id)
    ensures forall k :: k in Index(s, key) <==> k in Keys(s, key)
  {
    IndexHolds(s, key);
    forall k | k in Index(s, key) ensures k in Keys(s, key) {
      var x := Index(s, key)[k];
      var i :| 0 <= i < |s| && s[i] == x;
      assert Keys(s, key)[i] == k;
    }
    forall k | k in Keys(s, key) ensures k in Index(s, key) {
      var i :| 0 <= i < |s| && Keys(s, key)[i] == k;
      assert s[i] in s;
    }
  }

  /** Identities a step may add: distinct, not nil, and not taken yet. */
  ghost predicate NewIds(h: History, added: seq<Id>) {
    NoDup(added) && NIL !in added && forall k :: k in added ==> k !in AllIds(h)
  }

  lemma IdsExtended(h: History, g: History, added: seq<Id>)
    requires IdsOk(h)
    requires multiset(AllIds(g)) == multiset(AllIds(h)) + multiset(added)
    requires NewIds(h, added)
    ensures IdsOk(g)
    ensures forall k :: k in AllIds(g) <==> k in AllIds(h) || k in added
  {
    NoDupExtended(AllIds(h), added, AllIds(g));
  }

  lemma KeysAppend<T>(s: seq<T>, x: T, key: T -> Id)
    ensures Keys(s + [x], key) == Keys(s, key) + [key(x)]
    ensures Index(s + [x], key) == Index(s, key)[key(x) := x]
  {
    IndexAppend(s, x, key);
  }

  /** The look identities of `ls` that have no row yet. */
  function NewLooks(rows: seq<LookRow>, ls: seq<Look>): seq<Id> {
    if ls == [] then [] else
      var before := NewLooks(rows, ls[..|ls| - 1]);
      var l := ls[|ls| - 1];
      if l.id in Keys(rows, LookRowId) || l.id in before then before else before + [l.id]
  }

  lemma {:induction false} InsertLooksKeys(rows: seq<LookRow>, ls: seq<Look>, entry: Id, at: Time)
    ensures Keys(InsertLooks(rows, ls, entry, at), LookRowId) == Keys(rows, LookRowId) + NewLooks(rows, ls)
    ensures NoDup(NewLooks(rows, ls))
    ensures forall k :: k in NewLooks(rows, ls) <==> k !in Keys(rows, LookRowId) && exists l :: l in ls && l.id == k
    ensures forall l | l in InsertLooks(rows, ls, entry, at) :: l in rows || l == LookRow(l.id, entry, at)
  {
    if ls != [] {
      var front, l := ls[..|ls| - 1], ls[|ls| - 1];
      InsertLooksKeys(rows, front, entry, at);
      var before := InsertLooks(rows, front, entry, at);
      IndexKeys(before, LookRowId);
      KeysAppend(before, LookRow(l.id, entry, at), LookRowId);
      assert forall x :: x in ls <==> x in front || x == l;
      NoDupParts(NewLooks(rows, front), [l.id]);
    }
  }

  lemma {:induction false} InsertLooksIndex(rows: seq<LookRow>, ls: seq<Look>, entry: Id, at: Time)
    ensures RowsGrow(Index(rows, LookRowId), Index(InsertLooks(rows, ls, entry, at), LookRowId))
    ensures forall l | l in ls :: l.id in Index(InsertLooks(rows, ls, entry, at), LookRowId)
    ensures forall k | k in Index(InsertLooks(rows, ls, entry, at), LookRowId) && k !in Index(rows, LookRowId) ::
              Index(InsertLooks(rows, ls, entry, at), LookRowId)[k] == LookRow(k, entry, at)
  {
    if ls != [] {
      var front, l := ls[..|ls| - 1], ls[|ls| - 1];
      InsertLooksIndex(rows, front, entry, at);
      var before := InsertLooks(rows, front, entry, at);
      KeysAppend(before, LookRow(l.id, entry, at), LookRowId);
      assert forall x :: x in ls <==> x in front || x == l;
    }
  }

  // 1. A new entry with its first version.

  ghost predicate FirstVersion(x: Head, v: Version, now: Time) {
    && v.entry == x.id && v.kind == x.kind && v.org == x.org && v.project == x.project
    && v.number == 1 && v.previous == None && v.createdAt == now && v.Valid()
    && x.current == v.id && x.revision == 1 && x.confirmed == None && x.redirect == None
    && x.createdAt == x.updatedAt == now
  }

  function EntryAdded(h: History, x: Head, v: Version): History {
    AddVersion(AddHead(h, x), v)
  }

  lemma NotInTables(h: History, k: Id)
    requires k !in AllIds(h)
    ensures k !in Heads(h) && k !in Versions(h) && k !in LookRows(h)
    ensures k !in Keys(h.confirmations, ConfirmationId)
  {
    IndexKeys(h.heads, HeadId);
    IndexKeys(h.versions, VersionId);
    IndexKeys(h.looks, LookRowId);
  }

  lemma EntryTables(h: History, x: Head, v: Version)
    ensures Heads(EntryAdded(h, x, v)) == Heads(h)[x.id := x]
    ensures Versions(EntryAdded(h, x, v)) == Versions(h)[v.id := v]
    ensures RowsGrow(LookRows(h), LookRows(EntryAdded(h, x, v)))
  {
    IndexAppend(h.heads, x, HeadId);
    IndexAppend(h.versions, v, VersionId);
    InsertLooksIndex(h.looks, v.Looks(), v.entry, v.createdAt);
  }

  /** Adding to any of three tables adds to the identities of the tables together. */
  lemma Widened(a: seq<Id>, b: seq<Id>, c: seq<Id>, rest: seq<Id>, x: seq<Id>, y: seq<Id>, z: seq<Id>)
    ensures multiset((a + x) + (b + y) + (c + z) + rest) == multiset(a + b + c + rest) + multiset(x + z + y)
  {
    assert multiset((a + x) + (b + y) + (c + z) + rest) ==
           multiset(a) + multiset(x) + multiset(b) + multiset(y) + multiset(c) + multiset(z) + multiset(rest);
    assert multiset(a + b + c + rest) == multiset(a) + multiset(b) + multiset(c) + multiset(rest);
    assert multiset(x + z + y) == multiset(x) + multiset(z) + multiset(y);
  }

  lemma EntryAddedIds(h: History, x: Head, v: Version)
    requires IdsOk(h) && NewIds(h, [x.id, v.id] + NewLooks(h.looks, v.Looks()))
    ensures IdsOk(EntryAdded(h, x, v))
  {
    hide IdsOk, NewIds, NewLooks, InsertLooks, Index;
    var g, added := EntryAdded(h, x, v), NewLooks(h.looks, v.Looks());
    InsertLooksKeys(h.looks, v.Looks(), v.entry, v.createdAt);
    KeysAppend(h.heads, x, HeadId);
    KeysAppend(h.versions, v, VersionId);
    Widened(Keys(h.heads, HeadId), Keys(h.looks, LookRowId), Keys(h.versions, VersionId), RecordIds(h),
            [x.id], added, [v.id]);
    assert [x.id] + [v.id] == [x.id, v.id];
    IdsExtended(h, g, [x.id, v.id] + added);
  }

  /** Looks of a version whose identities are new, or are rows its entry already owns. */
  ghost predicate LooksInsertable(h: History, v: Version) {
    forall l | l in v.Looks() && l.id in LookRows(h) ::
      LookRows(h)[l.id].character == v.entry && LookRows(h)[l.id].createdAt <= v.createdAt
  }

  lemma InsertedLooksOk(h: History, heads: map<Id, Head>, v: Version)
    requires NoDup(Keys(h.looks, LookRowId))
    requires forall l | l in h.looks :: LookRowOk(heads, l) && l.id in UsedLooks(h.versions)
    requires LooksInsertable(h, v) && v.createdAt != 0
    requires v.Looks() != [] ==> v.entry in heads && heads[v.entry].kind == Character
    ensures var rows := InsertLooks(h.looks, v.Looks(), v.entry, v.createdAt);
            && (forall l | l in rows :: LookRowOk(heads, l) && l.id in UsedLooks(h.versions + [v]))
            && (forall l | l in v.Looks() :: LookOwned(Index(rows, LookRowId), v, l))
  {
    var rows := InsertLooks(h.looks, v.Looks(), v.entry, v.createdAt);
    InsertLooksKeys(h.looks, v.Looks(), v.entry, v.createdAt);
    InsertLooksIndex(h.looks, v.Looks(), v.entry, v.createdAt);
    IndexHolds(h.looks, LookRowId);
    forall l | l in rows ensures LookRowOk(heads, l) && l.id in UsedLooks(h.versions + [v]) {
      if l in h.looks {
        assert l.id in UsedLooks(h.versions);
        var u, k :| u in h.versions && k in u.Looks() && k.id == l.id;
        assert u in h.versions + [v];
      } else {
        InsertedFor(h.looks, v.Looks(), v.entry, v.createdAt, l);
        var k :| k in v.Looks() && k.id == l.id;
        assert v in h.versions + [v];
      }
    }
  }

  lemma {:induction false} InsertedFor(rows: seq<LookRow>, ls: seq<Look>, entry: Id, at: Time, l: LookRow)
    requires l in InsertLooks(rows, ls, entry, at) && l !in rows
    ensures l == LookRow(l.id, entry, at) && exists k :: k in ls && k.id == l.id
  {
    var k := ls[|ls| - 1];
    var before := InsertLooks(rows, ls[..|ls| - 1], entry, at);
    if l in before {
      InsertedFor(rows, ls[..|ls| - 1], entry, at, l);
    } else {
      assert k in ls && k.id == l.id;
    }
  }

  /** Version rows stay acceptable when heads, looks and one version are added. */
  lemma VersionRowsKept(h: History, g: History, v: Version, org: Id, project: Id)
    requires forall u | u in h.versions :: VersionRowOk(Heads(h), LookRows(h), u, org, project)
    requires HeadsGrow(Heads(h), Heads(g)) && RowsGrow(LookRows(h), LookRows(g))
    requires g.versions == h.versions + [v] && VersionRowOk(Heads(g), LookRows(g), v, org, project)
    ensures forall u | u in g.versions :: VersionRowOk(Heads(g), LookRows(g), u, org, project)
  {
    forall u | u in g.versions ensures VersionRowOk(Heads(g), LookRows(g), u, org, project) {
      if u in h.versions {
        VersionRowKept(Heads(h), Heads(g), LookRows(h), LookRows(g), u, org, project);
      }
    }
  }

  lemma NewChain(h: History, x: Head, v: Version)
    requires NoDup(Keys(h.versions, VersionId)) && x.id !in Heads(h)
    requires forall u | u in h.versions :: u.entry in Heads(h)
    requires v.entry == x.id && v.number == 1 && v.previous == None && x.current == v.id && x.revision == 1
    ensures ChainOk(Versions(h)[v.id := v], x)
  {
    IndexHolds(h.versions, VersionId);
    var vs := Versions(h)[v.id := v];
    assert forall k | k in vs && vs[k].entry == x.id :: k == v.id;
  }

  lemma ChainsKept(h: History, v: Version, entry: Id)
    requires v.id !in Versions(h) && v.entry == entry
    requires forall y | y in h.heads :: ChainOk(Versions(h), y)
    ensures forall y | y in h.heads && y.id != entry :: ChainOk(Versions(h)[v.id := v], y)
  {
    forall y | y in h.heads && y.id != entry ensures ChainOk(Versions(h)[v.id := v], y) {
      ChainKept(Versions(h), v, y);
    }
  }

  lemma EntryAddedLooks(h: History, x: Head, v: Version)
    requires NoDup(Keys(h.looks, LookRowId)) && x.id !in Heads(h)
    requires forall l | l in h.looks :: LookRowOk(Heads(h), l) && l.id in UsedLooks(h.versions)
    requires LooksInsertable(h, v) && v.createdAt != 0 && v.entry == x.id
    requires v.Looks() != [] ==> x.kind == Character
    ensures var g := EntryAdded(h, x, v);
            && (forall l | l in g.looks :: LookRowOk(Heads(g), l) && l.id in UsedLooks(g.versions))
            && (forall l | l in v.Looks() :: LookOwned(LookRows(g), v, l))
  {
    IndexAppend(h.heads, x, HeadId);
    forall l | l in h.looks ensures LookRowOk(Heads(h)[x.id := x], l) {
      assert LookRowOk(Heads(h), l);
    }
    InsertedLooksOk(h, Heads(h)[x.id := x], v);
  }

  lemma EntryAddedVersions(h: History, org: Id, project: Id, x: Head, v: Version)
    requires forall u | u in h.versions :: VersionRowOk(Heads(h), LookRows(h), u, org, project)
    requires x.id !in Heads(h) && x.org == org && x.project == project
    requires v.entry == x.id && v.kind == x.kind && v.org == x.org && v.project == x.project && v.Valid()
    requires forall l | l in v.Looks() :: LookOwned(LookRows(EntryAdded(h, x, v)), v, l)
    ensures var g := EntryAdded(h, x, v);
              forall u | u in g.versions :: VersionRowOk(Heads(g), LookRows(g), u, org, project)
  {
    EntryTables(h, x, v);
    VersionRowsKept(h, EntryAdded(h, x, v), v, org, project);
  }

  lemma EntryChains(h: History, x: Head, v: Version)
    requires NoDup(Keys(h.versions, VersionId)) && x.id !in Heads(h) && v.id !in Versions(h)
    requires forall u | u in h.versions :: u.entry in Heads(h)
    requires forall y | y in h.heads :: ChainOk(Versions(h), y) && y.id != x.id
    requires v.entry == x.id && v.number == 1 && v.previous == None && x.current == v.id && x.revision == 1
    ensures forall y | y in h.heads + [x] :: ChainOk(Versions(h)[v.id := v], y)
  {
    hide NoDup, Index, ChainOk;
    NewChain(h, x, v);
    ChainsKept(h, v, x.id);
    assert forall y | y in h.heads + [x] :: y in h.heads || y == x;
  }

  lemma EntryAddedChains(h: History, org: Id, project: Id, x: Head, v: Version, now: Time)
    requires IdsOk(h) && EntriesOk(h, org, project) && FirstVersion(x, v, now)
    requires x.id !in Heads(h) && v.id !in Versions(h)
    ensures var g := EntryAdded(h, x, v); forall y | y in g.heads :: ChainOk(Versions(g), y)
  {
    EntryTables(h, x, v);
    OtherHeads(h, x.id);
    TableIds(h);
    hide IdsOk, Index, NoDup, LookRowOk, HeadOk, ChainOk;
    EntryChains(h, x, v);
  }

  lemma OtherHeads(h: History, id: Id)
    requires id !in Heads(h)
    ensures forall y | y in h.heads :: y.id != id
  {
    IndexHolds(h.heads, HeadId);
  }

  lemma EntryAddedEntries(h: History, org: Id, project: Id, x: Head, v: Version, now: Time)
    requires IdsOk(h) && EntriesOk(h, org, project) && now != 0
    requires HeadOk(x, org, project) && FirstVersion(x, v, now) && LooksInsertable(h, v)
    requires x.id !in Heads(h) && v.id !in Versions(h)
    ensures EntriesOk(EntryAdded(h, x, v), org, project)
  {
    TableIds(h);
    EntryAddedLooks(h, x, v);
    EntryAddedVersions(h, org, project, x, v);
    EntryAddedChains(h, org, project, x, v, now);
  }

  lemma EntryAddedRecords(h: History, org: Id, project: Id, x: Head, v: Version)
    requires Closed(h, org, project) && x.id !in Heads(h) && v.id !in Versions(h)
    requires x.confirmed == None && x.redirect == None
    ensures ConfirmationsOk(EntryAdded(h, x, v)) && LinksOk(EntryAdded(h, x, v))
  {
    var g := EntryAdded(h, x, v);
    EntryTables(h, x, v);
    hide IdsOk, EntriesOk, ConfirmationsOk, LinksOk, Index;
    ConfirmationsGrow(h, g);
    LinksGrow(h, g);
  }

  lemma EntryAddedInv(h: History, org: Id, project: Id, x: Head, v: Version, t: Time, now: Time)
    requires Inv(h, org, project, t) && t <= now && now != 0
    requires HeadOk(x, org, project) && FirstVersion(x, v, now) && LooksInsertable(h, v)
    requires NewIds(h, [x.id, v.id] + NewLooks(h.looks, v.Looks()))
    ensures Inv(EntryAdded(h, x, v), org, project, now)
  {
    assert [x.id, v.id][0] == x.id && [x.id, v.id][1] == v.id;
    NotInTables(h, x.id);
    NotInTables(h, v.id);
    EntryAddedIds(h, x, v);
    EntryAddedEntries(h, org, project, x, v, now);
    EntryAddedRecords(h, org, project, x, v);
    InsertedRecent(h, v, t, now);
  }

  lemma InsertedRecent(h: History, v: Version, t: Time, now: Time)
    requires Recent(h, t) && t <= now && v.createdAt == now
    ensures Recent(AddVersion(h, v), now)
  {
    InsertLooksKeys(h.looks, v.Looks(), v.entry, v.createdAt);
  }

  lemma VersionAddedRecent(h: History, x: Head, v: Version, t: Time, now: Time)
    requires Recent(h, t) && t <= now && v.createdAt == now && x in h.heads
    ensures Recent(VersionAdded(h, x, v), now)
  {
    InsertedRecent(h, v, t, now);
    ReplacedRecent(AddVersion(h, v), x.(current := v.id), now);
  }

  lemma ReplacedRecent(h: History, y: Head, now: Time)
    requires Recent(h, now) && y.createdAt <= now && y.updatedAt <= now
    ensures Recent(SetHead(h, y), now)
  {
  }

  /** Confirmations stay acceptable when entries and versions are added or entries move on. */
  lemma ConfirmationsGrow(h: History, g: History)
    requires ConfirmationsOk(h) && g.confirmations == h.confirmations
    requires HeadsGrow(Heads(h), Heads(g)) && RowsGrow(Versions(h), Versions(g))
    requires forall x | x in g.heads :: x.confirmed.Some? ==>
      exists y | y in h.heads :: y.id == x.id && y.confirmed == x.confirmed
    ensures ConfirmationsOk(g)
  {
    forall c | c in g.confirmations ensures ConfirmationRowOk(Heads(g), Versions(g), c) {
      ConfirmationRowKept(Heads(h), Heads(g), Versions(h), Versions(g), c);
    }
    forall x | x in g.heads ensures ConfirmedOk(Versions(g), Confirmed(g.confirmations), x) {
      if x.confirmed.Some? {
        var y :| y in h.heads && y.id == x.id && y.confirmed == x.confirmed;
        assert ConfirmedOk(Versions(h), Confirmed(h.confirmations), y);
      }
    }
  }

  /** Redirects and splits stay acceptable when only entries, versions or confirmations are added. */
  lemma LinksGrow(h: History, g: History)
    requires LinksOk(h) && g.redirects == h.redirects && g.splits == h.splits
    requires HeadsGrow(Heads(h), Heads(g)) && RowsGrow(Versions(h), Versions(g))
    requires Confirmed(h.confirmations) <= Confirmed(g.confirmations)
    requires forall k | k in Heads(h) :: Heads(g)[k].redirect == Heads(h)[k].redirect
    requires forall x | x in g.heads :: x.redirect.Some? ==>
               exists y | y in h.heads :: y.id == x.id && y.redirect == x.redirect
    ensures LinksOk(g)
  {
    forall r | r in g.redirects ensures RedirectRowOk(Heads(g), Versions(g), Confirmed(g.confirmations), r) {
      LinkKept(Heads(h), Heads(g), Versions(h), Versions(g), r);
    }
    forall r | r in g.splits ensures SplitRowOk(Heads(g), Versions(g), r) {
      LinkKept(Heads(h), Heads(g), Versions(h), Versions(g), r);
    }
    forall x | x in g.heads ensures RedirectRecorded(Redirects(g), x) {
      if x.redirect.Some? {
        var y :| y in h.heads && y.id == x.id && y.redirect == x.redirect;
        assert RedirectRecorded(Redirects(h), y);
      }
    }
  }

  // 2. An entry moves on: a higher revision, a later time, deleted or restored.

  /** The rows and identities after a head is replaced by a newer one of the same entry. */
  lemma HeadSetTables(h: History, y: Head)
    requires y.id in Heads(h) && NoDup(Keys(h.heads, HeadId))
    ensures Heads(SetHead(h, y)) == Heads(h)[y.id := y]
    ensures AllIds(SetHead(h, y)) == AllIds(h)
    ensures forall z | z in SetHead(h, y).heads :: z == y || (z in h.heads && z.id != y.id)
    ensures y in SetHead(h, y).heads
  {
    ReplaceIndex(h.heads, HeadId, y);
    IndexHolds(h.heads, HeadId);
    var x := Heads(h)[y.id];
    var i :| 0 <= i < |h.heads| && h.heads[i] == x;
    assert SetHead(h, y).heads[i] == y;
  }

  ghost predicate MovedOn(x: Head, y: Head, now: Time) {
    y == x.(revision := y.revision, updatedAt := now, deleted := y.deleted) && x.revision <= y.revision
  }

  /** A later row of the same entry at the same version. */
  ghost predicate Later(x: Head, y: Head) {
    && y.id == x.id && y.kind == x.kind && y.org == x.org && y.project == x.project
    && y.current == x.current && y.createdAt == x.createdAt
    && x.revision <= y.revision && x.updatedAt <= y.updatedAt
    && (y.kind != Character ==> y.redirect == None)
  }

  lemma LaterRows(h: History, org: Id, project: Id, x: Head, y: Head)
    requires NoDup(Keys(h.heads, HeadId)) && x in h.heads && Later(x, y)
    requires forall l | l in h.looks :: LookRowOk(Heads(h), l)
    requires forall v | v in h.versions :: VersionRowOk(Heads(h), LookRows(h), v, org, project)
    ensures var g := SetHead(h, y);
            && (forall l | l in g.looks :: LookRowOk(Heads(g), l))
            && (forall v | v in g.versions :: VersionRowOk(Heads(g), LookRows(g), v, org, project))
  {
    IndexHolds(h.heads, HeadId);
    HeadSetTables(h, y);
    var heads := Heads(h)[x.id := y];
    assert HeadsGrow(Heads(h), heads);
    forall v | v in h.versions ensures VersionRowOk(heads, LookRows(h), v, org, project) {
      VersionRowKept(Heads(h), heads, LookRows(h), LookRows(h), v, org, project);
    }
  }

  lemma LaterChains(h: History, org: Id, project: Id, x: Head, y: Head)
    requires NoDup(Keys(h.heads, HeadId)) && x in h.heads && Later(x, y)
    requires forall z | z in h.heads :: HeadOk(z, org, project) && ChainOk(Versions(h), z)
    ensures forall z | z in SetHead(h, y).heads :: HeadOk(z, org, project) && ChainOk(Versions(h), z)
  {
    IndexHolds(h.heads, HeadId);
    HeadSetTables(h, y);
    assert ChainOk(Versions(h), x) && ChainOk(Versions(h), y);
  }

  lemma LaterEntries(h: History, org: Id, project: Id, x: Head, y: Head)
    requires IdsOk(h) && EntriesOk(h, org, project) && x in h.heads && Later(x, y)
    ensures EntriesOk(SetHead(h, y), org, project)
  {
    TableIds(h);
    LaterRows(h, org, project, x, y);
    LaterChains(h, org, project, x, y);
  }

  lemma MovedOnInv(h: History, org: Id, project: Id, x: Head, y: Head, t: Time, now: Time)
    requires Inv(h, org, project, t) && t <= now && x in h.heads && MovedOn(x, y, now)
    ensures Inv(SetHead(h, y), org, project, now)
  {
    assert HeadOk(x, org, project);
    LaterEntries(h, org, project, x, y);
    TableIds(h);
    IndexHolds(h.heads, HeadId);
    HeadSetTables(h, y);
    SameRecords(h, SetHead(h, y), x, y);
  }

  /** Confirmations and links do not depend on anything that changes when an entry moves on. */
  lemma SameRecords(h: History, g: History, x: Head, y: Head)
    requires ConfirmationsOk(h) && LinksOk(h)
    requires g.confirmations == h.confirmations && g.redirects == h.redirects && g.splits == h.splits
    requires x in h.heads && x.id == y.id && x.id in Heads(h) && Heads(h)[x.id] == x
    requires x.kind == y.kind && x.revision <= y.revision && x.confirmed == y.confirmed && x.redirect == y.redirect
    requires Heads(g) == Heads(h)[y.id := y] && RowsGrow(Versions(h), Versions(g))
    requires forall z | z in g.heads :: z == y || z in h.heads
    ensures ConfirmationsOk(g) && LinksOk(g)
  {
    ConfirmationsGrow(h, g);
    LinksGrow(h, g);
  }

  // 3. A further version of an entry.

  ghost predicate NextVersion(h: History, x: Head, v: Version, now: Time) {
    && v.entry == x.id && v.kind == x.kind && v.org == x.org && v.project == x.project
    && x.current in Versions(h)
    && v.number == Versions(h)[x.current].number + 1 && v.number <= x.revision
    && v.previous == Some(x.current) && v.createdAt == now && v.Valid()
  }

  function VersionAdded(h: History, x: Head, v: Version): History {
    SetHead(AddVersion(h, v), x.(current := v.id))
  }

  lemma VersionTables(h: History, x: Head, v: Version)
    requires NoDup(Keys(h.heads, HeadId)) && x in h.heads
    ensures Heads(VersionAdded(h, x, v)) == Heads(h)[x.id := x.(current := v.id)]
    ensures Versions(VersionAdded(h, x, v)) == Versions(h)[v.id := v]
    ensures RowsGrow(LookRows(h), LookRows(VersionAdded(h, x, v)))
    ensures forall z | z in VersionAdded(h, x, v).heads :: z == x.(current := v.id) || (z in h.heads && z.id != x.id)
  {
    IndexHolds(h.heads, HeadId);
    HeadSetTables(AddVersion(h, v), x.(current := v.id));
    IndexAppend(h.versions, v, VersionId);
    InsertLooksIndex(h.looks, v.Looks(), v.entry, v.createdAt);
  }

  lemma NextChain(h: History, x: Head, v: Version, now: Time)
    requires ChainOk(Versions(h), x) && NextVersion(h, x, v, now) && v.id !in Versions(h)
    requires Versions(h)[x.current].number >= 1
    ensures ChainOk(Versions(h)[v.id := v], x.(current := v.id))
  {
    var vs := Versions(h)[v.id := v];
    assert PreviousOk(vs, v);
    forall k | k in Versions(h) && Versions(h)[k].entry == x.id ensures PreviousOk(vs, Versions(h)[k]) {
      assert PreviousOk(Versions(h), Versions(h)[k]);
    }
  }

  lemma VersionAddedLooks(h: History, x: Head, v: Version)
    requires NoDup(Keys(h.looks, LookRowId)) && NoDup(Keys(h.heads, HeadId)) && x in h.heads
    requires forall l | l in h.looks :: LookRowOk(Heads(h), l) && l.id in UsedLooks(h.versions)
    requires LooksInsertable(h, v) && v.createdAt != 0 && v.entry == x.id
    requires v.Looks() != [] ==> x.kind == Character
    ensures var g := VersionAdded(h, x, v);
            && (forall l | l in g.looks :: LookRowOk(Heads(g), l) && l.id in UsedLooks(g.versions))
            && (forall l | l in v.Looks() :: LookOwned(LookRows(g), v, l))
  {
    VersionTables(h, x, v);
    IndexHolds(h.heads, HeadId);
    var heads := Heads(h)[x.id := x.(current := v.id)];
    forall l | l in h.looks ensures LookRowOk(heads, l) {
      assert LookRowOk(Heads(h), l);
    }
    InsertedLooksOk(h, heads, v);
  }

  lemma VersionAddedVersions(h: History, org: Id, project: Id, x: Head, v: Version)
    requires NoDup(Keys(h.heads, HeadId)) && x in h.heads
    requires forall u | u in h.versions :: VersionRowOk(Heads(h), LookRows(h), u, org, project)
    requires x.org == org && x.project == project
    requires v.entry == x.id && v.kind == x.kind && v.org == x.org && v.project == x.project && v.Valid()
    requires forall l | l in v.Looks() :: LookOwned(LookRows(VersionAdded(h, x, v)), v, l)
    ensures var g := VersionAdded(h, x, v);
              forall u | u in g.versions :: VersionRowOk(Heads(g), LookRows(g), u, org, project)
  {
    VersionTables(h, x, v);
    IndexHolds(h.heads, HeadId);
    VersionRowsKept(h, VersionAdded(h, x, v), v, org, project);
  }

  lemma VersionAddedEntries(h: History, org: Id, project: Id, x: Head, v: Version, now: Time)
    requires IdsOk(h) && EntriesOk(h, org, project) && now != 0 && x in h.heads
    requires NextVersion(h, x, v, now) && LooksInsertable(h, v) && v.id !in Versions(h)
    ensures EntriesOk(VersionAdded(h, x, v), org, project)
  {
    TableIds(h);
    VersionAddedLooks(h, x, v);
    VersionAddedVersions(h, org, project, x, v);
    VersionAddedHeads(h, org, project, x, v);
    CurrentNumber(h, org, project, x);
    VersionAddedChains(h, x, v, now);
    hide IdsOk, NoDup, Index, VersionRowOk, LookRowOk, LooksInsertable, UsedLooks, ChainOk, HeadOk, VersionAdded;
    hide NextVersion;
  }

  lemma CurrentNumber(h: History, org: Id, project: Id, x: Head)
    requires EntriesOk(h, org, project) && x.current in Versions(h)
    ensures Versions(h)[x.current].number >= 1
  {
    IndexHolds(h.versions, VersionId);
    assert Versions(h)[x.current] in h.versions;
    assert VersionRowOk(Heads(h), LookRows(h), Versions(h)[x.current], org, project);
  }

  lemma VersionAddedHeads(h: History, org: Id, project: Id, x: Head, v: Version)
    requires NoDup(Keys(h.heads, HeadId)) && x in h.heads && forall y | y in h.heads :: HeadOk(y, org, project)
    ensures forall y | y in VersionAdded(h, x, v).heads :: HeadOk(y, org, project)
  {
    VersionTables(h, x, v);
    assert HeadOk(x, org, project);
    hide NoDup, Index, VersionAdded;
  }

  lemma VersionAddedChains(h: History, x: Head, v: Version, now: Time)
    requires NoDup(Keys(h.heads, HeadId)) && x in h.heads && forall y | y in h.heads :: ChainOk(Versions(h), y)
    requires NextVersion(h, x, v, now) && v.id !in Versions(h) && Versions(h)[x.current].number >= 1
    ensures var g := VersionAdded(h, x, v); forall y | y in g.heads :: ChainOk(Versions(g), y)
  {
    VersionTables(h, x, v);
    assert v.entry == x.id;
    NextChain(h, x, v, now);
    ChainsKept(h, v, x.id);
    hide NoDup, Index, VersionAdded, ChainOk, NextVersion;
  }

  lemma VersionAddedIds(h: History, x: Head, v: Version)
    requires IdsOk(h) && x in h.heads && NewIds(h, [v.id] + NewLooks(h.looks, v.Looks()))
    ensures IdsOk(VersionAdded(h, x, v))
  {
    hide IdsOk, NewIds, NewLooks, InsertLooks;
    var g, added := AddVersion(h, v), NewLooks(h.looks, v.Looks());
    assert AllIds(VersionAdded(h, x, v)) == AllIds(g) by {
      TableIds(h);
      IndexHolds(h.heads, HeadId);
      HeadSetTables(g, x.(current := v.id));
    }
    hide Index;
    InsertLooksKeys(h.looks, v.Looks(), v.entry, v.createdAt);
    KeysAppend(h.versions, v, VersionId);
    Widened(Keys(h.heads, HeadId), Keys(h.looks, LookRowId), Keys(h.versions, VersionId),
      RecordIds(h), [], added, [v.id]);
    assert Keys(h.heads, HeadId) + [] == Keys(h.heads, HeadId) && [] + [v.id] + added == [v.id] + added;
    IdsExtended(h, VersionAdded(h, x, v), [v.id] + added);
  }

  lemma VersionAddedInv(h: History, org: Id, project: Id, x: Head, v: Version, t: Time, now: Time)
    requires Inv(h, org, project, t) && t <= now && now != 0 && x in h.heads
    requires NextVersion(h, x, v, now) && LooksInsertable(h, v)
    requires NewIds(h, [v.id] + NewLooks(h.looks, v.Looks()))
    ensures Inv(VersionAdded(h, x, v), org, project, now)
  {
    hide IdsOk, EntriesOk, ConfirmationsOk, LinksOk, LooksInsertable, NewLooks;
    assert ([v.id] + NewLooks(h.looks, v.Looks()))[0] == v.id;
    NotInTables(h, v.id);
    VersionAddedIds(h, x, v);
    VersionAddedEntries(h, org, project, x, v, now);
    TableIds(h);
    IndexHolds(h.heads, HeadId);
    VersionTables(h, x, v);
    hide NoDup, Index, NewIds;
    SameRecords(h, VersionAdded(h, x, v), x, x.(current := v.id));
    VersionAddedRecent(h, x, v, t, now);
    hide Recent;
  }

  // 4. A confirmation.

  /** Adding to any of the last three tables adds to all identities. */
  lemma RecordsWidened(h: History, g: History, x: seq<Id>, y: seq<Id>, z: seq<Id>)
    requires EntryIds(g) == EntryIds(h)
    requires Keys(g.confirmations, ConfirmationId) == Keys(h.confirmations, ConfirmationId) + x
    requires Keys(g.redirects, LinkId) == Keys(h.redirects, LinkId) + y
    requires Keys(g.splits, LinkId) == Keys(h.splits, LinkId) + z
    requires IdsOk(h) && NewIds(h, x + z + y)
    ensures IdsOk(g)
  {
    hide IdsOk, NewIds;
    Widened(Keys(h.confirmations, ConfirmationId), Keys(h.redirects, LinkId),
      Keys(h.splits, LinkId), EntryIds(h), x, y, z);
    assert multiset(AllIds(g)) == multiset(RecordIds(g) + EntryIds(g));
    assert multiset(AllIds(h)) == multiset(RecordIds(h) + EntryIds(h));
    IdsExtended(h, g, x + z + y);
  }

  function ConfirmationAdded(h: History, x: Head, c: Confirmation): History {
    SetHead(AddConfirmation(h, c), x.(confirmed := Some(c.version)))
  }

  ghost predicate NextConfirmation(h: History, x: Head, c: Confirmation, now: Time) {
    && c.entry == x.id && c.kind == x.kind && c.revision == x.revision && c.actor != NIL && c.createdAt == now
    && c.version in Versions(h) && Versions(h)[c.version].entry == x.id
    && (forall a | a in h.confirmations && a.entry == x.id :: a.revision < x.revision)
  }

  lemma ConfirmationAddedRows(h: History, org: Id, project: Id, x: Head, c: Confirmation, t: Time, now: Time)
    requires IdsOk(h) && Recent(h, t) && t <= now && now != 0 && x in h.heads && NextConfirmation(h, x, c, now)
    requires forall a | a in h.confirmations :: ConfirmationRowOk(Heads(h), Versions(h), a)
    requires Versions(h)[c.version].kind == x.kind && x.revision >= 1
    ensures var g := ConfirmationAdded(h, x, c);
            forall a | a in g.confirmations :: ConfirmationRowOk(Heads(g), Versions(g), a)
  {
    var g, y := ConfirmationAdded(h, x, c), x.(confirmed := Some(c.version));
    TableIds(h);
    IndexHolds(h.heads, HeadId);
    IndexHolds(h.versions, VersionId);
    HeadSetTables(AddConfirmation(h, c), y);
    assert Versions(h)[c.version] in h.versions;
    forall a | a in h.confirmations ensures ConfirmationRowOk(Heads(g), Versions(g), a) {
      ConfirmationRowKept(Heads(h), Heads(g), Versions(h), Versions(g), a);
    }
  }

  lemma ConfirmationAddedHeads(h: History, x: Head, c: Confirmation, now: Time)
    requires NoDup(Keys(h.heads, HeadId)) && x in h.heads && NextConfirmation(h, x, c, now)
    requires ConfirmationsDistinct(h.confirmations)
    requires forall z | z in h.heads :: ConfirmedOk(Versions(h), Confirmed(h.confirmations), z)
    ensures var g := ConfirmationAdded(h, x, c);
            && ConfirmationsDistinct(g.confirmations)
            && Confirmed(h.confirmations) <= Confirmed(g.confirmations)
            && forall z | z in g.heads :: ConfirmedOk(Versions(g), Confirmed(g.confirmations), z)
  {
    var g, y := ConfirmationAdded(h, x, c), x.(confirmed := Some(c.version));
    IndexHolds(h.heads, HeadId);
    HeadSetTables(AddConfirmation(h, c), y);
    assert c in g.confirmations;
    forall z | z in g.heads ensures ConfirmedOk(Versions(g), Confirmed(g.confirmations), z) {
      if z != y {
        assert ConfirmedOk(Versions(h), Confirmed(h.confirmations), z);
      }
    }
  }

  lemma EntriesSame(h: History, g: History, org: Id, project: Id)
    requires EntriesOk(h, org, project)
    requires g.heads == h.heads && g.versions == h.versions && g.looks == h.looks
    ensures EntriesOk(g, org, project)
  {
  }

  lemma LaterTables(h: History, x: Head, y: Head)
    requires NoDup(Keys(h.heads, HeadId)) && x in h.heads && x.id == y.id
    ensures x.id in Heads(h) && Heads(h)[x.id] == x
    ensures Heads(SetHead(h, y)) == Heads(h)[x.id := y] && EntryIds(SetHead(h, y)) == EntryIds(h)
    ensures forall z | z in SetHead(h, y).heads :: z == y || (z in h.heads && z.id != x.id)
  {
    IndexHolds(h.heads, HeadId);
    HeadSetTables(h, y);
    ReplaceIndex(h.heads, HeadId, y);
  }

  /** Entries after a record is added and its head is replaced by a later row. */
  lemma RecordAddedEntries(h: History, g: History, org: Id, project: Id, x: Head, y: Head)
    requires IdsOk(h) && EntriesOk(h, org, project) && x in h.heads && Later(x, y)
    requires g.heads == SetHead(h, y).heads && g.versions == h.versions && g.looks == h.looks
    ensures EntriesOk(g, org, project) && EntryIds(g) == EntryIds(h) && Heads(g) == Heads(h)[x.id := y]
    ensures forall z | z in g.heads :: z == y || (z in h.heads && z.id != x.id)
    ensures x.id in Heads(h) && Heads(h)[x.id] == x
  {
    assert NoDup(Keys(h.heads, HeadId)) by {
      TableIds(h);
    }
    LaterTables(h, x, y);
    LaterEntries(h, org, project, x, y);
    EntriesSame(SetHead(h, y), g, org, project);
  }

  lemma ConfirmationAddedInv(h: History, org: Id, project: Id, x: Head, c: Confirmation, t: Time, now: Time)
    requires Inv(h, org, project, t) && t <= now && now != 0 && x in h.heads
    requires NextConfirmation(h, x, c, now) && NewIds(h, [c.id])
    ensures Inv(ConfirmationAdded(h, x, c), org, project, now)
  {
    var g, y := ConfirmationAdded(h, x, c), x.(confirmed := Some(c.version));
    assert HeadOk(x, org, project);
    hide IdsOk, LinksOk, NewIds;
    ConfirmedKind(h, org, project, x, c);
    ConfirmationRecent(h, x, c, t, now);
    hide EntriesOk, Recent;
    RecordAddedEntries(h, g, org, project, x, y);
    ConfirmationAddedConfirmations(h, org, project, x, c, t, now);
    hide NoDup, Index, ConfirmationsOk, NextConfirmation;
    ConfirmationAddedIds(h, x, c);
    LinksGrow(h, g);
  }

  lemma ConfirmationRecent(h: History, x: Head, c: Confirmation, t: Time, now: Time)
    requires Recent(h, t) && t <= now && x in h.heads && c.createdAt == now
    ensures Recent(ConfirmationAdded(h, x, c), now)
  {
    ReplacedRecent(AddConfirmation(h, c), x.(confirmed := Some(c.version)), now);
  }

  lemma ConfirmationAddedConfirmations(h: History, org: Id, project: Id, x: Head, c: Confirmation, t: Time, now: Time)
    requires IdsOk(h) && Recent(h, t) && t <= now && now != 0 && x in h.heads && NextConfirmation(h, x, c, now)
    requires ConfirmationsOk(h) && Versions(h)[c.version].kind == x.kind && x.revision >= 1
    ensures ConfirmationsOk(ConfirmationAdded(h, x, c))
    ensures Confirmed(h.confirmations) <= Confirmed(ConfirmationAdded(h, x, c).confirmations)
  {
    ConfirmationAddedRows(h, org, project, x, c, t, now);
    TableIds(h);
    hide IdsOk, Recent, ConfirmationRowOk, ConfirmedOk, ConfirmationsDistinct;
    ConfirmationAddedHeads(h, x, c, now);
  }

  lemma ConfirmedKind(h: History, org: Id, project: Id, x: Head, c: Confirmation)
    requires IdsOk(h) && EntriesOk(h, org, project) && x in h.heads
    requires c.version in Versions(h) && Versions(h)[c.version].entry == x.id
    ensures Versions(h)[c.version].kind == x.kind
  {
    TableIds(h);
    IndexHolds(h.versions, VersionId);
    IndexHolds(h.heads, HeadId);
    assert VersionRowOk(Heads(h), LookRows(h), Versions(h)[c.version], org, project);
  }

  lemma ConfirmationAddedIds(h: History, x: Head, c: Confirmation)
    requires IdsOk(h) && NewIds(h, [c.id])
    requires EntryIds(SetHead(h, x.(confirmed := Some(c.version)))) == EntryIds(h)
    ensures IdsOk(ConfirmationAdded(h, x, c))
  {
    hide IdsOk, NewIds;
    KeysAppend(h.confirmations, c, ConfirmationId);
    assert [c.id] + [] + [] == [c.id];
    RecordsWidened(h, ConfirmationAdded(h, x, c), [c.id], [], []);
  }

  // 5. A merge redirect.

  function RedirectAdded(h: History, x: Head, r: Link): History {
    SetHead(AddRedirect(h, r), x.(redirect := Some(r.target)))
  }

  ghost predicate NextRedirect(h: History, x: Head, r: Link) {
    && x.redirect == None && r.source == x.id
    && r.target in Heads(h) && Heads(h)[r.target].redirect == None
    && LinkOk(Heads(h), Versions(h), r)
    && r.sourceVersion in Confirmed(h.confirmations) && r.targetVersion in Confirmed(h.confirmations)
  }

  lemma NotYetRedirected(h: History, x: Head)
    requires LinksOk(h) && x.id in Heads(h) && Heads(h)[x.id].redirect == None
    ensures forall r | r in h.redirects :: r.source != x.id
  {
    forall r | r in h.redirects ensures r.source != x.id {
      assert RedirectRowOk(Heads(h), Versions(h), Confirmed(h.confirmations), r);
    }
  }

  lemma RedirectRowKept(h: History, x: Head, r: Link, heads: map<Id, Head>, a: Link)
    requires NextRedirect(h, x, r) && x.id in Heads(h) && Heads(h)[x.id] == x
    requires heads == Heads(h)[x.id := x.(redirect := Some(r.target))]
    requires a == r || (a.source != x.id && RedirectRowOk(Heads(h), Versions(h), Confirmed(h.confirmations), a))
    ensures RedirectRowOk(heads, Versions(h), Confirmed(h.confirmations), a)
  {
    hide Index, Confirmed;
    LinkKept(Heads(h), heads, Versions(h), Versions(h), a);
  }

  /** The tables after a merge, and the redirects before it. */
  lemma RedirectTables(h: History, x: Head, r: Link)
    requires NoDup(Keys(h.heads, HeadId)) && x in h.heads && LinksOk(h) && NextRedirect(h, x, r)
    ensures var g, y := RedirectAdded(h, x, r), x.(redirect := Some(r.target));
            && x.id in Heads(h) && Heads(h)[x.id] == x && Heads(g) == Heads(h)[x.id := y]
            && (forall z | z in g.heads :: z == y || (z in h.heads && z.id != x.id))
            && NoDup(Keys(g.redirects, LinkSource)) && Redirects(g) == Redirects(h)[r.source := r]
    ensures forall a | a in h.redirects :: a.source != x.id
  {
    var g, y := RedirectAdded(h, x, r), x.(redirect := Some(r.target));
    LaterTables(h, x, y);
    NotYetRedirected(h, x);
    KeysAppend(h.redirects, r, LinkSource);
    IndexAppend(h.redirects, r, LinkSource);
    hide LinksOk, Index;
    NoDupParts(Keys(h.redirects, LinkSource), [r.source]);
    assert r.source !in Keys(h.redirects, LinkSource) by {
      SourceUnused(h.redirects, x.id);
    }
    hide NoDup;
  }

  lemma SourceUnused(rs: seq<Link>, id: Id)
    requires forall a | a in rs :: a.source != id
    ensures id !in Keys(rs, LinkSource)
  {
  }

  lemma RedirectRowsKept(h: History, x: Head, r: Link, heads: map<Id, Head>)
    requires NextRedirect(h, x, r) && x.id in Heads(h) && Heads(h)[x.id] == x
    requires forall a | a in h.redirects :: a.source != x.id
    requires forall a | a in h.redirects :: RedirectRowOk(Heads(h), Versions(h), Confirmed(h.confirmations), a)
    requires heads == Heads(h)[x.id := x.(redirect := Some(r.target))]
    ensures forall a | a in h.redirects + [r] :: RedirectRowOk(heads, Versions(h), Confirmed(h.confirmations), a)
  {
    hide RedirectRowOk, Index, Confirmed, NextRedirect;
    forall a | a in h.redirects + [r] ensures RedirectRowOk(heads, Versions(h), Confirmed(h.confirmations), a) {
      RedirectRowKept(h, x, r, heads, a);
    }
  }

  lemma SplitRowsKept(h: History, heads: map<Id, Head>)
    requires HeadsGrow(Heads(h), heads) && forall a | a in h.splits :: SplitRowOk(Heads(h), Versions(h), a)
    ensures forall a | a in h.splits :: SplitRowOk(heads, Versions(h), a)
  {
    hide Index;
    forall a | a in h.splits ensures SplitRowOk(heads, Versions(h), a) {
      LinkKept(Heads(h), heads, Versions(h), Versions(h), a);
    }
  }

  lemma RedirectsRecorded(h: History, g: History, y: Head, r: Link)
    requires forall z | z in h.heads :: RedirectRecorded(Redirects(h), z)
    requires forall z | z in g.heads :: z == y || (z in h.heads && z.id != y.id)
    requires Redirects(g) == Redirects(h)[r.source := r] && r.source == y.id && y.redirect == Some(r.target)
    ensures forall z | z in g.heads :: RedirectRecorded(Redirects(g), z)
  {
    hide Index;
    forall z | z in g.heads ensures RedirectRecorded(Redirects(g), z) {
      assert z in h.heads ==> RedirectRecorded(Redirects(h), z);
    }
  }

  lemma RedirectAddedLinks(h: History, x: Head, r: Link)
    requires NoDup(Keys(h.heads, HeadId)) && x in h.heads && LinksOk(h) && NextRedirect(h, x, r)
    ensures LinksOk(RedirectAdded(h, x, r))
  {
    var g, y := RedirectAdded(h, x, r), x.(redirect := Some(r.target));
    RedirectTables(h, x, r);
    assert r.source == y.id;
    hide Index, NoDup, Keys, SetHead, RedirectRowOk, SplitRowOk, RedirectRecorded, NextRedirect, Confirmed;
    RedirectRowsKept(h, x, r, Heads(g));
    SplitRowsKept(h, Heads(g));
    RedirectsRecorded(h, g, y, r);
  }

  /** The target is not redirected yet, so its own redirect, if any ever comes, comes later. */
  lemma RedirectAddedOrdered(h: History, x: Head, r: Link)
    requires LinksOk(h) && RedirectsOrdered(h.redirects) && NextRedirect(h, x, r)
    ensures RedirectsOrdered(h.redirects + [r])
  {
    NotYetRedirected(h, Heads(h)[r.target].(id := r.target));
    var rs := h.redirects + [r];
    forall i, j | 0 <= i < |rs| && 0 <= j < |rs| && rs[i].target == rs[j].source ensures i < j {
      assert j < |h.redirects| ==> rs[j] in h.redirects;
    }
  }

  lemma RedirectAddedRecords(h: History, org: Id, project: Id, x: Head, r: Link)
    requires IdsOk(h) && EntriesOk(h, org, project) && ConfirmationsOk(h)
    requires x in h.heads && NextRedirect(h, x, r) && NewIds(h, [r.id])
    ensures var g := RedirectAdded(h, x, r); IdsOk(g) && EntriesOk(g, org, project) && ConfirmationsOk(g)
  {
    var g, y := RedirectAdded(h, x, r), x.(redirect := Some(r.target));
    assert NoDup(Keys(h.heads, HeadId)) by {
      TableIds(h);
    }
    hide IdsOk, EntriesOk, ConfirmationsOk, NewIds;
    LaterTables(h, x, y);
    RecordAddedEntries(h, g, org, project, x, y);
    hide NoDup, Index;
    RedirectAddedIds(h, x, r);
    ConfirmationsGrow(h, g);
  }

  lemma RedirectAddedIds(h: History, x: Head, r: Link)
    requires IdsOk(h) && NewIds(h, [r.id])
    requires EntryIds(RedirectAdded(h, x, r)) == EntryIds(h)
    ensures IdsOk(RedirectAdded(h, x, r))
  {
    hide IdsOk, NewIds;
    KeysAppend(h.redirects, r, LinkId);
    assert [] + [] + [r.id] == [r.id];
    RecordsWidened(h, RedirectAdded(h, x, r), [], [r.id], []);
  }

  lemma RedirectAddedInv(h: History, org: Id, project: Id, x: Head, r: Link, t: Time)
    requires Inv(h, org, project, t) && x in h.heads && NextRedirect(h, x, r) && NewIds(h, [r.id])
    ensures Inv(RedirectAdded(h, x, r), org, project, t)
  {
    RedirectAddedRecords(h, org, project, x, r);
    TableIds(h);
    RedirectAddedLinks(h, x, r);
    RedirectAddedOrdered(h, x, r);
    LaterTables(h, x, x.(redirect := Some(r.target)));
  }

  // 6. A split.

  lemma SplitAddedInv(h: History, org: Id, project: Id, r: Link, t: Time)
    requires Inv(h, org, project, t) && SplitRowOk(Heads(h), Versions(h), r) && NewIds(h, [r.id])
    ensures Inv(AddSplit(h, r), org, project, t)
  {
    KeysAppend(h.splits, r, LinkId);
    assert [] + [r.id] + [] == [r.id];
    RecordsWidened(h, AddSplit(h, r), [], [], [r.id]);
  }
}
