/** ValidateCopyHistory: one pass over each table, accepting exactly the valid histories. */
module BibleValidator {
  import opened Wrappers
  import opened Ids
  import opened Rows
  import opened BibleContent
  import opened BibleHistory

  datatype Corrupt = CorruptHistory

  function OfEntry(vs: seq<Version>, entry: Id): (r: seq<Version>)
    ensures forall v :: v in r <==> v in vs && v.entry == entry
  {
    if vs == [] then [] else
      var front, last := vs[..|vs| - 1], vs[|vs| - 1];
      assert vs == front + [last];
      if last.entry == entry then OfEntry(front, entry) + [last] else OfEntry(front, entry)
  }

  lemma {:induction false} OfEntryDistinct(vs: seq<Version>, entry: Id)
    requires NoDup(Keys(vs, VersionId))
    ensures NoDup(Keys(OfEntry(vs, entry), VersionId))
  {
    if vs != [] {
      var front, last := vs[..|vs| - 1], vs[|vs| - 1];
      assert Keys(vs, VersionId) == Keys(front, VersionId) + [last.id];
      NoDupParts(Keys(front, VersionId), [last.id]);
      OfEntryDistinct(front, entry);
      var kept := OfEntry(front, entry);
      assert Keys(kept + [last], VersionId) == Keys(kept, VersionId) + [last.id];
      forall k | k in Keys(kept, VersionId) ensures k != last.id {
        var i :| 0 <= i < |kept| && kept[i].id == k;
        assert kept[i] in front;
        var j :| 0 <= j < |front| && front[j] == kept[i];
        assert Keys(front, VersionId)[j] == k;
      }
      NoDupParts(Keys(kept, VersionId), [last.id]);
    }
  }

  // Version chains.

  predicate NumberLe(a: Version, b: Version) {
    a.number <= b.number
  }

  /** `s` holds exactly the versions of entry `x`, each once. */
  ghost predicate VersionsOfEntry(versions: map<Id, Version>, s: seq<Version>, x: Head) {
    && (forall k | k in versions :: versions[k].id == k && versions[k].number >= 1)
    && (forall v | v in s :: v.id in versions && versions[v.id] == v && v.entry == x.id)
    && (forall k | k in versions && versions[k].entry == x.id :: versions[k] in s)
    && NoDup(Keys(s, VersionId))
  }

  predicate LinkAt(s: seq<Version>, i: nat)
    requires i < |s|
  {
    s[i].number == i + 1 && s[i].previous == if i == 0 then None else Some(s[i - 1].id)
  }

  ghost predicate LinkedTo(s: seq<Version>, n: nat)
    requires n <= |s|
  {
    forall i :: 0 <= i < n ==> LinkAt(s, i)
  }

  lemma LinkedPrevious(versions: map<Id, Version>, s: seq<Version>, x: Head, i: nat)
    requires VersionsOfEntry(versions, s, x) && LinkedTo(s, |s|) && i < |s|
    ensures PreviousOk(versions, s[i])
  {
    assert LinkAt(s, i) && s[i] in s;
    if i > 0 {
      assert LinkAt(s, i - 1) && s[i - 1] in s;
    }
  }

  lemma PositionOf(versions: map<Id, Version>, s: seq<Version>, x: Head, k: Id) returns (i: nat)
    requires VersionsOfEntry(versions, s, x) && k in versions && versions[k].entry == x.id
    ensures i < |s| && s[i] == versions[k] && s[i].id == k
  {
    assert versions[k] in s;
    i :| 0 <= i < |s| && s[i] == versions[k];
  }

  lemma LinkedIsChain(versions: map<Id, Version>, s: seq<Version>, x: Head)
    requires VersionsOfEntry(versions, s, x) && LinkedTo(s, |s|)
    requires s != [] && x.current == s[|s| - 1].id && |s| <= x.revision
    ensures ChainOk(versions, x)
  {
    LastIsCurrent(versions, s, x);
    hide VersionsOfEntry, LinkedTo, PreviousOk;
    forall k | k in versions && versions[k].entry == x.id
      ensures versions[k].number <= versions[x.current].number && PreviousOk(versions, versions[k])
    {
      NumberInChain(versions, s, x, k);
    }
    forall j, k | j in versions && k in versions && versions[j].entry == versions[k].entry == x.id
      ensures versions[j].number == versions[k].number ==> j == k
    {
      if versions[j].number == versions[k].number {
        SameNumber(versions, s, x, j, k);
      }
    }
  }

  lemma SameNumber(versions: map<Id, Version>, s: seq<Version>, x: Head, j: Id, k: Id)
    requires VersionsOfEntry(versions, s, x) && LinkedTo(s, |s|) && j in versions && k in versions
    requires versions[j].entry == versions[k].entry == x.id && versions[j].number == versions[k].number
    ensures j == k
  {
    hide VersionsOfEntry, LinkedTo, PreviousOk;
    NumberInChain(versions, s, x, j);
    NumberInChain(versions, s, x, k);
  }

  lemma LastIsCurrent(versions: map<Id, Version>, s: seq<Version>, x: Head)
    requires VersionsOfEntry(versions, s, x) && LinkedTo(s, |s|) && s != [] && x.current == s[|s| - 1].id
    ensures x.current in versions && versions[x.current].entry == x.id && versions[x.current].number == |s|
  {
    assert s[|s| - 1] in s && LinkAt(s, |s| - 1);
  }

  /** In a linked chain the number of a version is its position. */
  lemma NumberInChain(versions: map<Id, Version>, s: seq<Version>, x: Head, k: Id)
    requires VersionsOfEntry(versions, s, x) && LinkedTo(s, |s|) && k in versions && versions[k].entry == x.id
    ensures 1 <= versions[k].number <= |s| && s[versions[k].number - 1].id == k
    ensures PreviousOk(versions, versions[k])
  {
    var i := PositionOf(versions, s, x, k);
    LinkedPrevious(versions, s, x, i);
    assert LinkAt(s, i);
  }

  ghost predicate Increasing(s: seq<Version>) {
    forall i, j :: 0 <= i < j < |s| ==> s[i].number < s[j].number
  }

  /** Position `j` holds the version before the one at `i`, unless that is the first. */
  ghost predicate PreviousAt(s: seq<Version>, j: nat, i: nat)
    requires i < |s|
  {
    && s[i].number >= 1
    && if s[i].number == 1 then s[i].previous == None else
         j < |s| && s[j].number == s[i].number - 1 && s[i].previous == Some(s[j].id)
  }

  lemma PreviousPosition(versions: map<Id, Version>, s: seq<Version>, x: Head, i: nat) returns (j: nat)
    requires VersionsOfEntry(versions, s, x) && ChainOk(versions, x) && i < |s|
    ensures PreviousAt(s, j, i)
  {
    assert s[i] in s;
    assert PreviousOk(versions, versions[s[i].id]);
    j := 0;
    if s[i].number != 1 {
      j := PositionOf(versions, s, x, s[i].previous.value);
    }
  }

  lemma ChainIsIncreasing(versions: map<Id, Version>, s: seq<Version>, x: Head)
    requires VersionsOfEntry(versions, s, x) && SortedBy(s, NumberLe) && ChainOk(versions, x)
    ensures Increasing(s)
  {
    forall i, j | 0 <= i < j < |s| ensures s[i].number < s[j].number {
      assert s[i] in s && s[j] in s;
      assert NumberLe(s[i], s[j]);
      assert Keys(s, VersionId)[i] != Keys(s, VersionId)[j];
    }
  }

  lemma {:induction false} IncreasingIsLinked(s: seq<Version>, p: seq<nat>, n: nat)
    requires Increasing(s) && n <= |s| == |p|
    requires forall i :: 0 <= i < |s| ==> PreviousAt(s, p[i], i)
    ensures LinkedTo(s, n)
  {
    if n > 0 {
      IncreasingIsLinked(s, p, n - 1);
      var i := n - 1;
      assert PreviousAt(s, p[i], i);
      if i > 0 {
        assert LinkAt(s, i - 1);
        assert s[i - 1].number < s[i].number;
      }
      if s[i].number != 1 {
        var j := p[i];
        assert j < i;
        assert LinkAt(s, j);
      }
    }
  }

  lemma ChainIsLinked(versions: map<Id, Version>, s: seq<Version>, x: Head)
    requires VersionsOfEntry(versions, s, x) && SortedBy(s, NumberLe) && ChainOk(versions, x)
    ensures LinkedTo(s, |s|)
    ensures s != [] && x.current == s[|s| - 1].id && |s| <= x.revision
  {
    ChainIsIncreasing(versions, s, x);
    var p := PreviousPositions(versions, s, x, |s|);
    IncreasingIsLinked(s, p, |s|);
    CurrentIsLast(versions, s, x);
  }

  lemma {:induction false} PreviousPositions(versions: map<Id, Version>, s: seq<Version>, x: Head, n: nat)
    returns (p: seq<nat>)
    requires VersionsOfEntry(versions, s, x) && ChainOk(versions, x) && n <= |s|
    ensures |p| == n && forall i :: 0 <= i < n ==> PreviousAt(s, p[i], i)
  {
    hide VersionsOfEntry, ChainOk, PreviousAt;
    if n == 0 {
      return [];
    }
    var front := PreviousPositions(versions, s, x, n - 1);
    var j := PreviousPosition(versions, s, x, n - 1);
    return front + [j];
  }

  lemma CurrentIsLast(versions: map<Id, Version>, s: seq<Version>, x: Head)
    requires VersionsOfEntry(versions, s, x) && ChainOk(versions, x) && LinkedTo(s, |s|)
    ensures s != [] && x.current == s[|s| - 1].id && |s| <= x.revision
  {
    hide PreviousOk;
    var c := PositionOf(versions, s, x, x.current);
    assert LinkAt(s, c) && LinkAt(s, |s| - 1) && s[|s| - 1] in s;
  }

  lemma SortedVersions(versions: map<Id, Version>, vs: seq<Version>, x: Head, s: seq<Version>)
    requires VersionsOfEntry(versions, vs, x) && s == Sort(vs, NumberLe)
    ensures VersionsOfEntry(versions, s, x) && SortedBy(s, NumberLe)
  {
    SortSorts(vs, NumberLe);
    ReorderedMembers(vs, s);
    IndexReordered(vs, s, VersionId);
  }

  method CheckChain(versions: map<Id, Version>, vs: seq<Version>, x: Head) returns (ok: bool)
    requires VersionsOfEntry(versions, vs, x)
    ensures ok == ChainOk(versions, x)
  {
    var s := Sort(vs, NumberLe);
    SortedVersions(versions, vs, x, s);
    hide VersionsOfEntry, ChainOk, SortedBy, Sort, LinkedTo;
    if ChainOk(versions, x) {
      ChainIsLinked(versions, s, x);
    }
    if |s| == 0 || x.current != s[|s| - 1].id || x.revision < |s| {
      return false;
    }
    ok := CheckLinked(s);
    if ok {
      LinkedIsChain(versions, s, x);
    }
  }

  method CheckLinked(s: seq<Version>) returns (ok: bool)
    ensures ok == LinkedTo(s, |s|)
  {
    for i := 0 to |s|
      invariant LinkedTo(s, i)
    {
      if !LinkAt(s, i) {
        return false;
      }
    }
    return true;
  }

  /** The tables before the first row. */
  lemma NoRows<T>(s: seq<T>, key: T -> Id, taken: set<Id>, weight: T -> Counts)
    requires s == []
    ensures Fresh(taken, Keys(s, key)) && Elements(Keys(s, key)) == {}
    ensures Index(s, key) == map[] && Tally(s, weight) == ZERO
  {
  }

  lemma NextTally<T>(s: seq<T>, n: nat, weight: T -> Counts)
    requires n < |s|
    ensures Tally(s[..n + 1], weight) == Tally(s[..n], weight).Plus(weight(s[n]))
  {
    assert s[..n + 1][..n] == s[..n];
  }

  // The passes over the tables. `taken` collects every identity seen so far.

  method CheckHeads(h: History, org: Id, project: Id)
    returns (ok: bool, taken: set<Id>, heads: map<Id, Head>, counts: Counts)
    ensures ok <==> Fresh({}, Keys(h.heads, HeadId)) && forall x | x in h.heads :: HeadOk(x, org, project)
    ensures ok ==> taken == Elements(Keys(h.heads, HeadId)) && heads == Heads(h) && counts == Tally(h.heads, HeadCounts)
  {
    hide Fresh, Keys, Index, Tally, Elements, HeadOk;
    taken, heads, counts := {}, map[], ZERO;
    NoRows(h.heads[..0], HeadId, {}, HeadCounts);
    for n := 0 to |h.heads|
      invariant Fresh({}, Keys(h.heads[..n], HeadId)) && taken == Elements(Keys(h.heads[..n], HeadId))
      invariant heads == Index(h.heads[..n], HeadId) && counts == Tally(h.heads[..n], HeadCounts)
      invariant forall x | x in h.heads[..n] :: HeadOk(x, org, project)
    {
      var x := h.heads[n];
      NextRow(h.heads, n, HeadId, {});
      if x.id == NIL || x.id in taken || !HeadOk(x, org, project) {
        return false, taken, heads, counts;
      }
      taken := taken + {x.id};
      heads := heads[x.id := x];
      match x.kind {
        case Character => counts := counts.(characters := counts.characters + 1);
        case Location => counts := counts.(locations := counts.locations + 1);
        case Prop => counts := counts.(props := counts.props + 1);
        case OtherKind =>
      }
      NextTally(h.heads, n, HeadCounts);
    }
    assert h.heads[..|h.heads|] == h.heads;
    ok := true;
  }

  method CheckLookRows(h: History, heads: map<Id, Head>, before: set<Id>)
    returns (ok: bool, taken: set<Id>, looks: map<Id, LookRow>)
    ensures ok <==> Fresh(before, Keys(h.looks, LookRowId)) && forall l | l in h.looks :: LookRowOk(heads, l)
    ensures ok ==> taken == before + Elements(Keys(h.looks, LookRowId)) && looks == LookRows(h)
  {
    taken, looks := before, map[];
    for n := 0 to |h.looks|
      invariant Fresh(before, Keys(h.looks[..n], LookRowId))
      invariant taken == before + Elements(Keys(h.looks[..n], LookRowId))
      invariant looks == Index(h.looks[..n], LookRowId)
      invariant forall l | l in h.looks[..n] :: LookRowOk(heads, l)
    {
      var l := h.looks[n];
      NextRow(h.looks, n, LookRowId, before);
      if l.id == NIL || l.id in taken || !LookRowOk(heads, l) {
        return false, taken, looks;
      }
      taken := taken + {l.id};
      looks := looks[l.id := l];
    }
    assert h.looks[..|h.looks|] == h.looks;
    ok := true;
  }

  function LookIds(ls: seq<Look>): set<Id> {
    set l | l in ls :: l.id
  }

  lemma NoLooks(ls: seq<Look>)
    requires ls == []
    ensures LookIds(ls) == {} && ReferenceCount(ls) == 0
  {
  }

  lemma NextLook(ls: seq<Look>, n: nat)
    requires n < |ls|
    ensures LookIds(ls[..n + 1]) == LookIds(ls[..n]) + {ls[n].id}
    ensures ReferenceCount(ls[..n + 1]) == ReferenceCount(ls[..n]) + |ls[n].references|
    ensures forall l :: l in ls[..n + 1] <==> l in ls[..n] || l == ls[n]
  {
    assert ls[..n + 1] == ls[..n] + [ls[n]];
    assert ls[..n + 1][..n] == ls[..n];
  }

  method CheckVersionLooks(looks: map<Id, LookRow>, v: Version, ls: seq<Look>, before: set<Id>)
    returns (ok: bool, used: set<Id>, references: nat)
    ensures ok <==> forall l | l in ls :: LookOwned(looks, v, l)
    ensures ok ==> used == before + LookIds(ls)
    ensures ok ==> references == ReferenceCount(ls)
  {
    hide LookOwned, ReferenceCount;
    used, references := before, 0;
    NoLooks(ls[..0]);
    for n := 0 to |ls|
      invariant forall l | l in ls[..n] :: LookOwned(looks, v, l)
      invariant used == before + LookIds(ls[..n])
      invariant references == ReferenceCount(ls[..n])
    {
      NextLook(ls, n);
      if !LookOwned(looks, v, ls[n]) {
        return false, used, references;
      }
      used := used + {ls[n].id};
      references := references + |ls[n].references|;
    }
    assert ls[..|ls|] == ls;
    ok := true;
  }

  method CheckVersion(heads: map<Id, Head>, looks: map<Id, LookRow>, v: Version, org: Id, project: Id, before: set<Id>)
    returns (ok: bool, used: set<Id>, counts: Counts)
    ensures ok == VersionRowOk(heads, looks, v, org, project)
    ensures ok ==> used == before + LookIds(v.Looks()) && counts == VersionCounts(v)
  {
    used, counts := before, ZERO;
    var valid := ValidateVersion(v);
    if v.entry !in heads || v.kind != heads[v.entry].kind || v.org != org || v.project != project || !valid {
      return false, used, counts;
    }
    match v.body {
      case CharacterBody(c) =>
        var references;
        ok, used, references := CheckVersionLooks(looks, v, c.looks, before);
        counts := counts.(characterVersions := 1, lookVersions := |c.looks|, references := references,
                          voices := if c.voice.Some? then 1 else 0);
      case LocationBody(_) =>
        ok, counts := true, counts.(locationVersions := 1);
      case PropBody(_) =>
        ok, counts := true, counts.(propVersions := 1);
    }
  }

  lemma UsedLooksAppend(vs: seq<Version>, v: Version)
    ensures UsedLooks(vs + [v]) == UsedLooks(vs) + LookIds(v.Looks())
  {
    assert forall u :: u in vs + [v] <==> u in vs || u == v;
  }

  lemma NoUsedLooks(vs: seq<Version>)
    requires vs == []
    ensures UsedLooks(vs) == {}
  {
  }

  method CheckVersions(h: History, heads: map<Id, Head>, looks: map<Id, LookRow>, org: Id, project: Id, before: set<Id>)
    returns (ok: bool, taken: set<Id>, versions: map<Id, Version>, used: set<Id>, counts: Counts)
    ensures ok <==>
      Fresh(before, Keys(h.versions, VersionId)) && forall v | v in h.versions ::
        VersionRowOk(heads, looks, v, org, project)
    ensures ok ==> taken == before + Elements(Keys(h.versions, VersionId)) && versions == Versions(h)
    ensures ok ==> used == UsedLooks(h.versions) && counts == Tally(h.versions, VersionCounts)
  {
    hide Fresh, Keys, Index, Tally, Elements, VersionRowOk, UsedLooks, LookIds, VersionCounts;
    taken, versions, used, counts := before, map[], {}, ZERO;
    NoRows(h.versions[..0], VersionId, before, VersionCounts);
    assert UsedLooks(h.versions[..0]) == {} by {
      NoUsedLooks(h.versions[..0]);
    }
    for n := 0 to |h.versions|
      invariant Fresh(before, Keys(h.versions[..n], VersionId))
      invariant taken == before + Elements(Keys(h.versions[..n], VersionId))
      invariant versions == Index(h.versions[..n], VersionId)
      invariant used == UsedLooks(h.versions[..n]) && counts == Tally(h.versions[..n], VersionCounts)
      invariant forall v | v in h.versions[..n] :: VersionRowOk(heads, looks, v, org, project)
    {
      var v := h.versions[n];
      NextRow(h.versions, n, VersionId, before);
      NextTally(h.versions, n, VersionCounts);
      UsedLooksAppend(h.versions[..n], v);
      assert h.versions[..n + 1] == h.versions[..n] + [v];
      if v.id == NIL || v.id in taken {
        return false, taken, versions, used, counts;
      }
      var row;
      ok, used, row := CheckVersion(heads, looks, v, org, project, used);
      if !ok {
        return false, taken, versions, used, counts;
      }
      taken := taken + {v.id};
      versions := versions[v.id := v];
      counts := counts.Plus(row);
    }
    assert h.versions[..|h.versions|] == h.versions;
    ok := true;
  }

  method CheckChains(h: History, heads: map<Id, Head>, versions: map<Id, Version>) returns (ok: bool)
    requires heads == Heads(h) && versions == Versions(h)
    requires NoDup(Keys(h.heads, HeadId)) && NoDup(Keys(h.versions, VersionId))
    requires forall v | v in h.versions :: v.number >= 1
    ensures ok <==> forall x | x in h.heads :: ChainOk(versions, x)
  {
    IndexHolds(h.heads, HeadId);
    IndexHolds(h.versions, VersionId);
    var todo := heads.Keys;
    while todo != {}
      invariant todo <= heads.Keys
      invariant forall id | id in heads.Keys - todo :: ChainOk(versions, heads[id])
    {
      var id :| id in todo;
      var vs := OfEntry(h.versions, id);
      OfEntryDistinct(h.versions, id);
      var chain := CheckChain(versions, vs, heads[id]);
      if !chain {
        return false;
      }
      todo := todo - {id};
    }
    return true;
  }

  function ConfirmationKeys(cs: seq<Confirmation>): set<(Id, int)> {
    set c | c in cs :: (c.entry, c.revision)
  }

  ghost predicate ConfirmationsPass(
    heads: map<Id, Head>, versions: map<Id, Version>, before: set<Id>, cs: seq<Confirmation>)
  {
    && Fresh(before, Keys(cs, ConfirmationId))
    && ConfirmationsDistinct(cs)
    && forall c | c in cs :: ConfirmationRowOk(heads, versions, c)
  }

  lemma ConfirmationAppend(cs: seq<Confirmation>, c: Confirmation)
    requires c.id !in Elements(Keys(cs, ConfirmationId))
    ensures ConfirmationsDistinct(cs + [c]) <==>
              ConfirmationsDistinct(cs) && (c.entry, c.revision) !in ConfirmationKeys(cs)
  {
    var all := cs + [c];
    assert forall x :: x in all <==> x in cs || x == c;
    if (c.entry, c.revision) in ConfirmationKeys(cs) {
      var a :| a in cs && a.entry == c.entry && a.revision == c.revision;
      var i :| 0 <= i < |cs| && cs[i] == a;
      assert Keys(cs, ConfirmationId)[i] == a.id;
      assert a in all && c in all && a != c;
    }
  }

  lemma NextConfirmation(
    heads: map<Id, Head>, versions: map<Id, Version>, before: set<Id>, cs: seq<Confirmation>, n: nat)
    requires n < |cs|
    ensures ConfirmationsPass(heads, versions, before, cs[..n + 1]) <==>
              && ConfirmationsPass(heads, versions, before, cs[..n])
              && cs[n].id != NIL && cs[n].id !in before + Elements(Keys(cs[..n], ConfirmationId))
              && ConfirmationRowOk(heads, versions, cs[n])
              && (cs[n].entry, cs[n].revision) !in ConfirmationKeys(cs[..n])
    ensures ConfirmationsPass(heads, versions, before, cs) ==> ConfirmationsPass(heads, versions, before, cs[..n + 1])
  {
    NextRow(cs, n, ConfirmationId, before);
    FirstConfirmations(cs, n + 1);
    assert cs[..n + 1] == cs[..n] + [cs[n]];
    hide ConfirmationRowOk, Index, Fresh, Keys, Elements, ConfirmationsDistinct, ConfirmationKeys;
    if cs[n].id !in Elements(Keys(cs[..n], ConfirmationId)) {
      ConfirmationAppend(cs[..n], cs[n]);
    }
  }

  lemma FirstConfirmations(cs: seq<Confirmation>, n: nat)
    requires n <= |cs|
    ensures forall c :: c in cs[..n] ==> c in cs
    ensures ConfirmationsDistinct(cs) ==> ConfirmationsDistinct(cs[..n])
  {
  }

  lemma NextConfirmationSets(cs: seq<Confirmation>, n: nat)
    requires n < |cs|
    ensures Elements(Keys(cs[..n + 1], ConfirmationId)) == Elements(Keys(cs[..n], ConfirmationId)) + {cs[n].id}
    ensures ConfirmationKeys(cs[..n + 1]) == ConfirmationKeys(cs[..n]) + {(cs[n].entry, cs[n].revision)}
    ensures Confirmed(cs[..n + 1]) == Confirmed(cs[..n]) + {cs[n].version}
    ensures Tally(cs[..n + 1], ConfirmationCounts) == Tally(cs[..n], ConfirmationCounts).Plus(ConfirmationCounts(cs[n]))
  {
    NextRow(cs, n, ConfirmationId, {});
    assert cs[..n + 1] == cs[..n] + [cs[n]] && cs[..n + 1][..n] == cs[..n];
  }

  lemma NoConfirmations(heads: map<Id, Head>, versions: map<Id, Version>, before: set<Id>, cs: seq<Confirmation>)
    requires cs == []
    ensures ConfirmationsPass(heads, versions, before, cs) && Elements(Keys(cs, ConfirmationId)) == {}
    ensures ConfirmationKeys(cs) == {} && Confirmed(cs) == {} && Tally(cs, ConfirmationCounts) == ZERO
  {
  }

  method CheckConfirmations(h: History, heads: map<Id, Head>, versions: map<Id, Version>, before: set<Id>)
    returns (ok: bool, taken: set<Id>, confirmed: set<Id>, counts: Counts)
    ensures ok == ConfirmationsPass(heads, versions, before, h.confirmations)
    ensures ok ==> taken == before + Elements(Keys(h.confirmations, ConfirmationId))
    ensures ok ==> confirmed == Confirmed(h.confirmations) && counts == Tally(h.confirmations, ConfirmationCounts)
  {
    hide ConfirmationsPass, Keys, Tally, Elements, Confirmed, ConfirmationKeys, ConfirmationRowOk;
    var cs := h.confirmations;
    taken, confirmed, counts := before, {}, ZERO;
    var keys := {};
    NoConfirmations(heads, versions, before, cs[..0]);
    for n := 0 to |cs|
      invariant ConfirmationsPass(heads, versions, before, cs[..n])
      invariant taken == before + Elements(Keys(cs[..n], ConfirmationId)) && keys == ConfirmationKeys(cs[..n])
      invariant confirmed == Confirmed(cs[..n]) && counts == Tally(cs[..n], ConfirmationCounts)
    {
      var c := cs[n];
      NextConfirmation(heads, versions, before, cs, n);
      NextConfirmationSets(cs, n);
      if c.id == NIL || c.id in taken || !ConfirmationRowOk(heads, versions, c) || (c.entry, c.revision) in keys {
        return false, taken, confirmed, counts;
      }
      taken := taken + {c.id};
      keys := keys + {(c.entry, c.revision)};
      confirmed := confirmed + {c.version};
      match c.kind {
        case Character => counts := counts.(characterConfirmations := counts.characterConfirmations + 1);
        case Location => counts := counts.(locationConfirmations := counts.locationConfirmations + 1);
        case Prop => counts := counts.(propConfirmations := counts.propConfirmations + 1);
        case OtherKind =>
      }
    }
    assert cs[..|cs|] == cs;
    ok := true;
  }

  lemma NoLinks(rs: seq<Link>, before: set<Id>)
    requires rs == []
    ensures Fresh(before, Keys(rs, LinkId)) && Elements(Keys(rs, LinkId)) == {}
    ensures NoDup(Keys(rs, LinkSource)) && Index(rs, LinkSource) == map[]
  {
  }

  lemma SourcesBefore(rs: seq<Link>, n: nat)
    requires n <= |rs|
    ensures NoDup(Keys(rs, LinkSource)) ==> NoDup(Keys(rs[..n], LinkSource))
  {
    assert Keys(rs[..n], LinkSource) == Keys(rs, LinkSource)[..n];
  }

  method CheckRedirects(
    h: History, heads: map<Id, Head>, versions: map<Id, Version>, confirmed: set<Id>, before: set<Id>)
    returns (ok: bool, taken: set<Id>, redirected: map<Id, Link>)
    ensures ok <==> Fresh(before, Keys(h.redirects, LinkId)) && NoDup(Keys(h.redirects, LinkSource)) &&
                    forall r | r in h.redirects :: RedirectRowOk(heads, versions, confirmed, r)
    ensures ok ==> taken == before + Elements(Keys(h.redirects, LinkId)) && redirected == Redirects(h)
  {
    hide Fresh, Keys, Index, Elements, NoDup, RedirectRowOk;
    taken, redirected := before, map[];
    NoLinks(h.redirects[..0], before);
    for n := 0 to |h.redirects|
      invariant Fresh(before, Keys(h.redirects[..n], LinkId))
      invariant taken == before + Elements(Keys(h.redirects[..n], LinkId))
      invariant redirected == Index(h.redirects[..n], LinkSource) && NoDup(Keys(h.redirects[..n], LinkSource))
      invariant forall r | r in h.redirects[..n] :: RedirectRowOk(heads, versions, confirmed, r)
    {
      var r := h.redirects[n];
      NextRow(h.redirects, n, LinkId, before);
      NextRow(h.redirects, n, LinkSource, {});
      SourcesRecorded(h.redirects[..n], r);
      assert h.redirects[..n + 1] == h.redirects[..n] + [r];
      if r.id == NIL || r.id in taken || !RedirectRowOk(heads, versions, confirmed, r) || r.source in redirected {
        SourcesBefore(h.redirects, n + 1);
        return false, taken, redirected;
      }
      taken := taken + {r.id};
      redirected := redirected[r.source := r];
    }
    assert h.redirects[..|h.redirects|] == h.redirects;
    ok := true;
  }

  lemma SourcesRecorded(rs: seq<Link>, r: Link)
    ensures NoDup(Keys(rs + [r], LinkSource)) <==> NoDup(Keys(rs, LinkSource)) && r.source !in Index(rs, LinkSource)
  {
    IndexHolds(rs, LinkSource);
    assert Keys(rs + [r], LinkSource) == Keys(rs, LinkSource) + [r.source];
    NoDupParts(Keys(rs, LinkSource), [r.source]);
    if r.source in Index(rs, LinkSource) {
      var x := Index(rs, LinkSource)[r.source];
      var i :| 0 <= i < |rs| && rs[i] == x;
      assert Keys(rs, LinkSource)[i] == r.source;
    }
    if r.source in Keys(rs, LinkSource) {
      var i :| 0 <= i < |rs| && Keys(rs, LinkSource)[i] == r.source;
      assert rs[i] in rs;
    }
  }

  // Redirect chains.

  /** `path` follows redirects from its first identity, and every identity on it is redirected. */
  ghost predicate RedirectPath(redirects: map<Id, Link>, path: seq<Id>) {
    && (forall i :: 0 <= i < |path| ==> path[i] in redirects)
    && (forall i :: 0 <= i < |path| - 1 ==> path[i + 1] == redirects[path[i]].target)
  }

  /** A chain that returns to an identity it left never stops. */
  lemma {:induction false} CycleNeverStops(redirects: map<Id, Link>, path: seq<Id>, from: nat, n: nat)
    requires RedirectPath(redirects, path) && from < |path|
    requires exists i :: 0 <= i < |path| && path[i] == redirects[path[|path| - 1]].target
    ensures !Stops(redirects, path[from], n)
    decreases n
  {
    if n > 0 {
      if from < |path| - 1 {
        CycleNeverStops(redirects, path, from + 1, n - 1);
      } else {
        var i :| 0 <= i < |path| && path[i] == redirects[path[|path| - 1]].target;
        CycleNeverStops(redirects, path, i, n - 1);
      }
    }
  }

  method CheckRedirectChain(redirects: map<Id, Link>, start: Id) returns (ok: bool)
    ensures ok == Stops(redirects, start, MAX_REDIRECTS)
  {
    var current, n := start, 0;
    var seen := {};
    ghost var path: seq<Id> := [];
    while current in redirects
      invariant 0 <= n <= MAX_REDIRECTS
      invariant Stops(redirects, start, MAX_REDIRECTS) == Stops(redirects, current, MAX_REDIRECTS - n)
      invariant RedirectPath(redirects, path) && seen == Elements(path)
      invariant path != [] ==> current == redirects[path[|path| - 1]].target
      decreases MAX_REDIRECTS - n
    {
      if n >= MAX_REDIRECTS {
        return false;
      }
      if current in seen {
        ghost var i :| 0 <= i < |path| && path[i] == current;
        CycleNeverStops(redirects, path, i, MAX_REDIRECTS - n);
        return false;
      }
      seen := seen + {current};
      path := path + [current];
      current := redirects[current].target;
      n := n + 1;
    }
    return true;
  }

  method CheckRedirectChains(h: History, redirects: map<Id, Link>) returns (ok: bool)
    ensures ok <==> forall x | x in h.heads ::
      RedirectRecorded(redirects, x) && Stops(redirects, x.id, MAX_REDIRECTS)
  {
    for n := 0 to |h.heads|
      invariant forall x | x in h.heads[..n] :: RedirectRecorded(redirects, x) && Stops(redirects, x.id, MAX_REDIRECTS)
    {
      var x := h.heads[n];
      assert h.heads[..n + 1] == h.heads[..n] + [x];
      var stops := CheckRedirectChain(redirects, x.id);
      if !RedirectRecorded(redirects, x) || !stops {
        return false;
      }
    }
    assert h.heads[..|h.heads|] == h.heads;
    return true;
  }

  method CheckSplits(h: History, heads: map<Id, Head>, versions: map<Id, Version>, before: set<Id>) returns (ok: bool)
    ensures ok <==> Fresh(before, Keys(h.splits, LinkId)) && forall r | r in h.splits :: SplitRowOk(heads, versions, r)
  {
    var taken := before;
    for n := 0 to |h.splits|
      invariant Fresh(before, Keys(h.splits[..n], LinkId)) && taken == before + Elements(Keys(h.splits[..n], LinkId))
      invariant forall r | r in h.splits[..n] :: SplitRowOk(heads, versions, r)
    {
      var r := h.splits[n];
      NextRow(h.splits, n, LinkId, before);
      if r.id == NIL || r.id in taken || !SplitRowOk(heads, versions, r) {
        return false;
      }
      taken := taken + {r.id};
    }
    assert h.splits[..|h.splits|] == h.splits;
    return true;
  }

  method CheckConfirmedHeads(h: History, versions: map<Id, Version>, confirmed: set<Id>) returns (ok: bool)
    ensures ok <==> forall x | x in h.heads :: ConfirmedOk(versions, confirmed, x)
  {
    for n := 0 to |h.heads|
      invariant forall x | x in h.heads[..n] :: ConfirmedOk(versions, confirmed, x)
    {
      assert h.heads[..n + 1] == h.heads[..n] + [h.heads[n]];
      if !ConfirmedOk(versions, confirmed, h.heads[n]) {
        return false;
      }
    }
    assert h.heads[..|h.heads|] == h.heads;
    return true;
  }

  lemma EntryIdsByTable(h: History)
    ensures Fresh({}, EntryIds(h)) <==>
              && Fresh({}, Keys(h.heads, HeadId))
              && Fresh(Elements(Keys(h.heads, HeadId)), Keys(h.looks, LookRowId))
              && Fresh(Elements(Keys(h.heads, HeadId)) + Elements(Keys(h.looks, LookRowId)),
                    Keys(h.versions, VersionId))
    ensures Elements(EntryIds(h)) == Elements(Keys(h.heads, HeadId)) + Elements(Keys(h.looks, LookRowId))
                                     + Elements(Keys(h.versions, VersionId))
  {
    FreshJoin(Keys(h.heads, HeadId), Keys(h.looks, LookRowId));
    FreshJoin(Keys(h.heads, HeadId) + Keys(h.looks, LookRowId), Keys(h.versions, VersionId));
  }

  lemma IdsByTable(h: History)
    ensures IdsOk(h) <==>
              && Fresh({}, EntryIds(h))
              && Fresh(Elements(EntryIds(h)), Keys(h.confirmations, ConfirmationId))
              && Fresh(Elements(EntryIds(h)) + Elements(Keys(h.confirmations, ConfirmationId)),
                    Keys(h.redirects, LinkId))
              && Fresh(Elements(EntryIds(h)) + Elements(Keys(h.confirmations, ConfirmationId))
                       + Elements(Keys(h.redirects, LinkId)), Keys(h.splits, LinkId))
  {
    var c, d, e := Keys(h.confirmations, ConfirmationId), Keys(h.redirects, LinkId), Keys(h.splits, LinkId);
    FreshJoin(EntryIds(h), c);
    FreshJoin(EntryIds(h) + c, d);
    FreshJoin(EntryIds(h) + c + d, e);
    assert EntryIds(h) + c + d + e == AllIds(h);
  }

  /** All looks are used exactly when as many looks are used as there are look rows. */
  lemma AllLooksUsed(h: History)
    requires NoDup(Keys(h.looks, LookRowId))
    requires forall v | v in h.versions :: forall l | l in v.Looks() :: LookOwned(LookRows(h), v, l)
    ensures |UsedLooks(h.versions)| == |LookRows(h)| <==> forall l | l in h.looks :: l.id in UsedLooks(h.versions)
  {
    IndexHolds(h.looks, LookRowId);
    var used, rows := UsedLooks(h.versions), LookRows(h).Keys;
    assert used <= rows;
    assert |rows| == |LookRows(h)|;
    if |used| == |rows| {
      assert |rows - used| == |rows| - |used|;
      assert used == rows;
    }
    if forall l | l in h.looks :: l.id in used {
      assert used == rows;
    }
  }

  lemma RowsKnown(h: History, before: set<Id>, org: Id, project: Id)
    requires Fresh({}, Keys(h.heads, HeadId)) && Fresh(before, Keys(h.versions, VersionId))
    requires Fresh(Elements(Keys(h.heads, HeadId)), Keys(h.looks, LookRowId))
    requires forall v | v in h.versions :: VersionRowOk(Heads(h), LookRows(h), v, org, project)
    ensures NoDup(Keys(h.heads, HeadId)) && NoDup(Keys(h.looks, LookRowId)) && NoDup(Keys(h.versions, VersionId))
    ensures forall v | v in h.versions :: v.number >= 1 && forall l | l in v.Looks() :: LookOwned(LookRows(h), v, l)
  {
  }

  method CheckEntries(h: History, org: Id, project: Id)
    returns (ok: bool, taken: set<Id>, heads: map<Id, Head>, versions: map<Id, Version>, counts: Counts)
    ensures ok <==> Fresh({}, EntryIds(h)) && EntriesOk(h, org, project)
    ensures ok ==> taken == Elements(EntryIds(h)) && heads == Heads(h) && versions == Versions(h)
    ensures ok ==> counts == Tally(h.heads, HeadCounts).Plus(Tally(h.versions, VersionCounts))
  {
    hide Fresh, Keys, Index, Tally, Elements, EntryIds, HeadOk, LookRowOk, VersionRowOk, UsedLooks, ChainOk;
    versions := map[];
    EntryIdsByTable(h);
    ok, taken, heads, counts := CheckHeads(h, org, project);
    if !ok {
      return;
    }
    var looks;
    ok, taken, looks := CheckLookRows(h, heads, taken);
    if !ok {
      return;
    }
    var used, versionCounts;
    ghost var before := taken;
    ok, taken, versions, used, versionCounts := CheckVersions(h, heads, looks, org, project, taken);
    if !ok {
      return;
    }
    RowsKnown(h, before, org, project);
    AllLooksUsed(h);
    if |used| != |looks| {
      ok := false;
      return;
    }
    ok := CheckChains(h, heads, versions);
    counts := counts.Plus(versionCounts);
  }

  method CheckConfirmationsAndHeads(h: History, before: set<Id>, heads: map<Id, Head>, versions: map<Id, Version>)
    returns (ok: bool, taken: set<Id>, confirmed: set<Id>, counts: Counts)
    requires heads == Heads(h) && versions == Versions(h)
    ensures ok <==> Fresh(before, Keys(h.confirmations, ConfirmationId)) && ConfirmationsOk(h)
    ensures ok ==> taken == before + Elements(Keys(h.confirmations, ConfirmationId))
    ensures ok ==> confirmed == Confirmed(h.confirmations) && counts == Tally(h.confirmations, ConfirmationCounts)
  {
    ok, taken, confirmed, counts := CheckConfirmations(h, heads, versions, before);
    if ok {
      ok := CheckConfirmedHeads(h, versions, confirmed);
    }
  }

  method CheckLinks(h: History, before: set<Id>, heads: map<Id, Head>, versions: map<Id, Version>, confirmed: set<Id>)
    returns (ok: bool)
    requires heads == Heads(h) && versions == Versions(h) && confirmed == Confirmed(h.confirmations)
    ensures ok <==>
      && Fresh(before, Keys(h.redirects, LinkId))
      && Fresh(before + Elements(Keys(h.redirects, LinkId)), Keys(h.splits, LinkId))
      && LinksOk(h) && ShortChains(h)
  {
    var taken, redirects;
    ok, taken, redirects := CheckRedirects(h, heads, versions, confirmed, before);
    if !ok {
      return;
    }
    ok := CheckRedirectChains(h, redirects);
    if !ok {
      return;
    }
    ok := CheckSplits(h, heads, versions, taken);
  }

  method ValidateCopyHistory(h: History, org: Id, project: Id) returns (r: Result<Counts, Corrupt>)
    ensures r.Success? <==> ValidHistory(h, org, project)
    ensures r.Success? ==> r.value == CountsOf(h)
  {
    IdsByTable(h);
    if org == NIL || project == NIL {
      return Failure(CorruptHistory);
    }
    var ok, taken, heads, versions, counts := CheckEntries(h, org, project);
    if !ok {
      return Failure(CorruptHistory);
    }
    var confirmed, confirmationCounts;
    ok, taken, confirmed, confirmationCounts := CheckConfirmationsAndHeads(h, taken, heads, versions);
    if !ok {
      return Failure(CorruptHistory);
    }
    ok := CheckLinks(h, taken, heads, versions, confirmed);
    if !ok {
      return Failure(CorruptHistory);
    }
    var rows := ZERO.(looks := |h.looks|, redirects := |h.redirects|, splits := |h.splits|);
    return Success(counts.Plus(confirmationCounts).Plus(rows));
  }
}
