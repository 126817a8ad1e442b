/** RemapProjectHistory: when it succeeds, and what its manifest is. */
module BibleRemap {
  import opened Wrappers
  import opened Ids
  import opened Rows
  import opened BibleContent
  import opened BibleHistory
  import opened BibleRename
  import opened BibleValidator

  // Canonical order.

  function Rank(k: Kind): nat {
    match k case Character => 0 case Location => 1 case Prop => 2 case OtherKind => 3
  }

  predicate EntityLe(ak: Kind, ai: Id, bk: Kind, bi: Id) {
    Rank(ak) < Rank(bk) || (Rank(ak) == Rank(bk) && ai <= bi)
  }

  predicate HeadLe(a: Head, b: Head) {
    EntityLe(a.kind, a.id, b.kind, b.id)
  }

  predicate VersionLe(a: Version, b: Version) {
    if a.kind != b.kind || a.entry != b.entry then EntityLe(a.kind, a.entry, b.kind, b.entry)
    else a.number < b.number || (a.number == b.number && a.id <= b.id)
  }

  predicate LookRowLe(a: LookRow, b: LookRow) {
    a.id <= b.id
  }

  predicate ConfirmationLe(a: Confirmation, b: Confirmation) {
    EntityLe(a.kind, a.id, b.kind, b.id)
  }

  predicate LinkLe(a: Link, b: Link) {
    a.id <= b.id
  }

  function Canonical(h: History): History {
    History(Sort(h.heads, HeadLe), Sort(h.versions, VersionLe), Sort(h.looks, LookRowLe),
            Sort(h.confirmations, ConfirmationLe), Sort(h.redirects, LinkLe), Sort(h.splits, LinkLe))
  }

  lemma CanonicalSameRows(h: History)
    ensures SameRows(h, Canonical(h))
  {
  }

  lemma CanonicalValid(h: History, org: Id, project: Id)
    ensures ValidHistory(Canonical(h), org, project) <==> ValidHistory(h, org, project)
    ensures CountsOf(Canonical(h)) == CountsOf(h)
  {
    CountsReordered(h, Canonical(h));
    if ValidHistory(h, org, project) {
      ValidReordered(h, Canonical(h), org, project);
    }
    if ValidHistory(Canonical(h), org, project) {
      ValidReordered(Canonical(h), h, org, project);
    }
  }

  /** Sorting removes all trace of the reading order when rows with different identities never tie. */
  lemma SortedSame<T(!new)>(s: seq<T>, t: seq<T>, key: T -> Id, le: (T, T) -> bool)
    requires TotalOrder(le) && Reordered(s, t) && NoDup(Keys(s, key))
    requires forall a, b :: le(a, b) && le(b, a) ==> key(a) == key(b)
    ensures Sort(s, le) == Sort(t, le)
  {
    hide TotalOrder, Sort;
    var a, b := Sort(s, le), Sort(t, le);
    SortSorts(s, le);
    SortSorts(t, le);
    hide SortedBy;
    assert NoDup(Keys(a, key)) by {
      IndexReordered(s, a, key);
    }
    forall i, j | 0 <= i < |a| && 0 <= j < |a| && le(a[i], a[j]) && le(a[j], a[i]) ensures a[i] == a[j] {
      TiesEqual(a, key, i, j);
    }
    SortedUnique(a, b, le);
  }

  lemma TiesEqual<T>(a: seq<T>, key: T -> Id, i: nat, j: nat)
    requires NoDup(Keys(a, key)) && i < |a| && j < |a| && key(a[i]) == key(a[j])
    ensures a[i] == a[j]
  {
    assert Keys(a, key)[i] == Keys(a, key)[j];
  }

  lemma HeadsSorted(s: seq<Head>, t: seq<Head>)
    requires Reordered(s, t) && NoDup(Keys(s, HeadId))
    ensures Sort(s, HeadLe) == Sort(t, HeadLe)
  {
    SortedSame(s, t, HeadId, HeadLe);
  }

  lemma VersionsSorted(s: seq<Version>, t: seq<Version>)
    requires Reordered(s, t) && NoDup(Keys(s, VersionId))
    ensures Sort(s, VersionLe) == Sort(t, VersionLe)
  {
    SortedSame(s, t, VersionId, VersionLe);
  }

  lemma LookRowsSorted(s: seq<LookRow>, t: seq<LookRow>)
    requires Reordered(s, t) && NoDup(Keys(s, LookRowId))
    ensures Sort(s, LookRowLe) == Sort(t, LookRowLe)
  {
    SortedSame(s, t, LookRowId, LookRowLe);
  }

  lemma ConfirmationsSorted(s: seq<Confirmation>, t: seq<Confirmation>)
    requires Reordered(s, t) && NoDup(Keys(s, ConfirmationId))
    ensures Sort(s, ConfirmationLe) == Sort(t, ConfirmationLe)
  {
    SortedSame(s, t, ConfirmationId, ConfirmationLe);
  }

  lemma LinksSorted(s: seq<Link>, t: seq<Link>)
    requires Reordered(s, t) && NoDup(Keys(s, LinkId))
    ensures Sort(s, LinkLe) == Sort(t, LinkLe)
  {
    SortedSame(s, t, LinkId, LinkLe);
  }

  /** The canonical form does not depend on the order in which the rows were read. */
  lemma CanonicalUnique(h: History, g: History)
    requires IdsOk(h) && SameRows(h, g)
    ensures Canonical(h) == Canonical(g)
  {
    hide IdsOk, NoDup, Keys, Sort, Reordered;
    TableIds(h);
    HeadsSorted(h.heads, g.heads);
    VersionsSorted(h.versions, g.versions);
    LookRowsSorted(h.looks, g.looks);
    ConfirmationsSorted(h.confirmations, g.confirmations);
    LinksSorted(h.redirects, g.redirects);
    LinksSorted(h.splits, g.splits);
  }

  // Mappings supplied by the owners of media and scripts.

  datatype ReferenceMapping = ReferenceMapping(source: MediaFact, target: MediaFact)

  datatype ScopeMapping = ScopeMapping(source: LookScope, target: LookScope)

  /** The target is another asset holding the same bytes. */
  predicate ReferenceMappingOk(x: ReferenceMapping) {
    && x.source.Valid(x.source.kind) && x.target.Valid(x.source.kind)
    && x.source.asset != x.target.asset
    && x.source.sha == x.target.sha && x.source.bytes == x.target.bytes
    && x.source.renditionSha == x.target.renditionSha
    && (x.source.kind == Image ==> x.source.rendition != x.target.rendition)
  }

  predicate ScopeMappingOk(x: ScopeMapping) {
    && x.source.episode != NIL && x.target.episode != NIL && x.source.episode != x.target.episode
    && x.source.scene.Some? == x.target.scene.Some?
    && (x.source.scene.Some? ==>
          x.source.scene.value != NIL && x.target.scene.value != NIL && x.source.scene.value != x.target.scene.value)
  }

  function BodyFacts(b: Body): set<MediaFact> {
    if !b.CharacterBody? then {} else
      (set l, r | l in b.character.looks && r in l.references :: r.media)
      + (if b.character.voice.Some? && b.character.voice.value.SampleChoice?
         then {b.character.voice.value.media} else {})
  }

  function MediaFacts(h: History): set<MediaFact> {
    set v, x | v in h.versions && x in BodyFacts(v.body) :: x
  }

  function BodyScopes(b: Body): set<LookScope> {
    if !b.CharacterBody? then {} else set l, s | l in b.character.looks && s in l.appliesTo :: s
  }

  function LookScopes(h: History): set<LookScope> {
    set v, x | v in h.versions && x in BodyScopes(v.body) :: x
  }

  ghost predicate ReferenceRowsOk(ms: seq<ReferenceMapping>) {
    && (forall i :: 0 <= i < |ms| ==> ReferenceMappingOk(ms[i]))
    && (forall i, j :: 0 <= i < j < |ms| ==> ms[i].source != ms[j].source)
  }

  ghost predicate ReferencesAccepted(h: History, ms: seq<ReferenceMapping>) {
    ReferenceRowsOk(ms) && ReferenceMap(ms).Keys == MediaFacts(h)
  }

  ghost predicate ScopeRowsOk(ms: seq<ScopeMapping>) {
    && (forall i :: 0 <= i < |ms| ==> ScopeMappingOk(ms[i]))
    && (forall i, j :: 0 <= i < j < |ms| ==> ms[i].source != ms[j].source)
  }

  ghost predicate ScopesAccepted(h: History, ms: seq<ScopeMapping>) {
    ScopeRowsOk(ms) && ScopeMap(ms).Keys == LookScopes(h)
  }

  function ReferenceMap(ms: seq<ReferenceMapping>): map<MediaFact, MediaFact> {
    if ms == [] then map[] else ReferenceMap(ms[..|ms| - 1])[ms[|ms| - 1].source := ms[|ms| - 1].target]
  }

  function ScopeMap(ms: seq<ScopeMapping>): map<LookScope, LookScope> {
    if ms == [] then map[] else ScopeMap(ms[..|ms| - 1])[ms[|ms| - 1].source := ms[|ms| - 1].target]
  }

  lemma SameSize<T>(a: set<T>, b: set<T>)
    ensures a == b <==> |a| == |b| && a <= b
  {
    if |a| == |b| && a <= b {
      assert |b - a| == |b| - |a|;
    }
  }

  lemma {:induction false} ReferenceMapHolds(ms: seq<ReferenceMapping>)
    ensures forall k :: k in ReferenceMap(ms) <==> exists i :: 0 <= i < |ms| && ms[i].source == k
    ensures forall k | k in ReferenceMap(ms) :: exists i ::
              0 <= i < |ms| && ms[i] == ReferenceMapping(k, ReferenceMap(ms)[k])
  {
    if ms != [] {
      var front := ms[..|ms| - 1];
      ReferenceMapHolds(front);
      forall k ensures k in ReferenceMap(ms) <==> exists i :: 0 <= i < |ms| && ms[i].source == k {
        if k in ReferenceMap(front) {
          var i :| 0 <= i < |front| && front[i].source == k;
          assert ms[i].source == k;
        }
        if i :| 0 <= i < |ms| && ms[i].source == k {
          assert i < |front| ==> front[i].source == k;
        }
      }
      forall k | k in ReferenceMap(ms)
        ensures exists i :: 0 <= i < |ms| && ms[i] == ReferenceMapping(k, ReferenceMap(ms)[k])
      {
        if k == ms[|ms| - 1].source {
          assert ms[|ms| - 1] == ReferenceMapping(k, ReferenceMap(ms)[k]);
        } else {
          var i :| 0 <= i < |front| && front[i] == ReferenceMapping(k, ReferenceMap(front)[k]);
          assert ms[i] == ReferenceMapping(k, ReferenceMap(ms)[k]);
        }
      }
    }
  }

  lemma NextReference(ms: seq<ReferenceMapping>, n: nat)
    requires n < |ms|
    ensures ReferenceRowsOk(ms[..n + 1]) <==>
              ReferenceRowsOk(ms[..n]) && ReferenceMappingOk(ms[n]) && ms[n].source !in ReferenceMap(ms[..n])
    ensures ReferenceRowsOk(ms) ==> ReferenceRowsOk(ms[..n + 1])
    ensures ReferenceMap(ms[..n + 1]) == ReferenceMap(ms[..n])[ms[n].source := ms[n].target]
  {
    ReferenceMapHolds(ms[..n]);
    assert ms[..n + 1][..n] == ms[..n];
    var front, more := ms[..n], ms[..n + 1];
    assert forall i :: 0 <= i < n ==> more[i] == front[i];
    if ReferenceRowsOk(more) {
      assert forall i :: 0 <= i < n ==> more[i].source != more[n].source;
    }
  }

  method CopyReferenceMap(h: History, ms: seq<ReferenceMapping>) returns (ok: bool, r: map<MediaFact, MediaFact>)
    ensures ok == ReferencesAccepted(h, ms)
    ensures ok ==> r == ReferenceMap(ms)
  {
    hide ReferenceRowsOk, ReferenceMap, MediaFacts;
    r := map[];
    assert ReferenceRowsOk(ms[..0]) && ReferenceMap(ms[..0]) == map[] by {
      EmptyReference(ms[..0]);
    }
    for n := 0 to |ms|
      invariant r == ReferenceMap(ms[..n]) && ReferenceRowsOk(ms[..n])
    {
      NextReference(ms, n);
      if !ReferenceMappingOk(ms[n]) || ms[n].source in r {
        return false, r;
      }
      r := r[ms[n].source := ms[n].target];
    }
    assert ms[..|ms|] == ms;
    var all := MediaFacts(h);
    SameSize(all, r.Keys);
    ok := |all| == |r.Keys| && all <= r.Keys;
  }

  lemma EmptyReference(ms: seq<ReferenceMapping>)
    requires ms == []
    ensures ReferenceRowsOk(ms) && ReferenceMap(ms) == map[]
  {
  }

  lemma {:induction false} ScopeMapHolds(ms: seq<ScopeMapping>)
    ensures forall k :: k in ScopeMap(ms) <==> exists i :: 0 <= i < |ms| && ms[i].source == k
    ensures forall k | k in ScopeMap(ms) :: exists i :: 0 <= i < |ms| && ms[i] == ScopeMapping(k, ScopeMap(ms)[k])
  {
    if ms != [] {
      var front := ms[..|ms| - 1];
      ScopeMapHolds(front);
      forall k ensures k in ScopeMap(ms) <==> exists i :: 0 <= i < |ms| && ms[i].source == k {
        if k in ScopeMap(front) {
          var i :| 0 <= i < |front| && front[i].source == k;
          assert ms[i].source == k;
        }
        if i :| 0 <= i < |ms| && ms[i].source == k {
          assert i < |front| ==> front[i].source == k;
        }
      }
      forall k | k in ScopeMap(ms) ensures exists i :: 0 <= i < |ms| && ms[i] == ScopeMapping(k, ScopeMap(ms)[k]) {
        if k == ms[|ms| - 1].source {
          assert ms[|ms| - 1] == ScopeMapping(k, ScopeMap(ms)[k]);
        } else {
          var i :| 0 <= i < |front| && front[i] == ScopeMapping(k, ScopeMap(front)[k]);
          assert ms[i] == ScopeMapping(k, ScopeMap(ms)[k]);
        }
      }
    }
  }

  lemma NextScope(ms: seq<ScopeMapping>, n: nat)
    requires n < |ms|
    ensures ScopeRowsOk(ms[..n + 1]) <==>
              ScopeRowsOk(ms[..n]) && ScopeMappingOk(ms[n]) && ms[n].source !in ScopeMap(ms[..n])
    ensures ScopeRowsOk(ms) ==> ScopeRowsOk(ms[..n + 1])
    ensures ScopeMap(ms[..n + 1]) == ScopeMap(ms[..n])[ms[n].source := ms[n].target]
  {
    ScopeMapHolds(ms[..n]);
    assert ms[..n + 1][..n] == ms[..n];
    var front, more := ms[..n], ms[..n + 1];
    assert forall i :: 0 <= i < n ==> more[i] == front[i];
    if ScopeRowsOk(more) {
      assert forall i :: 0 <= i < n ==> more[i].source != more[n].source;
    }
  }

  method CopyScopeMap(h: History, ms: seq<ScopeMapping>) returns (ok: bool, r: map<LookScope, LookScope>)
    ensures ok == ScopesAccepted(h, ms)
    ensures ok ==> r == ScopeMap(ms)
  {
    hide ScopeRowsOk, ScopeMap, LookScopes;
    r := map[];
    assert ScopeRowsOk(ms[..0]) && ScopeMap(ms[..0]) == map[] by {
      EmptyScope(ms[..0]);
    }
    for n := 0 to |ms|
      invariant r == ScopeMap(ms[..n]) && ScopeRowsOk(ms[..n])
    {
      NextScope(ms, n);
      if !ScopeMappingOk(ms[n]) || ms[n].source in r {
        return false, r;
      }
      r := r[ms[n].source := ms[n].target];
    }
    assert ms[..|ms|] == ms;
    var all := LookScopes(h);
    SameSize(all, r.Keys);
    ok := |all| == |r.Keys| && all <= r.Keys;
  }

  lemma EmptyScope(ms: seq<ScopeMapping>)
    requires ms == []
    ensures ScopeRowsOk(ms) && ScopeMap(ms) == map[]
  {
  }
}
