/** A package import plan: its objects are exactly its archive, its assets and their renditions. */
module PackagePlan {
  import opened Wrappers
  import opened Ids
  import opened Rows
  import opened Library
  import opened LibraryCopy

  const MAX_ENTRIES := 2500
  const MAX_OBJECTS := 15000
  const MAX_EXPANDED: int := 2 * 1024 * 1024 * 1024
  const MAX_ARCHIVE: int := 500 * 1024 * 1024

  datatype AssetKind = Image | Video | Audio | Document | Model3D

  datatype RenditionKind = Thumb256 | Thumb640 | Poster | Proxy720p | Waveform

  /** Where an object is stored; the paths of the source are built from exactly these parts. */
  datatype Key =
    | ArchiveKey(org: Id, actor: Id, job: Id)
    | AssetKey(asset: Id, extension: string)
    | RenditionKey(asset: Id, kind: RenditionKind, extension: string)
    | OtherKey(path: string)

  datatype Object = Object(key: Key, mime: string, sha: nat, size: int)

  /** `cleared` stands for the review, moderation and naming evidence of an uploaded asset. */
  datatype Asset = Asset(id: Id, kind: AssetKind, key: Key, mime: string, sha: nat, size: int, cleared: bool)

  datatype Rendition = Rendition(id: Id, asset: Id, kind: RenditionKind, key: Key, size: Option<int>, sound: bool)

  datatype Plan = Plan(
    version: int, actor: Id, org: Id, key: Id, job: Id, requestOk: bool, kind: LibraryKind, archiveSha: nat,
    archiveBytes: int, createdAt: Time, folders: seq<Folder>, items: seq<Item>, assets: seq<Asset>,
    renditions: seq<Rendition>, objects: seq<Object>)

  /** Identities derived from names. */
  datatype Derived = Derived(job: (Id, Id) -> Id, rendition: (Id, RenditionKind) -> Id, library: Id)

  function Required(kind: AssetKind): set<RenditionKind> {
    match kind
    case Image => {Thumb256, Thumb640}
    case Video => {Poster, Proxy720p}
    case Audio => {Waveform}
    case Document => {}
    case Model3D => {}
  }

  function AssetId(a: Asset): Id { a.id }

  predicate HeaderOk(p: Plan, d: Derived) {
    && p.version == 1 && p.actor != NIL && p.org != NIL && p.requestOk && p.createdAt != 0
    && p.job == d.job(p.key, p.actor)
    && |p.items| <= MAX_ENTRIES && |p.folders| <= MAX_ENTRIES
    && |p.objects| == 1 + |p.assets| + |p.renditions| && |p.objects| <= MAX_OBJECTS
  }

  predicate PlannedFolder(p: Plan, d: Derived, f: Folder) {
    f.library == d.library && f.kind == p.kind && f.revision == 1
      && f.createdAt == p.createdAt && f.updatedAt == p.createdAt
  }

  ghost predicate FolderPart(p: Plan, d: Derived) {
    && (forall i :: 0 <= i < |p.folders| ==> PlannedFolder(p, d, p.folders[i]))
    && (p.folders != [] ==> PlacementOk(p.folders[0], p.folders))
  }

  // Objects.

  function Total(objects: seq<Object>): int {
    if objects == [] then 0 else Total(objects[..|objects| - 1]) + objects[|objects| - 1].size
  }

  ghost predicate KeysDistinct(objects: seq<Object>) {
    forall i, j :: 0 <= i < j < |objects| ==> objects[i].key != objects[j].key
  }

  ghost predicate ObjectPart(objects: seq<Object>) {
    && (forall i :: 0 <= i < |objects| ==> 1 <= objects[i].size <= MAX_EXPANDED)
    && KeysDistinct(objects)
    && Total(objects) <= MAX_EXPANDED + MAX_ARCHIVE
  }

  function ArchiveOf(p: Plan): Object {
    Object(ArchiveKey(p.org, p.actor, p.job), "application/zip", p.archiveSha, p.archiveBytes)
  }

  /** The objects by key. */
  ghost predicate ByKey(objects: seq<Object>, m: map<Key, Object>) {
    && (forall o | o in objects :: o.key in m && m[o.key] == o)
    && (forall k | k in m :: m[k] in objects && m[k].key == k)
  }

  lemma {:induction false} TotalGrows(objects: seq<Object>, n: nat)
    requires n <= |objects| && forall i :: 0 <= i < |objects| ==> objects[i].size >= 1
    ensures Total(objects[..n]) <= Total(objects)
  {
    if n == |objects| {
      assert objects[..n] == objects;
    } else {
      var front := objects[..|objects| - 1];
      TotalGrows(front, n);
      assert front[..n] == objects[..n];
    }
  }

  lemma KeysNext(front: seq<Object>, o: Object, m: map<Key, Object>)
    requires KeysDistinct(front) && ByKey(front, m)
    ensures KeysDistinct(front + [o]) <==> o.key !in m
  {
    var more := front + [o];
    assert forall i :: 0 <= i < |front| ==> front[i] in front;
    if o.key in m {
      var i :| 0 <= i < |front| && front[i] == m[o.key];
      assert more[i].key == more[|front|].key;
    }
  }

  lemma ByKeyNext(front: seq<Object>, o: Object, m: map<Key, Object>)
    requires ByKey(front, m) && o.key !in m
    ensures ByKey(front + [o], m[o.key := o])
  {
  }

  lemma NextObject(objects: seq<Object>, n: nat, m: map<Key, Object>)
    requires n < |objects| && ObjectPart(objects[..n]) && ByKey(objects[..n], m)
    ensures ObjectPart(objects[..n + 1]) <==>
              && 1 <= objects[n].size <= MAX_EXPANDED && objects[n].key !in m
              && Total(objects[..n]) + objects[n].size <= MAX_EXPANDED + MAX_ARCHIVE
    ensures Total(objects[..n + 1]) == Total(objects[..n]) + objects[n].size
    ensures objects[n].key !in m ==> ByKey(objects[..n + 1], m[objects[n].key := objects[n]])
  {
    hide KeysDistinct, ByKey;
    var front, more, o := objects[..n], objects[..n + 1], objects[n];
    assert more == front + [o] && more[..n] == front;
    KeysNext(front, o, m);
    if o.key !in m {
      ByKeyNext(front, o, m);
    }
  }

  lemma ObjectsBefore(objects: seq<Object>, n: nat)
    requires n <= |objects| && ObjectPart(objects)
    ensures ObjectPart(objects[..n])
  {
    TotalGrows(objects, n);
  }

  method CheckObjects(objects: seq<Object>) returns (ok: bool, m: map<Key, Object>)
    ensures ok == ObjectPart(objects)
    ensures ok ==> ByKey(objects, m)
  {
    hide ObjectPart, ByKey;
    m := map[];
    var size := 0;
    assert ObjectPart(objects[..0]) && ByKey(objects[..0], m) && Total(objects[..0]) == 0 by {
      NoObjects(objects[..0]);
    }
    for n := 0 to |objects|
      invariant ObjectPart(objects[..n]) && ByKey(objects[..n], m) && size == Total(objects[..n])
    {
      NextObject(objects, n, m);
      var o := objects[n];
      if o.size < 1 || o.size > MAX_EXPANDED || o.key in m || size + o.size > MAX_EXPANDED + MAX_ARCHIVE {
        if ObjectPart(objects) {
          ghost var next := n + 1;
          ObjectsBefore(objects, next);
          assert false;
        }
        return false, m;
      }
      m := m[o.key := o];
      size := size + o.size;
    }
    assert objects[..|objects|] == objects;
    return true, m;
  }

  lemma NoObjects(objects: seq<Object>)
    requires objects == []
    ensures ObjectPart(objects) && ByKey(objects, map[]) && Total(objects) == 0
  {
  }

  // Assets.

  predicate AssetOk(p: Plan, a: Asset) {
    && a.cleared && a.id != NIL && a.key.AssetKey? && a.key.asset == a.id
    && Object(a.key, a.mime, a.sha, a.size) in p.objects
  }

  ghost predicate AssetPart(p: Plan) {
    (forall i :: 0 <= i < |p.assets| ==> AssetOk(p, p.assets[i])) && NoDup(Keys(p.assets, AssetId))
  }

  function AssetKeys(assets: seq<Asset>): set<Key> {
    set a | a in assets :: a.key
  }

  function RenditionKeys(renditions: seq<Rendition>): set<Key> {
    set r | r in renditions :: r.key
  }

  method CheckAssets(p: Plan, all: map<Key, Object>) returns (ok: bool, left: map<Key, Object>, assets: map<Id, Asset>)
    requires ByKey(p.objects, all) && p.objects != [] && p.objects[0] == ArchiveOf(p)
    ensures ok == AssetPart(p)
    ensures ok ==> left == all - ({p.objects[0].key} + AssetKeys(p.assets)) && assets == Index(p.assets, AssetId)
  {
    hide Keys, Index, NoDup;
    left, assets := all - {p.objects[0].key}, map[];
    assert NoDup(Keys(p.assets[..0], AssetId)) && Index(p.assets[..0], AssetId) == map[] by {
      NoAssets(p.assets[..0]);
    }
    for n := 0 to |p.assets|
      invariant forall i :: 0 <= i < n ==> AssetOk(p, p.assets[i])
      invariant NoDup(Keys(p.assets[..n], AssetId)) && assets == Index(p.assets[..n], AssetId)
      invariant left == all - ({p.objects[0].key} + AssetKeys(p.assets[..n]))
    {
      hide AssetOk, ByKey;
      var a := p.assets[n];
      NextAsset(p.assets, n);
      if a.id in assets {
        return false, left, assets;
      }
      var found := AssetFound(p, all, left, a, n);
      if !found {
        return false, left, assets;
      }
      assert p.assets[..n + 1] == p.assets[..n] + [a];
      left := left - {a.key};
      assets := assets[a.id := a];
    }
    assert p.assets[..|p.assets|] == p.assets;
    return true, left, assets;
  }

  /** An asset's object is still there unless another asset of the same identity came before. */
  method AssetFound(p: Plan, all: map<Key, Object>, left: map<Key, Object>, a: Asset, ghost n: nat) returns (ok: bool)
    requires ByKey(p.objects, all) && p.objects != [] && p.objects[0] == ArchiveOf(p) && n <= |p.assets|
    requires left == all - ({p.objects[0].key} + AssetKeys(p.assets[..n]))
    requires a.id !in Index(p.assets[..n], AssetId) && forall i :: 0 <= i < n ==> AssetOk(p, p.assets[i])
    ensures ok == AssetOk(p, a)
  {
    if !a.cleared || a.id == NIL || !a.key.AssetKey? || a.key.asset != a.id {
      return false;
    }
    assert a.key !in AssetKeys(p.assets[..n]) by {
      OwnAssetKey(p, a, n);
    }
    assert a.key in left <==> a.key in all;
    if a.key !in left {
      return false;
    }
    var o := left[a.key];
    return o.mime == a.mime && o.sha == a.sha && o.size == a.size;
  }

  lemma OwnAssetKey(p: Plan, a: Asset, n: nat)
    requires n <= |p.assets| && a.key.AssetKey? && a.key.asset == a.id
    requires a.id !in Index(p.assets[..n], AssetId) && forall i :: 0 <= i < n ==> AssetOk(p, p.assets[i])
    ensures a.key !in AssetKeys(p.assets[..n])
  {
    IndexHolds(p.assets[..n], AssetId);
    forall b | b in p.assets[..n] ensures b.key != a.key {
      var i :| 0 <= i < n && p.assets[..n][i] == b;
      assert AssetOk(p, p.assets[i]);
    }
  }

  lemma NoAssets(assets: seq<Asset>)
    requires assets == []
    ensures NoDup(Keys(assets, AssetId)) && Index(assets, AssetId) == map[]
  {
  }

  lemma NextAsset(assets: seq<Asset>, n: nat)
    requires n < |assets| && NoDup(Keys(assets[..n], AssetId))
    ensures Index(assets[..n + 1], AssetId) == Index(assets[..n], AssetId)[assets[n].id := assets[n]]
    ensures NoDup(Keys(assets[..n + 1], AssetId)) <==> assets[n].id !in Index(assets[..n], AssetId)
    ensures NoDup(Keys(assets, AssetId)) ==> NoDup(Keys(assets[..n + 1], AssetId))
  {
    NextKey(assets, n, AssetId);
    NextRow(assets, n, AssetId, {});
    IndexHolds(assets[..n], AssetId);
    var id := assets[n].id;
    if id in Elements(Keys(assets[..n], AssetId)) {
      var i :| 0 <= i < n && Keys(assets[..n], AssetId)[i] == id;
      assert assets[..n][i] in assets[..n];
    }
    if id in Index(assets[..n], AssetId) {
      var i :| 0 <= i < n && assets[..n][i] == Index(assets[..n], AssetId)[id];
      assert Keys(assets[..n], AssetId)[i] == id;
    }
  }

  // Items.

  predicate PlannedItem(p: Plan, d: Derived, folders: set<Id>, assets: set<Id>, x: Item) {
    && ItemOk(x) && x.library == d.library && x.revision == 1
    && x.createdAt == p.createdAt && x.updatedAt == p.createdAt
    && (x.folder.Some? ==> x.folder.value in folders)
    && (p.kind == Project ==> !x.favorite)
    && (x.asset.Some? ==> x.asset.value == x.id && x.id in assets)
  }

  /** Every asset has exactly one item, which has its identity. */
  ghost predicate ItemPart(p: Plan, d: Derived, folders: set<Id>, assets: set<Id>) {
    && (forall i :: 0 <= i < |p.items| ==> PlannedItem(p, d, folders, assets, p.items[i]))
    && NoDup(Keys(p.items, ItemId))
    && (forall id | id in assets :: exists i :: 0 <= i < |p.items| && p.items[i].asset == Some(id))
  }

  method CheckItems(p: Plan, d: Derived, folders: set<Id>, assets: set<Id>) returns (ok: bool)
    ensures ok == ItemPart(p, d, folders, assets)
  {
    hide Keys, NoDup, ItemOk, PlannedItem;
    var ids, used := {}, {};
    assert NoDup(Keys(p.items[..0], ItemId)) && Elements(Keys(p.items[..0], ItemId)) == {} by {
      Nothing(p.items[..0], ItemId);
    }
    for n := 0 to |p.items|
      invariant forall i :: 0 <= i < n ==> PlannedItem(p, d, folders, assets, p.items[i])
      invariant NoDup(Keys(p.items[..n], ItemId)) && ids == Elements(Keys(p.items[..n], ItemId))
      invariant used == set i | 0 <= i < n && p.items[i].asset.Some? :: p.items[i].asset.value
      invariant used <= assets && used <= ids
    {
      var x := p.items[n];
      NextKey(p.items, n, ItemId);
      var planned := CheckItem(p, d, folders, assets, x);
      if !planned || x.id in ids {
        return false;
      }
      ids := ids + {x.id};
      if x.asset.Some? {
        used := used + {x.id};
      }
    }
    assert p.items[..|p.items|] == p.items;
    SameSize(used, assets);
    ok := |used| == |assets|;
  }

  method CheckItem(p: Plan, d: Derived, folders: set<Id>, assets: set<Id>, x: Item) returns (ok: bool)
    ensures ok == PlannedItem(p, d, folders, assets, x)
    ensures ok && x.asset.Some? ==> x.asset.value == x.id && x.id in assets
  {
    hide ItemOk;
    ok := ValidateItem(x);
    ok := ok && x.library == d.library && x.revision == 1 && x.createdAt == p.createdAt && x.updatedAt == p.createdAt;
    ok := ok && !(x.folder.Some? && x.folder.value !in folders) && !(p.kind == Project && x.favorite);
    ok := ok && !(x.asset.Some? && (x.asset.value != x.id || x.id !in assets));
  }

  lemma SameSize(a: set<Id>, b: set<Id>)
    requires a <= b
    ensures |a| == |b| <==> a == b
  {
    if |a| == |b| {
      assert |b - a| == |b| - |a|;
    }
  }

  // Renditions.

  predicate RenditionOk(p: Plan, d: Derived, assets: map<Id, Asset>, r: Rendition) {
    && r.sound && r.asset in assets
    && r.id == d.rendition(r.asset, r.kind)
    && r.key.RenditionKey? && r.key.asset == r.asset && r.key.kind == r.kind
    && r.size.Some? && exists o | o in p.objects :: o.key == r.key && o.size == r.size.value
  }

  ghost predicate OneOfEachKind(renditions: seq<Rendition>) {
    forall i, j :: 0 <= i < j < |renditions| ==>
      renditions[i].asset != renditions[j].asset || renditions[i].kind != renditions[j].kind
  }

  /** The kinds that are planned for one asset. */
  function KindsOf(renditions: seq<Rendition>, asset: Id): set<RenditionKind> {
    set r | r in renditions && r.asset == asset :: r.kind
  }

  ghost predicate RenditionPart(p: Plan, d: Derived, assets: map<Id, Asset>) {
    && (forall i :: 0 <= i < |p.renditions| ==> RenditionOk(p, d, assets, p.renditions[i]))
    && OneOfEachKind(p.renditions)
  }

  /** The kinds seen so far, by asset. */
  ghost predicate Seen(rends: map<Id, set<RenditionKind>>, renditions: seq<Rendition>) {
    forall id :: KindsOf(renditions, id) == if id in rends then rends[id] else {}
  }

  method CheckRenditions(p: Plan, d: Derived, all: map<Key, Object>, before: map<Key, Object>, assets: map<Id, Asset>)
    returns (ok: bool, left: map<Key, Object>, rends: map<Id, set<RenditionKind>>)
    requires ByKey(p.objects, all)
    requires forall k | k in all && k.RenditionKey? :: k in before && before[k] == all[k]
    requires forall k | k in before :: k in all
    ensures ok == RenditionPart(p, d, assets)
    ensures ok ==> left == before - RenditionKeys(p.renditions) && Seen(rends, p.renditions)
  {
    left, rends := before, map[];
    for n := 0 to |p.renditions|
      invariant forall i :: 0 <= i < n ==> RenditionOk(p, d, assets, p.renditions[i])
      invariant OneOfEachKind(p.renditions[..n])
      invariant left == before - RenditionKeys(p.renditions[..n]) && Seen(rends, p.renditions[..n])
    {
      hide RenditionOk, Seen, OneOfEachKind, ByKey;
      var r := p.renditions[n];
      var seen := if r.asset in rends then rends[r.asset] else {};
      NextKind(p.renditions, n, rends);
      var found := RenditionFound(p, d, all, before, left, assets, r, n);
      if !found || r.kind in seen {
        return false, left, rends;
      }
      assert p.renditions[..n + 1] == p.renditions[..n] + [r];
      left := left - {r.key};
      rends := rends[r.asset := seen + {r.kind}];
    }
    assert p.renditions[..|p.renditions|] == p.renditions;
    return true, left, rends;
  }

  lemma NextKind(renditions: seq<Rendition>, n: nat, rends: map<Id, set<RenditionKind>>)
    requires n < |renditions| && OneOfEachKind(renditions[..n]) && Seen(rends, renditions[..n])
    ensures var r := renditions[n];
            var seen := if r.asset in rends then rends[r.asset] else {};
            && (OneOfEachKind(renditions[..n + 1]) <==> r.kind !in seen)
            && Seen(rends[r.asset := seen + {r.kind}], renditions[..n + 1])
    ensures OneOfEachKind(renditions) ==> OneOfEachKind(renditions[..n + 1])
  {
    var r, front, more := renditions[n], renditions[..n], renditions[..n + 1];
    assert more == front + [r];
    assert KindsOf(front, r.asset) == if r.asset in rends then rends[r.asset] else {};
    if r.kind in KindsOf(front, r.asset) {
      var q :| q in front && q.asset == r.asset && q.kind == r.kind;
      var i :| 0 <= i < n && front[i] == q;
      assert more[i] == q && more[n] == r;
    }
    forall id ensures KindsOf(more, id) == KindsOf(front, id) + if id == r.asset then {r.kind} else {} {
      assert forall q :: q in more <==> q in front || q == r;
    }
  }

  /** A rendition's object is still there unless the same kind of the same asset came before. */
  method RenditionFound(
    p: Plan, d: Derived, all: map<Key, Object>, before: map<Key, Object>, left: map<Key, Object>,
    assets: map<Id, Asset>, r: Rendition, ghost n: nat)
    returns (ok: bool)
    requires ByKey(p.objects, all) && n <= |p.renditions|
    requires forall k | k in all && k.RenditionKey? :: k in before && before[k] == all[k]
    requires forall k | k in before :: k in all
    requires left == before - RenditionKeys(p.renditions[..n])
    requires forall i :: 0 <= i < n ==> RenditionOk(p, d, assets, p.renditions[i])
    ensures r.kind !in KindsOf(p.renditions[..n], r.asset) ==> ok == RenditionOk(p, d, assets, r)
    ensures ok ==> RenditionOk(p, d, assets, r)
  {
    if !r.sound || r.asset !in assets || r.id != d.rendition(r.asset, r.kind) || r.size == None
      || !r.key.RenditionKey? || r.key.asset != r.asset || r.key.kind != r.kind
    {
      return false;
    }
    if r.kind !in KindsOf(p.renditions[..n], r.asset) {
      OwnRenditionKey(p, d, assets, r, n);
    }
    if r.key !in left {
      return false;
    }
    assert left[r.key] == all[r.key];
    return left[r.key].size == r.size.value;
  }

  lemma OwnRenditionKey(p: Plan, d: Derived, assets: map<Id, Asset>, r: Rendition, n: nat)
    requires n <= |p.renditions| && r.key.RenditionKey? && r.key.asset == r.asset && r.key.kind == r.kind
    requires r.kind !in KindsOf(p.renditions[..n], r.asset)
    requires forall i :: 0 <= i < n ==> RenditionOk(p, d, assets, p.renditions[i])
    ensures r.key !in RenditionKeys(p.renditions[..n])
  {
    forall q | q in p.renditions[..n] ensures q.key != r.key {
      var i :| 0 <= i < n && p.renditions[..n][i] == q;
      assert RenditionOk(p, d, assets, p.renditions[i]);
    }
  }

  ghost predicate KindsComplete(p: Plan) {
    forall a | a in p.assets :: KindsOf(p.renditions, a.id) == Required(a.kind)
  }

  method CheckKinds(p: Plan, rends: map<Id, set<RenditionKind>>) returns (ok: bool)
    requires Seen(rends, p.renditions)
    ensures ok == KindsComplete(p)
  {
    for n := 0 to |p.assets|
      invariant forall i :: 0 <= i < n ==> KindsOf(p.renditions, p.assets[i].id) == Required(p.assets[i].kind)
    {
      var a := p.assets[n];
      var seen := if a.id in rends then rends[a.id] else {};
      assert KindsOf(p.renditions, a.id) == seen;
      assert a in p.assets;
      SameKinds(seen, Required(a.kind));
      if |seen| != |Required(a.kind)| || !(Required(a.kind) <= seen) {
        return false;
      }
    }
    return true;
  }

  lemma SameKinds(a: set<RenditionKind>, b: set<RenditionKind>)
    ensures a == b <==> |a| == |b| && b <= a
  {
    if |a| == |b| && b <= a {
      assert |a - b| == |a| - |b|;
    }
  }

  // The plan.

  ghost predicate Covered(p: Plan) {
    forall o | o in p.objects ::
      o == p.objects[0] || o.key in AssetKeys(p.assets) || o.key in RenditionKeys(p.renditions)
  }

  ghost predicate PlanOk(p: Plan, d: Derived) {
    && HeaderOk(p, d)
    && FolderPart(p, d)
    && ObjectPart(p.objects) && p.objects[0] == ArchiveOf(p)
    && AssetPart(p)
    && ItemPart(p, d, Elements(Keys(p.folders, FolderId)), Elements(Keys(p.assets, AssetId)))
    && RenditionPart(p, d, Index(p.assets, AssetId))
    && Covered(p)
    && KindsComplete(p)
  }

  method CheckFolders(p: Plan, d: Derived) returns (ok: bool, ids: set<Id>)
    ensures ok == FolderPart(p, d)
    ensures ok ==> ids == Elements(Keys(p.folders, FolderId))
  {
    hide PlacementOk, Keys;
    ids := {};
    assert Elements(Keys(p.folders[..0], FolderId)) == {} by {
      Nothing(p.folders[..0], FolderId);
    }
    for n := 0 to |p.folders|
      invariant forall i :: 0 <= i < n ==> PlannedFolder(p, d, p.folders[i])
      invariant ids == Elements(Keys(p.folders[..n], FolderId))
    {
      NextKey(p.folders, n, FolderId);
      if !PlannedFolder(p, d, p.folders[n]) {
        return false, ids;
      }
      ids := ids + {p.folders[n].id};
    }
    assert p.folders[..|p.folders|] == p.folders;
    ok := true;
    if |p.folders| != 0 {
      ok := ValidateFolderPlacement(p.folders[0], p.folders);
    }
  }

  lemma NothingLeft(p: Plan, all: map<Key, Object>, left: map<Key, Object>)
    requires ByKey(p.objects, all) && KeysDistinct(p.objects) && p.objects != []
    requires left == all - ({p.objects[0].key} + AssetKeys(p.assets)) - RenditionKeys(p.renditions)
    ensures left == map[] <==> Covered(p)
  {
    if left == map[] {
      forall o | o in p.objects
        ensures o == p.objects[0] || o.key in AssetKeys(p.assets) || o.key in RenditionKeys(p.renditions)
      {
        assert o.key !in left;
        assert p.objects[0] in p.objects;
      }
    }
    if Covered(p) {
      forall k | k in all ensures k !in left {
        assert all[k] in p.objects;
      }
      assert forall k | k in left :: k in all;
    }
  }

  lemma RenditionObjectsLeft(p: Plan, all: map<Key, Object>, left: map<Key, Object>)
    requires p.objects != [] && p.objects[0] == ArchiveOf(p) && AssetPart(p)
    requires left == all - ({p.objects[0].key} + AssetKeys(p.assets))
    ensures forall k | k in all && k.RenditionKey? :: k in left && left[k] == all[k]
    ensures forall k | k in left :: k in all
  {
    forall k | k in AssetKeys(p.assets) ensures k.AssetKey? {
      var a :| a in p.assets && a.key == k;
      var i :| 0 <= i < |p.assets| && p.assets[i] == a;
      assert AssetOk(p, p.assets[i]);
    }
  }

  lemma AssetIdsAre(p: Plan)
    ensures Index(p.assets, AssetId).Keys == Elements(Keys(p.assets, AssetId))
  {
    IndexHolds(p.assets, AssetId);
    forall id | id in Elements(Keys(p.assets, AssetId)) ensures id in Index(p.assets, AssetId) {
      var i :| 0 <= i < |p.assets| && Keys(p.assets, AssetId)[i] == id;
      assert p.assets[i] in p.assets;
    }
    forall id | id in Index(p.assets, AssetId) ensures id in Elements(Keys(p.assets, AssetId)) {
      var i :| 0 <= i < |p.assets| && p.assets[i] == Index(p.assets, AssetId)[id];
      assert Keys(p.assets, AssetId)[i] == id;
    }
  }

  method Validate(p: Plan, d: Derived) returns (ok: bool)
    ensures ok == PlanOk(p, d)
  {
    hide FolderPart, ObjectPart, AssetPart, ItemPart, RenditionPart, Covered, KindsComplete, ByKey, Seen;
    hide Keys, Index, Elements, KeysDistinct;
    if !HeaderOk(p, d) {
      return false;
    }
    var folders;
    ok, folders := CheckFolders(p, d);
    if !ok {
      return;
    }
    var all;
    ok, all := CheckObjects(p.objects);
    if !ok || p.objects[0] != ArchiveOf(p) {
      return false;
    }
    var left, assets;
    ok, left, assets := CheckAssets(p, all);
    if !ok {
      return;
    }
    AssetIdsAre(p);
    ok := CheckItems(p, d, folders, assets.Keys);
    if !ok {
      return;
    }
    RenditionObjectsLeft(p, all, left);
    var rends;
    ok, left, rends := CheckRenditions(p, d, all, left, assets);
    if !ok {
      return;
    }
    assert KeysDistinct(p.objects) by {
      ObjectKeysDistinct(p.objects);
    }
    NothingLeft(p, all, left);
    if left != map[] {
      return false;
    }
    ok := CheckKinds(p, rends);
  }

  lemma ObjectKeysDistinct(objects: seq<Object>)
    requires ObjectPart(objects)
    ensures KeysDistinct(objects)
  {
  }

  // What an accepted plan guarantees.

  /** The key that each object is for: the archive, then the assets, then the renditions. */
  function Intended(p: Plan): seq<Key> {
    [ArchiveOf(p).key] + seq(|p.assets|, i requires 0 <= i < |p.assets| => p.assets[i].key)
    + seq(|p.renditions|, i requires 0 <= i < |p.renditions| => p.renditions[i].key)
  }

  function ObjectKeys(p: Plan): seq<Key> {
    seq(|p.objects|, i requires 0 <= i < |p.objects| => p.objects[i].key)
  }

  lemma IntendedDistinct(p: Plan, d: Derived)
    requires PlanOk(p, d)
    ensures NoDup(Intended(p))
  {
    hide FolderPart, ObjectPart, ItemPart, Covered, KindsComplete;
    var a := seq(|p.assets|, i requires 0 <= i < |p.assets| => p.assets[i].key);
    var r := seq(|p.renditions|, i requires 0 <= i < |p.renditions| => p.renditions[i].key);
    forall i, j | 0 <= i < j < |a| ensures a[i] != a[j] {
      assert AssetOk(p, p.assets[i]) && AssetOk(p, p.assets[j]);
      assert Keys(p.assets, AssetId)[i] != Keys(p.assets, AssetId)[j];
    }
    forall i, j | 0 <= i < j < |r| ensures r[i] != r[j] {
      assert RenditionOk(p, d, Index(p.assets, AssetId), p.renditions[i]);
      assert RenditionOk(p, d, Index(p.assets, AssetId), p.renditions[j]);
    }
    forall i | 0 <= i < |a| ensures a[i].AssetKey? {
      assert AssetOk(p, p.assets[i]);
    }
    forall i | 0 <= i < |r| ensures r[i].RenditionKey? {
      assert RenditionOk(p, d, Index(p.assets, AssetId), p.renditions[i]);
    }
    NoDupParts([ArchiveOf(p).key], a);
    NoDupParts([ArchiveOf(p).key] + a, r);
  }

  lemma {:induction false} DistinctSubsetSize(s: seq<Key>, t: seq<Key>)
    requires NoDup(s) && NoDup(t) && |s| == |t| && forall k | k in s :: k in t
    ensures multiset(s) == multiset(t)
  {
    NoDupIsMultiset(s);
    NoDupIsMultiset(t);
    forall k ensures multiset(s)[k] <= multiset(t)[k] {
      assert k in s ==> k in multiset(t);
      assert k !in s ==> k !in multiset(s);
    }
    assert multiset(s) <= multiset(t);
    assert |multiset(t) - multiset(s)| == |t| - |s|;
  }

  lemma IntendedAreObjects(p: Plan, d: Derived, k: Key)
    requires PlanOk(p, d) && k in Intended(p)
    ensures k in ObjectKeys(p)
  {
    hide FolderPart, ObjectPart, ItemPart, Covered, KindsComplete;
    var o: Object;
    if k == ArchiveOf(p).key {
      o := p.objects[0];
    } else if i :| 0 <= i < |p.assets| && p.assets[i].key == k {
      assert AssetOk(p, p.assets[i]);
      o := Object(k, p.assets[i].mime, p.assets[i].sha, p.assets[i].size);
    } else {
      var i :| 0 <= i < |p.renditions| && p.renditions[i].key == k;
      assert RenditionOk(p, d, Index(p.assets, AssetId), p.renditions[i]);
      o :| o in p.objects && o.key == k && Some(o.size) == p.renditions[i].size;
    }
    assert o in p.objects && o.key == k;
    var j :| 0 <= j < |p.objects| && p.objects[j] == o;
    assert ObjectKeys(p)[j] == k;
  }

  /** Objects and their uses are in bijection: every object is for exactly one thing, and everything has its object. */
  lemma ObjectsMatchUses(p: Plan, d: Derived)
    requires PlanOk(p, d)
    ensures multiset(ObjectKeys(p)) == multiset(Intended(p)) && NoDup(ObjectKeys(p))
  {
    IntendedDistinct(p, d);
    ObjectKeysDistinct(p.objects);
    assert NoDup(ObjectKeys(p));
    forall k | k in Intended(p) ensures k in ObjectKeys(p) {
      IntendedAreObjects(p, d, k);
    }
    hide PlanOk, Intended, ObjectKeys;
    DistinctSubsetSize(Intended(p), ObjectKeys(p));
  }

  /** Every asset has exactly one item and exactly the renditions its kind requires. */
  lemma AssetsComplete(p: Plan, d: Derived, a: Asset)
    requires PlanOk(p, d) && a in p.assets
    ensures KindsOf(p.renditions, a.id) == Required(a.kind)
    ensures exists i :: 0 <= i < |p.items| && p.items[i].asset == Some(a.id)
    ensures forall i, j :: 0 <= i < j < |p.items| ==> p.items[i].asset == Some(a.id) ==> p.items[j].asset != Some(a.id)
  {
    var n :| 0 <= n < |p.assets| && p.assets[n] == a;
    assert Keys(p.assets, AssetId)[n] == a.id;
    var folders, assets := Elements(Keys(p.folders, FolderId)), Elements(Keys(p.assets, AssetId));
    assert a.id in assets;
    forall i, j | 0 <= i < j < |p.items| && p.items[i].asset == Some(a.id) ensures p.items[j].asset != Some(a.id) {
      assert PlannedItem(p, d, folders, assets, p.items[i]) && PlannedItem(p, d, folders, assets, p.items[j]);
      assert Keys(p.items, ItemId)[i] != Keys(p.items, ItemId)[j];
    }
  }
}
