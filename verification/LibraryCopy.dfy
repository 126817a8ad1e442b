/** Carrying a project's whole media catalog into the project's copy. */
module LibraryCopy {
  import opened Wrappers
  import opened Ids
  import opened Rows
  import opened Library

  const MAX_FOLDERS := 4096
  const MAX_ITEMS := 8192

  datatype State = Active | Trashed | RemovedState | OtherState

  /** A catalog entry: media or text, never both. `details` stands for its other editable texts. */
  datatype Item = Item(
    id: Id, library: Id, asset: Option<Id>, text: Option<string>, folder: Option<Id>, tags: seq<string>,
    favorite: bool, state: State, trashedAt: Option<Time>, position: int, revision: int,
    createdAt: Time, updatedAt: Time, details: string)

  datatype Binding = Binding(job: Id, org: Id, source: Id, target: Id)

  datatype Copy = Copy(library: Id, sourceLibrary: Id, sourceRevision: int, folders: seq<Folder>, items: seq<Item>)

  datatype Error = Unavailable

  function ItemId(x: Item): Id { x.id }

  predicate BindingOk(b: Binding) {
    b.job != NIL && b.org != NIL && b.source != NIL && b.target != NIL && b.source != b.target
  }

  predicate TagsOk(tags: seq<string>) {
    && |tags| <= 32
    && (forall i :: 0 <= i < |tags| ==> NameOk(tags[i], 64))
    && (forall i, j :: 0 <= i < j < |tags| ==> tags[i] != tags[j])
  }

  predicate ItemOk(x: Item) {
    && x.id != NIL && x.library != NIL
    && x.asset.Some? != x.text.Some?
    && x.asset != Some(NIL) && x.folder != Some(NIL)
    && 0 <= x.position <= MAX_INT32 && 1 <= x.revision <= MAX_INT32
    && x.state != OtherState && (x.state == Trashed <==> x.trashedAt.Some?)
    && TagsOk(x.tags)
  }

  method ValidateItem(x: Item) returns (ok: bool)
    ensures ok == ItemOk(x)
  {
    if x.id == NIL || x.library == NIL || x.asset.Some? == x.text.Some? || x.asset == Some(NIL) || x.folder == Some(NIL)
      || x.position < 0 || x.position > MAX_INT32 || x.revision < 1 || x.revision > MAX_INT32
      || x.state == OtherState || (x.state == Trashed) != x.trashedAt.Some? || |x.tags| > 32
    {
      return false;
    }
    var seen := {};
    for n := 0 to |x.tags|
      invariant seen == set i | 0 <= i < n :: x.tags[i]
      invariant forall i :: 0 <= i < n ==> NameOk(x.tags[i], 64)
      invariant forall i, j :: 0 <= i < j < n ==> x.tags[i] != x.tags[j]
    {
      if !NameOk(x.tags[n], 64) || x.tags[n] in seen {
        return false;
      }
      seen := seen + {x.tags[n]};
    }
    return true;
  }

  /** The names of one copy: folders and texts by job-scoped identities, media by their copied assets. */
  datatype Names = Names(folder: Id -> Id, text: Id -> Id, assets: map<Id, Id>, library: Id, now: Time) {
    function Asset(x: Id): Id {
      if x in assets then assets[x] else NIL
    }
  }

  function CopyFolder(m: Names, f: Folder): Folder {
    f.(id := m.folder(f.id), library := m.library, revision := 1, createdAt := m.now, updatedAt := m.now,
       parent := MapOption(m.folder, f.parent))
  }

  function CopyItem(m: Names, x: Item): Item {
    x.(id := if x.asset.Some? then m.Asset(x.asset.value) else m.text(x.id),
       asset := if x.asset.Some? then Some(m.Asset(x.asset.value)) else None,
       library := m.library, revision := 1, createdAt := m.now, updatedAt := m.now,
       folder := MapOption(m.folder, x.folder))
  }

  // Folders.

  ghost predicate SourceFolders(folders: seq<Folder>, library: Id) {
    && (forall i :: 0 <= i < |folders| ==>
          folders[i].library == library && folders[i].kind == Project && FolderOk(folders[i]))
    && NoDup(Keys(folders, FolderId))
  }

  ghost predicate FoldersOk(folders: seq<Folder>, library: Id) {
    SourceFolders(folders, library) && (folders != [] ==> PlacementOk(folders[0], folders))
  }

  /** The tree of a copy, by identity. */
  ghost predicate TreeCopied(m: Names, a: map<Id, Folder>, b: map<Id, Folder>) {
    && (forall id | id in a :: m.folder(id) in b && b[m.folder(id)] == CopyFolder(m, a[id]))
    && (forall j | j in b :: exists id | id in a :: m.folder(id) == j)
  }

  lemma IndexCopied(m: Names, folders: seq<Folder>)
    requires Renaming(m.folder)
    ensures TreeCopied(m, Index(folders, FolderId), Index(Each(folders, f => CopyFolder(m, f)), FolderId))
  {
    IndexRenamed(folders, FolderId, m.folder, f => CopyFolder(m, f));
  }

  lemma {:induction false} ReachesCopied(m: Names, a: map<Id, Folder>, b: map<Id, Folder>, id: Id, n: nat)
    requires Renaming(m.folder) && TreeCopied(m, a, b)
    ensures Reaches(b, m.folder(id), n) == Reaches(a, id, n)
    decreases n
  {
    FolderIn(m, a, b, id);
    hide TreeCopied, Renaming;
    if id in a && n > 0 && a[id].parent.Some? {
      ReachesCopied(m, a, b, a[id].parent.value, n - 1);
    }
  }

  lemma FolderIn(m: Names, a: map<Id, Folder>, b: map<Id, Folder>, id: Id)
    requires Renaming(m.folder) && TreeCopied(m, a, b)
    ensures id in a <==> m.folder(id) in b
    ensures id in a ==> b[m.folder(id)].parent == MapOption(m.folder, a[id].parent)
  {
  }

  lemma SameNameCopied(m: Names, f: Folder, g: Folder)
    requires Renaming(m.folder)
    ensures SameName(CopyFolder(m, f), CopyFolder(m, g)) <==> SameName(f, g)
  {
  }

  /** The copied tree is a forest of bounded depth with distinct names exactly when the source's is. */
  lemma ForestCopied(m: Names, a: map<Id, Folder>, b: map<Id, Folder>)
    requires Renaming(m.folder) && TreeCopied(m, a, b)
    ensures FolderForest(a) <==> FolderForest(b)
  {
    hide Reaches, SameName, Renaming;
    if FolderForest(a) {
      forall j | j in b ensures Reaches(b, j, MAX_DEPTH) {
        var id :| id in a && m.folder(id) == j;
        ReachesCopied(m, a, b, id, MAX_DEPTH);
      }
      forall j, k | j in b && k in b && SameName(b[j], b[k]) ensures j == k {
        var x :| x in a && m.folder(x) == j;
        var y :| y in a && m.folder(y) == k;
        SameNameCopied(m, a[x], a[y]);
      }
    }
    if FolderForest(b) {
      forall id | id in a ensures Reaches(a, id, MAX_DEPTH) {
        ReachesCopied(m, a, b, id, MAX_DEPTH);
      }
      forall x, y | x in a && y in a && SameName(a[x], a[y]) ensures x == y {
        SameNameCopied(m, a[x], a[y]);
        Apart(m, x, y);
      }
    }
  }

  lemma Apart(m: Names, x: Id, y: Id)
    requires Renaming(m.folder) && m.folder(x) == m.folder(y)
    ensures x == y
  {
  }

  lemma PlacedFirst(folders: seq<Folder>)
    requires folders != [] && NoDup(Keys(folders, FolderId))
    ensures Placed(folders[0], folders) == Index(folders, FolderId)
  {
    IndexHolds(folders, FolderId);
    assert folders[0] in folders;
  }

  lemma FolderCopied(m: Names, f: Folder)
    requires Renaming(m.folder) && m.library != NIL && FolderOk(f) && f.kind == Project
    ensures FolderOk(CopyFolder(m, f))
  {
    hide LookOk, NameOk;
  }

  lemma KeysCopied(m: Names, folders: seq<Folder>)
    requires Renaming(m.folder) && NoDup(Keys(folders, FolderId))
    ensures NoDup(Keys(Each(folders, f => CopyFolder(m, f)), FolderId))
  {
    KeysEach(folders, FolderId, m.folder, f => CopyFolder(m, f));
  }

  lemma CopiesPlaced(m: Names, folders: seq<Folder>)
    requires Renaming(m.folder) && folders != [] && NoDup(Keys(folders, FolderId))
    requires FolderForest(Index(folders, FolderId))
    ensures var copies := Each(folders, f => CopyFolder(m, f)); FolderForest(Placed(copies[0], copies))
  {
    var copies := Each(folders, f => CopyFolder(m, f));
    KeysCopied(m, folders);
    PlacedFirst(copies);
    IndexCopied(m, folders);
    hide *;
    ForestCopied(m, Index(folders, FolderId), Index(copies, FolderId));
  }

  lemma CopiesSourced(m: Names, folders: seq<Folder>, library: Id)
    requires Renaming(m.folder) && m.library != NIL && SourceFolders(folders, library)
    ensures SourceFolders(Each(folders, f => CopyFolder(m, f)), m.library)
  {
    KeysCopied(m, folders);
    CopiesAlike(m, folders);
    hide FolderOk, CopyFolder, Renaming, Keys, NoDup;
    forall i | 0 <= i < |folders| ensures FolderOk(CopyFolder(m, folders[i])) {
      FolderCopied(m, folders[i]);
    }
  }

  lemma PlacedAccepted(folders: seq<Folder>, library: Id)
    requires folders != [] && SourceFolders(folders, library) && FolderForest(Placed(folders[0], folders))
    ensures PlacementOk(folders[0], folders)
  {
    hide FolderOk, FolderForest, Placed, Keys, NoDup;
  }

  /** A valid folder tree is carried to a valid one. */
  lemma FoldersCopied(m: Names, folders: seq<Folder>, library: Id)
    requires Renaming(m.folder) && m.library != NIL && FoldersOk(folders, library)
    ensures FoldersOk(Each(folders, f => CopyFolder(m, f)), m.library)
  {
    CopiesSourced(m, folders, library);
    if folders != [] {
      var copies := Each(folders, f => CopyFolder(m, f));
      PlacedFirst(folders);
      CopiesPlaced(m, folders);
      PlacedAccepted(copies, m.library);
    }
  }

  lemma CopiesAlike(m: Names, folders: seq<Folder>)
    requires forall i :: 0 <= i < |folders| ==> folders[i].kind == Project
    ensures forall i :: 0 <= i < |folders| ==>
              CopyFolder(m, folders[i]).kind == Project && CopyFolder(m, folders[i]).library == m.library
  {
  }

  // Items.

  predicate ItemCopyable(m: Names, folders: set<Id>, library: Id, x: Item) {
    && ItemOk(x) && x.library == library && !x.favorite
    && (x.asset.Some? ==> x.id == x.asset.value && m.Asset(x.asset.value) != NIL)
    && (x.folder.Some? ==> x.folder.value in folders)
  }

  ghost predicate ItemsCopyable(m: Names, folders: set<Id>, library: Id, items: seq<Item>) {
    && (forall i :: 0 <= i < |items| ==> ItemCopyable(m, folders, library, items[i]))
    && NoDup(Keys(items, ItemId))
  }

  function CopyOf(m: Names, source: Id, revision: int, folders: seq<Folder>, items: seq<Item>): Copy {
    Copy(m.library, source, revision, Each(folders, f => CopyFolder(m, f)), Each(items, x => CopyItem(m, x)))
  }

  /** The rules of a stored copy. */
  predicate CopiedItemOk(c: Copy, x: Item) {
    && ItemOk(x) && x.library == c.library && x.revision == 1 && !x.favorite
    && (x.asset.Some? ==> x.asset.value == x.id)
    && (x.folder.Some? ==> x.folder.value in Keys(c.folders, FolderId))
  }

  ghost predicate CopyOk(c: Copy, source: Id, target: Id) {
    && c.library == target && c.sourceLibrary == source && 0 <= c.sourceRevision <= MAX_INT32
    && |c.folders| <= MAX_FOLDERS && |c.items| <= MAX_ITEMS
    && FoldersOk(c.folders, target) && (forall i :: 0 <= i < |c.folders| ==> c.folders[i].revision == 1)
    && (forall i :: 0 <= i < |c.items| ==> CopiedItemOk(c, c.items[i]))
    && NoDup(Keys(c.items, ItemId))
  }

  method CheckFolders(folders: seq<Folder>, library: Id) returns (ok: bool, ids: set<Id>)
    ensures ok == SourceFolders(folders, library)
    ensures ok ==> ids == Elements(Keys(folders, FolderId))
  {
    hide FolderOk, Keys, Elements, NoDup;
    ids := {};
    assert NoDup(Keys(folders[..0], FolderId)) && Elements(Keys(folders[..0], FolderId)) == {} by {
      Nothing(folders[..0], FolderId);
    }
    for n := 0 to |folders|
      invariant forall i :: 0 <= i < n ==>
                  folders[i].library == library && folders[i].kind == Project && FolderOk(folders[i])
      invariant NoDup(Keys(folders[..n], FolderId)) && ids == Elements(Keys(folders[..n], FolderId))
    {
      NextKey(folders, n, FolderId);
      if folders[n].library != library || folders[n].kind != Project || !FolderOk(folders[n]) || folders[n].id in ids {
        return false, ids;
      }
      ids := ids + {folders[n].id};
    }
    assert folders[..|folders|] == folders;
    return true, ids;
  }

  lemma Nothing<T>(s: seq<T>, key: T -> Id)
    requires s == []
    ensures NoDup(Keys(s, key)) && Elements(Keys(s, key)) == {}
  {
  }

  lemma NextKey<T>(s: seq<T>, n: nat, key: T -> Id)
    requires n < |s|
    ensures Elements(Keys(s[..n + 1], key)) == Elements(Keys(s[..n], key)) + {key(s[n])}
    ensures NoDup(Keys(s[..n + 1], key)) <==> NoDup(Keys(s[..n], key)) && key(s[n]) !in Elements(Keys(s[..n], key))
    ensures NoDup(Keys(s, key)) ==> NoDup(Keys(s[..n + 1], key))
  {
    NextRow(s, n, key, {});
    assert Keys(s[..n + 1], key) == Keys(s[..n], key) + [key(s[n])];
    NoDupParts(Keys(s[..n], key), [key(s[n])]);
    assert Keys(s[..n + 1], key) == Keys(s, key)[..n + 1];
  }

  method CheckFolderTree(folders: seq<Folder>, library: Id) returns (ok: bool, ids: set<Id>)
    ensures ok == FoldersOk(folders, library)
    ensures ok ==> ids == Elements(Keys(folders, FolderId))
  {
    hide SourceFolders, PlacementOk, Keys, Elements;
    ok, ids := CheckFolders(folders, library);
    if ok && |folders| > 0 {
      ok := ValidateFolderPlacement(folders[0], folders);
    }
  }

  method CopyFolders(m: Names, folders: seq<Folder>) returns (r: seq<Folder>)
    ensures r == Each(folders, f => CopyFolder(m, f))
  {
    r := folders;
    for i := 0 to |folders|
      invariant |r| == |folders|
      invariant forall j :: 0 <= j < i ==> r[j] == CopyFolder(m, folders[j])
      invariant forall j :: i <= j < |folders| ==> r[j] == folders[j]
    {
      var f := r[i];
      f := f.(id := m.folder(f.id), library := m.library, revision := 1, createdAt := m.now, updatedAt := m.now);
      if f.parent.Some? {
        f := f.(parent := Some(m.folder(f.parent.value)));
      }
      r := r[i := f];
    }
  }

  method CopyItems(m: Names, folders: set<Id>, library: Id, items: seq<Item>) returns (ok: bool, r: seq<Item>)
    ensures ok == ItemsCopyable(m, folders, library, items)
    ensures ok ==> r == Each(items, x => CopyItem(m, x))
  {
    hide ItemOk, Keys, Elements, NoDup;
    r := items;
    var seen := {};
    assert NoDup(Keys(items[..0], ItemId)) && Elements(Keys(items[..0], ItemId)) == {} by {
      Nothing(items[..0], ItemId);
    }
    for i := 0 to |items|
      invariant |r| == |items|
      invariant forall j :: 0 <= j < i ==> r[j] == CopyItem(m, items[j]) && ItemCopyable(m, folders, library, items[j])
      invariant forall j :: i <= j < |items| ==> r[j] == items[j]
      invariant NoDup(Keys(items[..i], ItemId)) && seen == Elements(Keys(items[..i], ItemId))
    {
      NextKey(items, i, ItemId);
      var x := r[i];
      var valid := ValidateItem(x);
      if !valid || x.library != library || x.favorite || x.id in seen || (x.asset.Some? && x.id != x.asset.value) {
        return false, r;
      }
      seen := seen + {x.id};
      if x.asset == None {
        x := x.(id := m.text(x.id));
      } else {
        var target := m.Asset(x.asset.value);
        if target == NIL {
          return false, r;
        }
        x := x.(id := target, asset := Some(target));
      }
      x := x.(library := m.library, revision := 1, createdAt := m.now, updatedAt := m.now);
      if x.folder.Some? {
        if x.folder.value !in folders {
          return false, r;
        }
        x := x.(folder := Some(m.folder(x.folder.value)));
      }
      r := r[i := x];
    }
    assert items[..|items|] == items;
    return true, r;
  }

  method ValidateCopy(c: Copy, source: Id, target: Id) returns (ok: bool)
    ensures ok == CopyOk(c, source, target)
  {
    if c.library != target || c.sourceLibrary != source || c.sourceRevision < 0 || c.sourceRevision > MAX_INT32
      || |c.folders| > MAX_FOLDERS || |c.items| > MAX_ITEMS
    {
      return false;
    }
    hide FoldersOk, Keys, Elements, NoDup, ItemOk;
    var folders;
    ok, folders := CheckFolderTree(c.folders, target);
    if !ok {
      return;
    }
    for i := 0 to |c.folders|
      invariant forall j :: 0 <= j < i ==> c.folders[j].revision == 1
    {
      if c.folders[i].revision != 1 {
        return false;
      }
    }
    ok := CheckItems(c, folders);
  }

  method CheckItems(c: Copy, folders: set<Id>) returns (ok: bool)
    requires folders == Elements(Keys(c.folders, FolderId))
    ensures ok <==> (forall i :: 0 <= i < |c.items| ==> CopiedItemOk(c, c.items[i])) && NoDup(Keys(c.items, ItemId))
  {
    hide Keys, NoDup, ItemOk;
    var seen := {};
    assert NoDup(Keys(c.items[..0], ItemId)) && Elements(Keys(c.items[..0], ItemId)) == {} by {
      Nothing(c.items[..0], ItemId);
    }
    for i := 0 to |c.items|
      invariant forall j :: 0 <= j < i ==> CopiedItemOk(c, c.items[j])
      invariant NoDup(Keys(c.items[..i], ItemId)) && seen == Elements(Keys(c.items[..i], ItemId))
    {
      NextKey(c.items, i, ItemId);
      var x := c.items[i];
      var valid := ValidateItem(x);
      if !valid || x.library != c.library || x.revision != 1 || x.favorite || x.id in seen
        || (x.asset.Some? && x.asset.value != x.id) || (x.folder.Some? && x.folder.value !in folders)
      {
        return false;
      }
      seen := seen + {x.id};
    }
    assert c.items[..|c.items|] == c.items;
    return true;
  }

  // Exactly when the finished copy is valid.

  lemma ItemCopied(m: Names, folders: seq<Folder>, library: Id, c: Copy, x: Item)
    requires Renaming(m.folder) && Renaming(m.text) && m.library != NIL
    requires ItemCopyable(m, Elements(Keys(folders, FolderId)), library, x)
    requires c.library == m.library && c.folders == Each(folders, f => CopyFolder(m, f))
    ensures CopiedItemOk(c, CopyItem(m, x))
  {
    KeysEach(folders, FolderId, m.folder, f => CopyFolder(m, f));
    EachMembers(Keys(folders, FolderId), m.folder);
  }

  /** Only two items that were given the same identity can spoil a copy. */
  lemma CopyValidIff(m: Names, source: Id, revision: int, folders: seq<Folder>, items: seq<Item>)
    requires Renaming(m.folder) && Renaming(m.text) && m.library != NIL && 0 <= revision <= MAX_INT32
    requires |folders| <= MAX_FOLDERS && |items| <= MAX_ITEMS
    requires FoldersOk(folders, source) && ItemsCopyable(m, Elements(Keys(folders, FolderId)), source, items)
    ensures var c := CopyOf(m, source, revision, folders, items);
            CopyOk(c, source, m.library) <==> NoDup(Keys(c.items, ItemId))
  {
    var c := CopyOf(m, source, revision, folders, items);
    FoldersCopied(m, folders, source);
    hide FoldersOk, Keys, NoDup, ItemCopyable, CopiedItemOk, Elements;
    forall i | 0 <= i < |c.items| ensures CopiedItemOk(c, c.items[i]) {
      ItemCopied(m, folders, source, c, items[i]);
    }
  }

  /** With injective assets whose targets are no text identities, no two items get the same identity. */
  lemma CopiedItemsDistinct(m: Names, folders: set<Id>, library: Id, items: seq<Item>)
    requires Renaming(m.text) && ItemsCopyable(m, folders, library, items)
    requires forall x, y | x in m.assets && y in m.assets :: m.assets[x] == m.assets[y] ==> x == y
    requires forall x, y | x in m.assets :: m.assets[x] != m.text(y)
    ensures NoDup(Keys(Each(items, x => CopyItem(m, x)), ItemId))
  {
    var copies := Each(items, x => CopyItem(m, x));
    hide ItemOk;
    forall i, j | 0 <= i < j < |copies| ensures copies[i].id != copies[j].id {
      assert Keys(items, ItemId)[i] != Keys(items, ItemId)[j];
      assert ItemCopyable(m, folders, library, items[i]) && ItemCopyable(m, folders, library, items[j]);
    }
  }

  // What the copy holds, field by field.

  /** An optional folder is there exactly if the source's is, under its new name. */
  predicate PlaceCarried(folderId: Id -> Id, a: Option<Id>, b: Option<Id>) {
    if a.None? then b.None? else b.Some? && b.value == folderId(a.value)
  }

  predicate FolderCarried(m: Names, f: Folder, g: Folder) {
    && g.id == m.folder(f.id) && g.library == m.library
    && g.kind == f.kind && PlaceCarried(m.folder, f.parent, g.parent)
    && g.name == f.name && g.style == f.style && g.theme == f.theme && g.position == f.position
    && g.revision == 1 && g.createdAt == m.now && g.updatedAt == m.now
  }

  /** Media is the copied asset, and its identity is the asset's; text is the same under a new identity. */
  predicate ItemCarried(m: Names, x: Item, y: Item) {
    && (if x.asset.None? then y.asset.None? && y.id == m.text(x.id)
        else x.asset.value in m.assets && y.asset == Some(m.assets[x.asset.value]) && y.id == m.assets[x.asset.value])
    && y.library == m.library && PlaceCarried(m.folder, x.folder, y.folder)
    && y.text == x.text && y.tags == x.tags && y.favorite == x.favorite && y.state == x.state
    && y.trashedAt == x.trashedAt && y.position == x.position && y.details == x.details
    && y.revision == 1 && y.createdAt == m.now && y.updatedAt == m.now
  }

  ghost predicate LibraryCarried(m: Names, source: Id, revision: int, folders: seq<Folder>, items: seq<Item>, c: Copy) {
    && c.library == m.library && c.sourceLibrary == source && c.sourceRevision == revision
    && |c.folders| == |folders| && |c.items| == |items|
    && (forall i :: 0 <= i < |folders| ==> FolderCarried(m, folders[i], c.folders[i]))
    && forall i :: 0 <= i < |items| ==> ItemCarried(m, items[i], c.items[i])
  }

  lemma CopyCarries(
    m: Names, source: Id, revision: int, folders: seq<Folder>, items: seq<Item>, ids: set<Id>, library: Id)
    requires ItemsCopyable(m, ids, library, items)
    ensures LibraryCarried(m, source, revision, folders, items, CopyOf(m, source, revision, folders, items))
  {
    hide ItemOk;
    forall i | 0 <= i < |items| ensures ItemCarried(m, items[i], CopyItem(m, items[i])) {
      assert ItemCopyable(m, ids, library, items[i]);
    }
  }

  /** The identity that an item is given: that of the copied asset, or a new one for a text. */
  function NewIdentity(textId: Id -> Id, assets: map<Id, Id>, x: Item): Option<Id> {
    if x.asset.None? then Some(textId(x.id))
    else if x.asset.value in assets then Some(assets[x.asset.value])
    else None
  }

  /** No two items are given the same identity. */
  ghost predicate IdentitiesApart(textId: Id -> Id, assets: map<Id, Id>, items: seq<Item>) {
    forall i, j :: 0 <= i < j < |items| ==>
      NewIdentity(textId, assets, items[i]) != NewIdentity(textId, assets, items[j])
  }

  lemma ApartIff(m: Names, items: seq<Item>, ids: set<Id>, library: Id)
    requires ItemsCopyable(m, ids, library, items)
    ensures NoDup(Keys(Each(items, x => CopyItem(m, x)), ItemId)) <==> IdentitiesApart(m.text, m.assets, items)
  {
    var copies := Each(items, x => CopyItem(m, x));
    hide ItemOk;
    forall i | 0 <= i < |items| ensures NewIdentity(m.text, m.assets, items[i]) == Some(Keys(copies, ItemId)[i]) {
      assert ItemCopyable(m, ids, library, items[i]);
    }
    hide ItemsCopyable, CopyItem, NewIdentity;
  }

  predicate RequestOk(
    b: Binding, library: Id -> Id, sourceLibrary: Id, revision: int, folders: seq<Folder>, items: seq<Item>, now: Time)
  {
    && BindingOk(b) && now != 0 && 0 <= revision <= MAX_INT32
    && |folders| <= MAX_FOLDERS && |items| <= MAX_ITEMS && sourceLibrary == library(b.source)
  }

  /**
    The frozen catalog is copied as a whole or refused; an empty one gives nothing. The folder tree and every
    item's place in it are carried over under the new names.
   */
  method PrepareProjectLibraryCopy(
    b: Binding, library: Id -> Id, sourceLibrary: Id, revision: int, folders: seq<Folder>, items: seq<Item>,
    folderId: Id -> Id, textId: Id -> Id, assets: map<Id, Id>, now: Time)
    returns (r: Result<Option<Copy>, Error>)
    requires Renaming(library) && Renaming(folderId) && Renaming(textId)
    ensures var m := Names(folderId, textId, assets, library(b.target), now);
            var copy := CopyOf(m, sourceLibrary, revision, folders, items);
            && (r.Success? <==>
                  && RequestOk(b, library, sourceLibrary, revision, folders, items, now)
                  && FoldersOk(folders, sourceLibrary)
                  && ItemsCopyable(m, Elements(Keys(folders, FolderId)), sourceLibrary, items)
                  && IdentitiesApart(textId, assets, items))
            && (r.Success? ==> r.value == if folders == [] && items == [] then None else Some(copy))
            && (r.Success? && r.value.Some? ==>
                  && LibraryCarried(m, sourceLibrary, revision, folders, items, r.value.value)
                  && CopyOk(r.value.value, sourceLibrary, library(b.target)))
  {
    if !BindingOk(b) || now == 0 || revision < 0 || revision > MAX_INT32
       || |folders| > MAX_FOLDERS || |items| > MAX_ITEMS
      || sourceLibrary != library(b.source)
    {
      return Failure(Unavailable);
    }
    var m := Names(folderId, textId, assets, library(b.target), now);
    assert m.library != NIL;
    hide FoldersOk, ItemsCopyable, CopyOk, Renaming, CopyItem, CopyFolder, Elements, BindingOk, LibraryCarried;
    hide IdentitiesApart;
    var valid, ids := CheckFolderTree(folders, sourceLibrary);
    if !valid {
      return Failure(Unavailable);
    }
    var copies := CopyFolders(m, folders);
    var copyable, copied := CopyItems(m, ids, sourceLibrary, items);
    if !copyable {
      return Failure(Unavailable);
    }
    if |copies| == 0 && |copied| == 0 {
      ApartIff(m, items, ids, sourceLibrary);
      return Success(None);
    }
    var copy := Copy(m.library, sourceLibrary, revision, copies, copied);
    CopyValidIff(m, sourceLibrary, revision, folders, items);
    CopyCarries(m, sourceLibrary, revision, folders, items, ids, sourceLibrary);
    ApartIff(m, items, ids, sourceLibrary);
    var ok := ValidateCopy(copy, sourceLibrary, m.library);
    return if ok then Success(Some(copy)) else Failure(Unavailable);
  }
}
