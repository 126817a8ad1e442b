/** Media library folders: the rules of a folder tree and where a folder may be placed. */
module Library {
  import opened Wrappers
  import opened Ids
  import opened Rows

  const MAX_INT32 := 0x7fff_ffff
  const MAX_DEPTH: nat := 8

  type Time = nat

  datatype LibraryKind = Project | Personal | OtherLibrary

  datatype Folder = Folder(
    id: Id, library: Id, kind: LibraryKind, parent: Option<Id>, name: string, position: int,
    style: string, theme: string, revision: int, createdAt: Time, updatedAt: Time)

  function FolderId(f: Folder): Id { f.id }

  function LowerChar(c: char): char {
    if 'A' <= c <= 'Z' then ((c as int) - ('A' as int) + ('a' as int)) as char else c
  }

  /** Case-insensitive names. */
  function Lower(s: string): string {
    seq(|s|, i requires 0 <= i < |s| => LowerChar(s[i]))
  }

  predicate White(c: char) {
    c == ' ' || c == '\t' || c == '\n' || c == '\r'
  }

  /** A name is not blank and has no white space around it. */
  predicate NameOk(s: string, limit: nat) {
    0 < |s| <= limit && !White(s[0]) && !White(s[|s| - 1])
  }

  predicate LookOk(style: string, theme: string) {
    && style in ["glass", "stacked", "midnight", "paper", "cinema", "compact"]
    && theme in ["aurora", "obsidian", "ember", "pearl"]
  }

  predicate FolderOk(f: Folder) {
    && match f.kind {
       case Personal => f.parent == None && f.style == "" && f.theme == "" && NameOk(f.name, 40)
       case Project => LookOk(f.style, f.theme) && NameOk(f.name, 60)
       case OtherLibrary => false
    }
    && f.id != NIL && f.library != NIL
    && f.parent != Some(NIL) && f.parent != Some(f.id)
    && 0 <= f.position <= MAX_INT32 && 1 <= f.revision <= MAX_INT32
  }

  // Trees.

  /** The root is at most `n` folders up, counting the folder itself, and every parent is there. */
  predicate Reaches(all: map<Id, Folder>, id: Id, n: nat)
    decreases n
  {
    id in all && n > 0 && (all[id].parent.Some? ==> Reaches(all, all[id].parent.value, n - 1))
  }

  predicate SameName(a: Folder, b: Folder) {
    a.parent == b.parent && Lower(a.name) == Lower(b.name)
  }

  ghost predicate NamesDistinct(all: map<Id, Folder>) {
    forall j, k | j in all && k in all :: SameName(all[j], all[k]) ==> j == k
  }

  /** A forest of bounded depth with every parent present and sibling names distinct. */
  ghost predicate FolderForest(all: map<Id, Folder>) {
    NamesDistinct(all) && forall id | id in all :: Reaches(all, id, MAX_DEPTH)
  }

  /** The folders of the library once `folder` has replaced the one with its identity, or joined them. */
  function Placed(folder: Folder, existing: seq<Folder>): map<Id, Folder> {
    Index(existing, FolderId)[folder.id := folder]
  }

  predicate SameLibrary(f: Folder, g: Folder) {
    g.library == f.library && g.kind == f.kind && FolderOk(g)
  }

  ghost predicate PlacementOk(folder: Folder, existing: seq<Folder>) {
    && FolderOk(folder)
    && (forall i :: 0 <= i < |existing| ==> SameLibrary(folder, existing[i]))
    && NoDup(Keys(existing, FolderId))
    && FolderForest(Placed(folder, existing))
  }

  // The walk to the root.

  ghost predicate Upward(all: map<Id, Folder>, path: seq<Id>) {
    && (forall i :: 0 <= i < |path| ==> path[i] in all && all[path[i]].parent.Some?)
    && (forall i :: 0 <= i < |path| - 1 ==> all[path[i]].parent == Some(path[i + 1]))
  }

  lemma {:induction false} CycleNeverReaches(all: map<Id, Folder>, path: seq<Id>, from: nat, n: nat)
    requires Upward(all, path) && from < |path|
    requires exists i :: 0 <= i < |path| && all[path[|path| - 1]].parent == Some(path[i])
    ensures !Reaches(all, path[from], n)
    decreases n
  {
    if n > 0 {
      if from < |path| - 1 {
        CycleNeverReaches(all, path, from + 1, n - 1);
      } else {
        var i :| 0 <= i < |path| && all[path[|path| - 1]].parent == Some(path[i]);
        CycleNeverReaches(all, path, i, n - 1);
      }
    }
  }

  /** Walks up from one folder; a folder seen twice or a ninth level is refused. */
  method CheckDepth(all: map<Id, Folder>, start: Id) returns (ok: bool)
    requires start in all
    ensures ok == Reaches(all, start, MAX_DEPTH)
  {
    var current, depth, seen := start, 1, {};
    ghost var path: seq<Id> := [];
    while true
      invariant 1 <= depth <= MAX_DEPTH + 1 && current in all && |path| == depth - 1
      invariant seen == Elements(path) && Upward(all, path)
      invariant path != [] ==> path[0] == start && all[path[|path| - 1]].parent == Some(current)
      invariant path == [] ==> current == start
      invariant Reaches(all, start, MAX_DEPTH) == Reaches(all, current, MAX_DEPTH - (depth - 1))
      decreases MAX_DEPTH + 1 - depth
    {
      if current in seen || depth > MAX_DEPTH {
        if current in seen {
          ghost var i :| 0 <= i < |path| && path[i] == current;
          CycleNeverReaches(all, path, 0, MAX_DEPTH);
        }
        return false;
      }
      seen := seen + {current};
      var f := all[current];
      if f.parent == None {
        return true;
      }
      if f.parent.value !in all {
        return false;
      }
      path := path + [current];
      current, depth := f.parent.value, depth + 1;
    }
  }

  // Placement.

  /** No folder already checked has this parent and name. */
  method CheckTree(all: map<Id, Folder>) returns (ok: bool)
    ensures ok == FolderForest(all)
  {
    hide Reaches;
    var todo, siblings := all.Keys, {};
    while todo != {}
      invariant todo <= all.Keys
      invariant siblings == set id | id in all.Keys - todo :: (all[id].parent, Lower(all[id].name))
      invariant forall j, k | j in all.Keys - todo && k in all.Keys - todo :: SameName(all[j], all[k]) ==> j == k
      invariant forall id | id in all.Keys - todo :: Reaches(all, id, MAX_DEPTH)
    {
      var id :| id in todo;
      var key := (all[id].parent, Lower(all[id].name));
      if key in siblings {
        assert exists j | j in all.Keys - todo :: SameName(all[j], all[id]);
        return false;
      }
      siblings := siblings + {key};
      var deep := CheckDepth(all, id);
      if !deep {
        return false;
      }
      todo := todo - {id};
    }
    return true;
  }

  /** A sibling of the same name excludes the placement whatever the rest of the tree is. */
  lemma SiblingExcludes(folder: Folder, existing: seq<Folder>, i: nat)
    requires i < |existing| && existing[i].id != folder.id
    requires SameName(existing[i], folder) && NoDup(Keys(existing, FolderId))
    ensures !NamesDistinct(Placed(folder, existing))
  {
    IndexHolds(existing, FolderId);
    assert existing[i] in existing;
    var all := Placed(folder, existing);
    assert all[existing[i].id] == existing[i] && all[folder.id] == folder;
    assert SameName(all[existing[i].id], all[folder.id]);
  }

  method ValidateFolderPlacement(folder: Folder, existing: seq<Folder>) returns (ok: bool)
    ensures ok == PlacementOk(folder, existing)
  {
    if !FolderOk(folder) {
      return false;
    }
    hide FolderOk, Index, Keys, NoDup, Fresh, Elements, SameName, FolderForest;
    var all: map<Id, Folder> := map[];
    assert Fresh({}, Keys(existing[..0], FolderId)) && Index(existing[..0], FolderId) == map[] by {
      NoFolders(existing[..0]);
    }
    for n := 0 to |existing|
      invariant all == Index(existing[..n], FolderId) && NoDup(Keys(existing[..n], FolderId))
      invariant forall i :: 0 <= i < n ==> SameLibrary(folder, existing[i])
    {
      var current := existing[n];
      if !SameLibrary(folder, current) {
        return false;
      }
      NextFolder(existing, n);
      if current.id in all {
        return false;
      }
      if current.id != folder.id && SameName(current, folder) {
        Excluded(folder, existing, n);
        return false;
      }
      all := all[current.id := current];
    }
    assert existing[..|existing|] == existing;
    ok := CheckTree(all[folder.id := folder]);
  }

  lemma NoFolders(s: seq<Folder>)
    requires s == []
    ensures Fresh({}, Keys(s, FolderId)) && Index(s, FolderId) == map[] && NoDup(Keys(s, FolderId))
  {
  }

  lemma NextFolder(s: seq<Folder>, n: nat)
    requires n < |s| && NoDup(Keys(s[..n], FolderId))
    ensures Index(s[..n + 1], FolderId) == Index(s[..n], FolderId)[s[n].id := s[n]]
    ensures NoDup(Keys(s[..n + 1], FolderId)) <==> s[n].id !in Index(s[..n], FolderId)
    ensures NoDup(Keys(s, FolderId)) ==> NoDup(Keys(s[..n + 1], FolderId))
  {
    NextRow(s, n, FolderId, {});
    IndexHolds(s[..n], FolderId);
    assert Keys(s[..n + 1], FolderId) == Keys(s[..n], FolderId) + [s[n].id];
    NoDupParts(Keys(s[..n], FolderId), [s[n].id]);
    assert s[n].id in Keys(s[..n], FolderId) <==> s[n].id in Index(s[..n], FolderId) by {
      KeyInIndex(s[..n], s[n].id);
    }
    assert Keys(s[..n + 1], FolderId) == Keys(s, FolderId)[..n + 1];
  }

  lemma KeyInIndex(s: seq<Folder>, id: Id)
    ensures id in Keys(s, FolderId) <==> id in Index(s, FolderId)
  {
    IndexHolds(s, FolderId);
    if id in Keys(s, FolderId) {
      var i :| 0 <= i < |s| && Keys(s, FolderId)[i] == id;
      assert s[i] in s;
    }
    if id in Index(s, FolderId) {
      var i :| 0 <= i < |s| && s[i] == Index(s, FolderId)[id];
      assert Keys(s, FolderId)[i] == id;
    }
  }

  lemma Excluded(folder: Folder, existing: seq<Folder>, n: nat)
    requires n < |existing| && existing[n].id != folder.id && SameName(existing[n], folder)
    ensures !PlacementOk(folder, existing)
  {
    if NoDup(Keys(existing, FolderId)) {
      SiblingExcludes(folder, existing, n);
    }
  }
}
