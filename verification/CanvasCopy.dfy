/** A copy of a canvas graph under new identities, and why it is as valid as the original. */
module CanvasCopy {
  import opened Wrappers
  import opened Ids
  import opened Rows
  import opened CanvasNodes
  import opened CanvasCommands
  import opened CanvasGraph

  /** What an identity belongs to. Identities inside a configuration are scoped by the node that holds it. */
  datatype Scope =
    | NodeScope | EdgeScope | DocumentScope
    | ColumnScope(node: Id) | RowScope(node: Id) | TrackScope(node: Id) | ClipScope(node: Id)
    | SceneScope(node: Id) | ShotScope(node: Id) | ObjectScope(node: Id) | CameraScope(node: Id) | LightScope(node: Id)
    | ScreenshotScope(node: Id)
    | MotionScope(node: Id, owner: Id) | FrameScope(node: Id, owner: Id) | BoneScope(node: Id, owner: Id, bone: string)
    | CameraFrameScope(node: Id, camera: Id)

  /** How a copy names things. */
  datatype Names = Names(identity: (Scope, Id) -> Id, assets: map<Id, Id>) {
    function In(s: Scope): Id -> Id {
      x => identity(s, x)
    }

    function Node(x: Id): Id {
      identity(NodeScope, x)
    }

    function Asset(x: Id): Id {
      if x in assets then assets[x] else NIL
    }
  }

  /** What is assumed of name-based identities: never nil, and different for different names. */
  ghost predicate Derived(m: Names) {
    && (forall s, x :: m.identity(s, x) != NIL)
    && (forall s, x, t, y :: m.identity(s, x) == m.identity(t, y) ==> s == t && x == y)
  }

  lemma DerivedIsRenaming(m: Names, s: Scope)
    requires Derived(m)
    ensures Renaming(m.In(s))
  {
    assert forall x :: m.In(s)(x) == m.identity(s, x);
  }

  // The copy of each part.

  function CopyGeneration(m: Names, c: GenerationConfig): GenerationConfig {
    c.(inputs := Each(c.inputs, (x: Input) => x.(asset := m.Asset(x.asset))))
  }

  function CopyColumn(m: Names, node: Id, x: Column): Column {
    x.(id := m.identity(ColumnScope(node), x.id))
  }

  function CopyRow(m: Names, node: Id, x: Row): Row {
    x.(id := m.identity(RowScope(node), x.id), inputs := Each(x.inputs, slot => MapOption(m.In(NodeScope), slot)))
  }

  function CopyBatch(m: Names, node: Id, c: BatchConfig): BatchConfig {
    c.(columns := Each(c.columns, x => CopyColumn(m, node, x)), rows := Each(c.rows, x => CopyRow(m, node, x)))
  }

  function CopyTrack(m: Names, node: Id, x: Track): Track {
    x.(id := m.identity(TrackScope(node), x.id))
  }

  function CopyClip(m: Names, node: Id, c: Clip): Clip {
    c.(id := m.identity(ClipScope(node), c.id), track := m.identity(TrackScope(node), c.track),
       node := MapOption(m.In(NodeScope), c.node), asset := MapOption(x => m.Asset(x), c.asset))
  }

  function CopyTimeline(m: Names, node: Id, c: TimelineConfig): TimelineConfig {
    c.(tracks := Each(c.tracks, x => CopyTrack(m, node, x)), clips := Each(c.clips, x => CopyClip(m, node, x)))
  }

  function CopyFrames(m: Names, s: Scope, frames: seq<Frame>): seq<Frame> {
    Each(frames, (x: Frame) => x.(id := m.identity(s, x.id)))
  }

  function CopyBone(m: Names, node: Id, owner: Id, x: BoneTrack): BoneTrack {
    x.(frames := CopyFrames(m, BoneScope(node, owner, x.bone), x.frames))
  }

  function CopyObject(m: Names, node: Id, x: Object): Object {
    x.(id := m.identity(ObjectScope(node), x.id), node := MapOption(m.In(NodeScope), x.node),
       asset := MapOption(a => m.Asset(a), x.asset),
       activeMotion := MapOption(m.In(MotionScope(node, x.id)), x.activeMotion),
       motions := CopyFrames(m, MotionScope(node, x.id), x.motions),
       frames := CopyFrames(m, FrameScope(node, x.id), x.frames),
       bones := Each(x.bones, b => CopyBone(m, node, x.id, b)))
  }

  function CopyCamera(m: Names, node: Id, x: Camera): Camera {
    x.(id := m.identity(CameraScope(node), x.id),
       follow := MapOption(m.In(ObjectScope(node)), x.follow), lookAt := MapOption(m.In(ObjectScope(node)), x.lookAt),
       frames := CopyFrames(m, CameraFrameScope(node, x.id), x.frames))
  }

  function CopyLight(m: Names, node: Id, x: Light): Light {
    x.(id := m.identity(LightScope(node), x.id))
  }

  function CopyScreenshot(m: Names, node: Id, x: Screenshot): Screenshot {
    x.(id := m.identity(ScreenshotScope(node), x.id), asset := m.Asset(x.asset))
  }

  function CopyShot(m: Names, node: Id, x: Shot): Shot {
    x.(id := m.identity(ShotScope(node), x.id), camera := m.identity(CameraScope(node), x.camera),
       screenshots := Each(x.screenshots, s => CopyScreenshot(m, node, s)))
  }

  function CopyCover(m: Names, node: Id, x: Cover): Cover {
    Cover(m.Asset(x.asset), m.identity(ShotScope(node), x.shot))
  }

  function CopyDirector(m: Names, node: Id, c: DirectorConfig): DirectorConfig {
    c.(id := m.identity(SceneScope(node), c.id), activeShot := m.identity(ShotScope(node), c.activeShot),
       cover := if c.cover.Some? then Some(CopyCover(m, node, c.cover.value)) else None,
       panorama := MapOption(a => m.Asset(a), c.panorama),
       objects := Each(c.objects, x => CopyObject(m, node, x)), cameras := Each(c.cameras, x => CopyCamera(m, node, x)),
       lights := Each(c.lights, x => CopyLight(m, node, x)), shots := Each(c.shots, x => CopyShot(m, node, x)))
  }

  function CopyConfig(m: Names, node: Id, c: Config): Config {
    c.(generation := if c.generation.Some? then Some(CopyGeneration(m, c.generation.value)) else None,
       batch := if c.batch.Some? then Some(CopyBatch(m, node, c.batch.value)) else None,
       timeline := if c.timeline.Some? then Some(CopyTimeline(m, node, c.timeline.value)) else None,
       director := if c.director.Some? then Some(CopyDirector(m, node, c.director.value)) else None)
  }

  function CopyNode(m: Names, n: Node): Node {
    n.(id := m.Node(n.id), parent := MapOption(m.In(NodeScope), n.parent), ref := MapOption(x => m.Asset(x), n.ref),
       config := CopyConfig(m, n.id, n.config))
  }

  function CopyEdge(m: Names, e: Edge): Edge {
    e.(id := m.identity(EdgeScope, e.id), source := m.Node(e.source), target := m.Node(e.target))
  }

  function CopyGraph(m: Names, g: Graph): Graph {
    g.(nodes := Each(g.nodes, n => CopyNode(m, n)), edges := Each(g.edges, e => CopyEdge(m, e)))
  }

  // The assets a graph uses, and when a mapping is accepted for them.

  function GenerationAssets(c: GenerationConfig): set<Id> {
    set x | x in c.inputs :: x.asset
  }

  function TimelineAssets(c: TimelineConfig): set<Id> {
    set x | x in c.clips && x.asset.Some? :: x.asset.value
  }

  function ScreenshotAssets(x: Shot): set<Id> {
    set s | s in x.screenshots :: s.asset
  }

  function DirectorAssets(c: DirectorConfig): set<Id> {
    (if c.cover.Some? then {c.cover.value.asset} else {})
    + (if c.panorama.Some? then {c.panorama.value} else {})
    + (set x | x in c.objects && x.asset.Some? :: x.asset.value)
    + (set x, a | x in c.shots && a in ScreenshotAssets(x) :: a)
  }

  function ConfigAssets(c: Config): set<Id> {
    (if c.generation.Some? then GenerationAssets(c.generation.value) else {})
    + (if c.timeline.Some? then TimelineAssets(c.timeline.value) else {})
    + (if c.director.Some? then DirectorAssets(c.director.value) else {})
  }

  function NodeAssets(n: Node): set<Id> {
    (if n.ref.Some? then {n.ref.value} else {}) + ConfigAssets(n.config)
  }

  function GraphAssets(g: Graph): set<Id> {
    set n, x | n in g.nodes && x in NodeAssets(n) :: x
  }

  /** Every used asset has a target of its own that is another asset and not itself a source. */
  ghost predicate AssetsAccepted(assets: map<Id, Id>, used: set<Id>) {
    && (forall x | x in used :: x in assets && assets[x] != NIL && assets[x] != x && assets[x] !in assets)
    && (forall x, y | x in used && y in used :: assets[x] == assets[y] ==> x == y)
  }

  /** Used assets keep their being an asset. */
  ghost predicate Covers(m: Names, used: set<Id>) {
    forall x | x in used :: m.Asset(x) != NIL
  }

  // Lists of renamed rows.

  lemma DistinctEach(ids: seq<Id>, f: Id -> Id)
    requires Renaming(f) && Distinct(ids)
    ensures Distinct(Each(ids, f))
  {
  }

  lemma DistinctCopied<T>(s: seq<T>, key: T -> Id, f: Id -> Id, g: T -> T)
    requires Renaming(f) && forall x | x in s :: key(g(x)) == f(key(x))
    requires Distinct(Keys(s, key))
    ensures Distinct(Keys(Each(s, g), key))
    ensures forall k | k in Keys(s, key) :: f(k) in Keys(Each(s, g), key)
  {
    KeysEach(s, key, f, g);
    DistinctEach(Keys(s, key), f);
    EachMembers(Keys(s, key), f);
  }

  // Valid configurations stay valid.

  lemma GenerationCopied(m: Names, c: GenerationConfig)
    requires GenerationOk(c) && Covers(m, GenerationAssets(c))
    ensures GenerationOk(CopyGeneration(m, c))
  {
    forall i | 0 <= i < |c.inputs| ensures InputOk(CopyGeneration(m, c).inputs[i]) {
      assert c.inputs[i] in c.inputs && InputOk(c.inputs[i]);
    }
  }

  lemma BatchCopied(m: Names, node: Id, c: BatchConfig)
    requires Derived(m) && BatchOk(c)
    ensures BatchOk(CopyBatch(m, node, c))
  {
    var d := CopyBatch(m, node, c);
    DerivedIsRenaming(m, ColumnScope(node));
    DerivedIsRenaming(m, RowScope(node));
    DistinctCopied(c.columns, ColumnId, m.In(ColumnScope(node)), x => CopyColumn(m, node, x));
    DistinctCopied(c.rows, RowId, m.In(RowScope(node)), x => CopyRow(m, node, x));
    hide Distinct, Keys, Renaming;
    forall i | 0 <= i < |d.rows| ensures RowOk(d.rows[i], |d.columns|) {
      assert RowOk(c.rows[i], |c.columns|);
    }
  }

  lemma ClipCopied(m: Names, node: Id, c: Clip)
    requires Derived(m) && ClipOk(c) && (c.asset.Some? ==> m.Asset(c.asset.value) != NIL)
    ensures ClipOk(CopyClip(m, node, c))
  {
    hide TitleOk;
  }

  lemma TrackCopied(m: Names, node: Id, tracks: seq<Track>, c: Clip)
    requires Derived(m) && Distinct(Keys(tracks, TrackId)) && OnTrack(Index(tracks, TrackId), c)
    ensures OnTrack(Index(Each(tracks, x => CopyTrack(m, node, x)), TrackId), CopyClip(m, node, c))
  {
    var copies := Each(tracks, x => CopyTrack(m, node, x));
    DerivedIsRenaming(m, TrackScope(node));
    DistinctCopied(tracks, TrackId, m.In(TrackScope(node)), x => CopyTrack(m, node, x));
    IndexHolds(tracks, TrackId);
    IndexHolds(copies, TrackId);
    var t := Index(tracks, TrackId)[c.track];
    EachMembers(tracks, x => CopyTrack(m, node, x));
    assert CopyTrack(m, node, t) in copies;
  }

  lemma ClipsCopied(m: Names, node: Id, c: TimelineConfig)
    requires Derived(m) && TimelineOk(c) && Covers(m, TimelineAssets(c))
    ensures var d := CopyTimeline(m, node, c);
            forall i :: 0 <= i < |d.clips| ==> OnTrack(Index(d.tracks, TrackId), d.clips[i]) && ClipOk(d.clips[i])
  {
    var d := CopyTimeline(m, node, c);
    hide Derived, Renaming, Distinct, Keys, Index, TitleOk, ClipOk, OnTrack, NoOverlap, CopyClip, CopyTrack;
    forall i | 0 <= i < |d.clips| ensures OnTrack(Index(d.tracks, TrackId), d.clips[i]) && ClipOk(d.clips[i]) {
      assert c.clips[i] in c.clips;
      ClipCopied(m, node, c.clips[i]);
      TrackCopied(m, node, c.tracks, c.clips[i]);
    }
  }

  lemma OverlapsCopied(m: Names, node: Id, c: TimelineConfig)
    requires Derived(m) && NoOverlap(c.clips)
    ensures NoOverlap(CopyTimeline(m, node, c).clips)
  {
    var d := CopyTimeline(m, node, c);
    DerivedIsRenaming(m, TrackScope(node));
    forall i, j | 0 <= i < j < |d.clips| && d.clips[i].track == d.clips[j].track
      ensures !Overlap(d.clips[i], d.clips[j])
    {
      assert c.clips[i].track == c.clips[j].track;
    }
  }

  lemma TracksCopied(m: Names, node: Id, c: TimelineConfig)
    requires Derived(m) && TimelineOk(c)
    ensures var d := CopyTimeline(m, node, c);
            && Distinct(Keys(d.tracks, TrackId)) && Distinct(Keys(d.clips, ClipId)) && d.settings == c.settings
            && |d.tracks| == |c.tracks| && |d.clips| == |c.clips|
            && forall i :: 0 <= i < |d.tracks| ==> TrackKind(d.tracks[i].kind) && TitleOk(d.tracks[i].caption)
  {
    DerivedIsRenaming(m, ClipScope(node));
    DerivedIsRenaming(m, TrackScope(node));
    hide Derived, Renaming, Distinct, Keys, Index, TitleOk, ClipOk, OnTrack, NoOverlap;
    DistinctCopied(c.tracks, TrackId, m.In(TrackScope(node)), x => CopyTrack(m, node, x));
    DistinctCopied(c.clips, ClipId, m.In(ClipScope(node)), x => CopyClip(m, node, x));
  }

  lemma TimelineCopied(m: Names, node: Id, c: TimelineConfig)
    requires Derived(m) && TimelineOk(c) && Covers(m, TimelineAssets(c))
    ensures TimelineOk(CopyTimeline(m, node, c))
  {
    TracksCopied(m, node, c);
    ClipsCopied(m, node, c);
    OverlapsCopied(m, node, c);
    hide Derived, Distinct, Keys, Index, TitleOk, ClipOk, OnTrack, NoOverlap, CopyTimeline;
  }

  // A director scene.

  lemma FramesCopied(m: Names, s: Scope, frames: seq<Frame>)
    requires Derived(m) && Distinct(Keys(frames, FrameId))
    ensures Distinct(Keys(CopyFrames(m, s, frames), FrameId)) && |CopyFrames(m, s, frames)| == |frames|
    ensures forall k | k in Keys(frames, FrameId) :: m.identity(s, k) in Keys(CopyFrames(m, s, frames), FrameId)
  {
    DerivedIsRenaming(m, s);
    DistinctCopied(frames, FrameId, m.In(s), (x: Frame) => x.(id := m.identity(s, x.id)));
    assert forall k :: m.In(s)(k) == m.identity(s, k);
  }

  lemma BonesCopied(m: Names, node: Id, owner: Id, bones: seq<BoneTrack>)
    requires Derived(m) && BonesOk(bones)
    ensures BonesOk(Each(bones, b => CopyBone(m, node, owner, b)))
  {
    hide Derived, Distinct, Keys, CopyFrames;
    forall i | 0 <= i < |bones| ensures FramesOk(CopyBone(m, node, owner, bones[i]).frames) {
      FramesCopied(m, BoneScope(node, owner, bones[i].bone), bones[i].frames);
    }
  }

  lemma ObjectMediaCopied(m: Names, node: Id, x: Object)
    requires Derived(m) && ObjectMediaOk(x) && (x.asset.Some? ==> m.Asset(x.asset.value) != NIL)
    ensures ObjectMediaOk(CopyObject(m, node, x))
  {
    hide CopyFrames, CopyBone;
  }

  lemma ObjectCopied(m: Names, node: Id, x: Object)
    requires Derived(m) && ObjectOk(x) && (x.asset.Some? ==> m.Asset(x.asset.value) != NIL)
    ensures ObjectOk(CopyObject(m, node, x))
  {
    ObjectMediaCopied(m, node, x);
    hide Derived, Distinct, Keys, CopyFrames, ObjectMediaOk, CopyBone, BonesOk;
    FramesCopied(m, MotionScope(node, x.id), x.motions);
    FramesCopied(m, FrameScope(node, x.id), x.frames);
    BonesCopied(m, node, x.id, x.bones);
  }

  lemma CameraCopied(m: Names, node: Id, x: Camera, objects: seq<Id>)
    requires Derived(m) && CameraOk(x, objects)
    ensures CameraOk(CopyCamera(m, node, x), Each(objects, m.In(ObjectScope(node))))
  {
    EachMembers(objects, m.In(ObjectScope(node)));
    hide Derived, Distinct, Keys, CopyFrames;
    FramesCopied(m, CameraFrameScope(node, x.id), x.frames);
  }

  lemma ShotCopied(m: Names, node: Id, x: Shot, cameras: seq<Id>)
    requires ShotOk(x, cameras) && Covers(m, ScreenshotAssets(x))
    ensures ShotOk(CopyShot(m, node, x), Each(cameras, m.In(CameraScope(node))))
  {
    EachMembers(cameras, m.In(CameraScope(node)));
    assert m.In(CameraScope(node))(x.camera) == m.identity(CameraScope(node), x.camera);
    forall i | 0 <= i < |x.screenshots| ensures CopyShot(m, node, x).screenshots[i].asset != NIL {
      assert x.screenshots[i] in x.screenshots;
    }
  }

  lemma {:induction false} ScreenshotIdsCopied(m: Names, node: Id, shots: seq<Shot>)
    ensures ScreenshotIds(Each(shots, x => CopyShot(m, node, x))) ==
              Each(ScreenshotIds(shots), m.In(ScreenshotScope(node)))
  {
    if shots != [] {
      var front, last := shots[..|shots| - 1], shots[|shots| - 1];
      var copies := Each(shots, x => CopyShot(m, node, x));
      ScreenshotIdsCopied(m, node, front);
      assert copies[..|copies| - 1] == Each(front, x => CopyShot(m, node, x));
      assert Keys(CopyShot(m, node, last).screenshots, (s: Screenshot) => s.id)
          == Each(Keys(last.screenshots, (s: Screenshot) => s.id), m.In(ScreenshotScope(node)));
      EachJoined(ScreenshotIds(front), Keys(last.screenshots, (s: Screenshot) => s.id), m.In(ScreenshotScope(node)));
    }
  }

  lemma EachJoined(s: seq<Id>, t: seq<Id>, f: Id -> Id)
    ensures Each(s + t, f) == Each(s, f) + Each(t, f)
  {
  }

  lemma KeysOfCopies(m: Names, node: Id, c: DirectorConfig)
    ensures var d := CopyDirector(m, node, c);
            && Keys(d.objects, ObjectId) == Each(Keys(c.objects, ObjectId), m.In(ObjectScope(node)))
            && Keys(d.cameras, CameraId) == Each(Keys(c.cameras, CameraId), m.In(CameraScope(node)))
            && Keys(d.lights, LightId) == Each(Keys(c.lights, LightId), m.In(LightScope(node)))
            && Keys(d.shots, ShotId) == Each(Keys(c.shots, ShotId), m.In(ShotScope(node)))
  {
    hide CopyFrames, CopyBone;
    KeysEach(c.objects, ObjectId, m.In(ObjectScope(node)), x => CopyObject(m, node, x));
    KeysEach(c.cameras, CameraId, m.In(CameraScope(node)), x => CopyCamera(m, node, x));
    KeysEach(c.lights, LightId, m.In(LightScope(node)), x => CopyLight(m, node, x));
    KeysEach(c.shots, ShotId, m.In(ShotScope(node)), x => CopyShot(m, node, x));
  }

  lemma ScopedDistinct(m: Names, s: Scope, ids: seq<Id>)
    requires Derived(m) && Distinct(ids)
    ensures Distinct(Each(ids, m.In(s)))
    ensures forall x | x in ids :: m.identity(s, x) in Each(ids, m.In(s))
  {
    DerivedIsRenaming(m, s);
    DistinctEach(ids, m.In(s));
    EachMembers(ids, m.In(s));
    assert forall x :: m.In(s)(x) == m.identity(s, x);
  }

  lemma SceneCopied(m: Names, node: Id, c: DirectorConfig)
    requires Derived(m) && SceneOk(c) && Covers(m, DirectorAssets(c))
    ensures SceneOk(CopyDirector(m, node, c))
  {
    var d := CopyDirector(m, node, c);
    KeysOfCopies(m, node, c);
    hide Derived, Distinct, ObjectOk, CameraOk, CopyObject, CopyCamera, CopyShot, CopyLight, Keys;
    ScopedDistinct(m, ObjectScope(node), Keys(c.objects, ObjectId));
    ScopedDistinct(m, CameraScope(node), Keys(c.cameras, CameraId));
    ScopedDistinct(m, LightScope(node), Keys(c.lights, LightId));
    ScopedDistinct(m, ShotScope(node), Keys(c.shots, ShotId));
    forall i | 0 <= i < |d.objects| ensures ObjectOk(d.objects[i]) {
      assert c.objects[i] in c.objects;
      ObjectCopied(m, node, c.objects[i]);
    }
    forall i | 0 <= i < |d.cameras| ensures CameraOk(d.cameras[i], Keys(d.objects, ObjectId)) {
      CameraCopied(m, node, c.cameras[i], Keys(c.objects, ObjectId));
    }
  }

  lemma OutputsCopied(m: Names, node: Id, c: DirectorConfig)
    requires Derived(m) && OutputsOk(c) && SceneOk(c) && Covers(m, DirectorAssets(c))
    ensures OutputsOk(CopyDirector(m, node, c))
  {
    var d := CopyDirector(m, node, c);
    KeysOfCopies(m, node, c);
    ScreenshotIdsCopied(m, node, c.shots);
    ScopedDistinct(m, ScreenshotScope(node), ScreenshotIds(c.shots));
    ScopedDistinct(m, ShotScope(node), Keys(c.shots, ShotId));
    ShotsCopied(m, node, c);
    hide Derived, Distinct, ObjectOk, CameraOk, CopyObject, CopyCamera, CopyShot, CopyLight, Keys, ShotOk;
    hide ScreenshotIds;
  }

  lemma ShotsCopied(m: Names, node: Id, c: DirectorConfig)
    requires Derived(m) && OutputsOk(c) && SceneOk(c) && Covers(m, DirectorAssets(c))
    ensures var d := CopyDirector(m, node, c);
              forall i :: 0 <= i < |d.shots| ==> ShotOk(d.shots[i], Keys(d.cameras, CameraId))
  {
    var d := CopyDirector(m, node, c);
    KeysOfCopies(m, node, c);
    hide Derived, Distinct, ObjectOk, CameraOk, CopyObject, CopyCamera, CopyShot, CopyLight, Keys, ShotOk;
    hide ScreenshotIds;
    forall i | 0 <= i < |d.shots| ensures ShotOk(d.shots[i], Keys(d.cameras, CameraId)) {
      assert c.shots[i] in c.shots;
      assert Covers(m, ScreenshotAssets(c.shots[i])) by {
        assert forall a | a in ScreenshotAssets(c.shots[i]) :: a in DirectorAssets(c);
      }
      ShotCopied(m, node, c.shots[i], Keys(c.cameras, CameraId));
    }
  }

  lemma DirectorCopied(m: Names, node: Id, c: DirectorConfig)
    requires Derived(m) && DirectorOk(c) && Covers(m, DirectorAssets(c))
    ensures DirectorOk(CopyDirector(m, node, c))
  {
    SceneCopied(m, node, c);
    OutputsCopied(m, node, c);
    hide SceneOk, OutputsOk, CopyObject, CopyCamera, CopyShot, CopyLight;
  }

  lemma ConfigCopied(m: Names, node: Id, kind: Kind, c: Config)
    requires Derived(m) && ConfigOk(kind, c) && Covers(m, ConfigAssets(c))
    ensures ConfigOk(kind, CopyConfig(m, node, c))
  {
    hide Derived, GenerationOk, BatchOk, TimelineOk, DirectorOk;
    hide CopyGeneration, CopyBatch, CopyTimeline, CopyDirector, GenerationAssets, TimelineAssets, DirectorAssets;
    if c.generation.Some? {
      if kind == Generation {
        GenerationCopied(m, c.generation.value);
      }
    }
    if c.batch.Some? && kind == BatchTable {
      BatchCopied(m, node, c.batch.value);
    }
    if c.timeline.Some? && kind == Timeline {
      TimelineCopied(m, node, c.timeline.value);
    }
    if c.director.Some? && kind == Director {
      DirectorCopied(m, node, c.director.value);
    }
  }

  lemma NodeCopied(m: Names, n: Node)
    requires Derived(m) && Editable(n) && NodeOk(n) && Covers(m, NodeAssets(n))
    ensures Editable(CopyNode(m, n)) && NodeOk(CopyNode(m, n)) && CopyNode(m, n).id != NIL
  {
    hide ConfigOk, CopyConfig;
    ConfigCopied(m, n.id, n.kind, n.config);
  }

  // References and parents.

  /** The node table of a copy. */
  ghost predicate NodesCopied(m: Names, a: map<Id, Node>, b: map<Id, Node>) {
    && (forall id | id in a :: m.Node(id) in b && b[m.Node(id)] == CopyNode(m, a[id]))
    && (forall j | j in b :: exists id | id in a :: m.Node(id) == j)
  }

  lemma TableCopied(m: Names, nodes: seq<Node>)
    requires Derived(m)
    ensures NodesCopied(m, ById(nodes), ById(Each(nodes, n => CopyNode(m, n))))
  {
    hide CopyNode;
    DerivedIsRenaming(m, NodeScope);
    forall n | n in nodes ensures NodeId(CopyNode(m, n)) == m.In(NodeScope)(NodeId(n)) {
      CopyId(m, n);
    }
    IndexRenamed(nodes, NodeId, m.In(NodeScope), n => CopyNode(m, n));
    assert forall id :: m.In(NodeScope)(id) == m.Node(id);
  }

  lemma CopyId(m: Names, n: Node)
    ensures CopyNode(m, n).id == m.Node(n.id)
  {
  }

  lemma {:induction false} ClimbsCopied(m: Names, a: map<Id, Node>, b: map<Id, Node>, id: Id, k: nat)
    requires NodesCopied(m, a, b) && id in a && Climbs(a, id, k)
    ensures m.Node(id) in b && Climbs(b, m.Node(id), k)
    decreases k
  {
    hide CopyConfig;
    if a[id].parent.Some? {
      ClimbsCopied(m, a, b, a[id].parent.value, k - 1);
    }
  }

  lemma ForestCopied(m: Names, nodes: seq<Node>)
    requires Derived(m) && Forest(nodes)
    ensures Forest(Each(nodes, n => CopyNode(m, n)))
  {
    var a, b := ById(nodes), ById(Each(nodes, n => CopyNode(m, n)));
    TableCopied(m, nodes);
    hide Index, CopyNode, Derived;
    forall j | j in b ensures Rooted(b, j) {
      var id :| id in a && m.Node(id) == j;
      assert Rooted(a, id);
      var k: nat :| Climbs(a, id, k);
      ClimbsCopied(m, a, b, id, k);
    }
  }

  lemma MediaCopied(m: Names, a: map<Id, Node>, b: map<Id, Node>, id: Id, kind: Kind)
    requires NodesCopied(m, a, b) && MediaNode(a, id, kind)
    ensures MediaNode(b, m.Node(id), kind) && b[m.Node(id)].ref == Some(m.Asset(a[id].ref.value))
  {
    hide CopyConfig;
  }

  lemma ClipResolvesCopied(m: Names, a: map<Id, Node>, b: map<Id, Node>, node: Id, c: Clip)
    requires NodesCopied(m, a, b) && ClipResolves(a, c)
    ensures ClipResolves(b, CopyClip(m, node, c))
  {
    if c.node.Some? {
      MediaCopied(m, a, b, c.node.value, c.kind);
    }
  }

  lemma ObjectResolvesCopied(m: Names, a: map<Id, Node>, b: map<Id, Node>, node: Id, x: Object)
    requires NodesCopied(m, a, b) && ObjectResolves(a, x)
    ensures ObjectResolves(b, CopyObject(m, node, x))
  {
    hide CopyFrames, CopyBone;
    if x.node.Some? {
      MediaCopied(m, a, b, x.node.value, if x.kind == Billboard then Image else Model);
    }
  }

  lemma RowResolvesCopied(m: Names, a: map<Id, Node>, b: map<Id, Node>, node: Id, x: Row)
    requires NodesCopied(m, a, b) && RowResolves(a, x)
    ensures RowResolves(b, CopyRow(m, node, x))
  {
    forall i | 0 <= i < |x.inputs| ensures SlotResolves(b, CopyRow(m, node, x).inputs[i]) {
      assert SlotResolves(a, x.inputs[i]);
      if x.inputs[i].Some? {
        MediaCopied(m, a, b, x.inputs[i].value, Image);
      }
    }
  }

  lemma ResolvesCopied(m: Names, a: map<Id, Node>, b: map<Id, Node>, node: Id, c: Config)
    requires NodesCopied(m, a, b) && Resolves(a, c)
    ensures Resolves(b, CopyConfig(m, node, c))
  {
    hide NodesCopied, ClipResolves, ObjectResolves, RowResolves, CopyClip, CopyObject, CopyRow, CopyCamera, CopyShot;
    var d := CopyConfig(m, node, c);
    if c.timeline.Some? {
      forall i | 0 <= i < |d.timeline.value.clips| ensures ClipResolves(b, d.timeline.value.clips[i]) {
        ClipResolvesCopied(m, a, b, node, c.timeline.value.clips[i]);
      }
    }
    if c.director.Some? {
      forall i | 0 <= i < |d.director.value.objects| ensures ObjectResolves(b, d.director.value.objects[i]) {
        ObjectResolvesCopied(m, a, b, node, c.director.value.objects[i]);
      }
    }
    if c.batch.Some? {
      forall i | 0 <= i < |d.batch.value.rows| ensures RowResolves(b, d.batch.value.rows[i]) {
        RowResolvesCopied(m, a, b, node, c.batch.value.rows[i]);
      }
    }
  }

  lemma ToolsCopied(m: Names, nodes: seq<Node>)
    requires Derived(m) && ToolsResolve(nodes)
    ensures ToolsResolve(Each(nodes, n => CopyNode(m, n)))
  {
    var copies := Each(nodes, n => CopyNode(m, n));
    TableCopied(m, nodes);
    forall i | 0 <= i < |copies| ensures Resolves(ById(copies), copies[i].config) {
      hide Resolves, NodesCopied, Index, CopyConfig, Derived;
      ResolvesCopied(m, ById(nodes), ById(copies), nodes[i].id, nodes[i].config);
    }
  }
}
