/**
  A copied canvas graph field by field: which identities are new and under which scope, which assets are mapped, and
  that every other field is as it was.
 */
module CanvasCopied {
  import opened Wrappers
  import opened Ids
  import opened Rows
  import opened CanvasNodes
  import opened CanvasCommands
  import opened CanvasCopy

  /** An optional reference is there exactly if the original's is, under the new name of what that names. */
  predicate NameCarried(m: Names, s: Scope, a: Option<Id>, b: Option<Id>) {
    if a.None? then b.None? else b.Some? && b.value == m.identity(s, a.value)
  }

  predicate AssetCarried(m: Names, a: Id, b: Id) {
    a in m.assets && b == m.assets[a]
  }

  predicate MediaCarried(m: Names, a: Option<Id>, b: Option<Id>) {
    if a.None? then b.None? else b.Some? && AssetCarried(m, a.value, b.value)
  }

  predicate GenerationCarried(m: Names, a: GenerationConfig, b: GenerationConfig) {
    && b.profile == a.profile && b.settings == a.settings && |b.inputs| == |a.inputs|
    && forall i :: 0 <= i < |a.inputs| ==>
         b.inputs[i].role == a.inputs[i].role && AssetCarried(m, a.inputs[i].asset, b.inputs[i].asset)
  }

  predicate RowCarried(m: Names, node: Id, a: Row, b: Row) {
    && b.id == m.identity(RowScope(node), a.id) && b.enabled == a.enabled && b.prompt == a.prompt
    && |b.inputs| == |a.inputs|
    && forall i :: 0 <= i < |a.inputs| ==> NameCarried(m, NodeScope, a.inputs[i], b.inputs[i])
  }

  predicate BatchCarried(m: Names, node: Id, a: BatchConfig, b: BatchConfig) {
    && b.profile == a.profile && b.settings == a.settings && |b.columns| == |a.columns| && |b.rows| == |a.rows|
    && (forall i :: 0 <= i < |a.columns| ==>
          && b.columns[i].id == m.identity(ColumnScope(node), a.columns[i].id)
          && b.columns[i].caption == a.columns[i].caption)
    && forall i :: 0 <= i < |a.rows| ==> RowCarried(m, node, a.rows[i], b.rows[i])
  }

  predicate TrackCarried(m: Names, node: Id, a: Track, b: Track) {
    && b.id == m.identity(TrackScope(node), a.id)
    && b.kind == a.kind && b.caption == a.caption && b.settings == a.settings
  }

  predicate ClipCarried(m: Names, node: Id, a: Clip, b: Clip) {
    && b.id == m.identity(ClipScope(node), a.id) && b.track == m.identity(TrackScope(node), a.track)
    && NameCarried(m, NodeScope, a.node, b.node) && MediaCarried(m, a.asset, b.asset)
    && b.kind == a.kind && b.title == a.title && b.start == a.start && b.duration == a.duration
    && b.sourceStart == a.sourceStart && b.sourceDuration == a.sourceDuration && b.settings == a.settings
  }

  predicate TimelineCarried(m: Names, node: Id, a: TimelineConfig, b: TimelineConfig) {
    && b.settings == a.settings && |b.tracks| == |a.tracks| && |b.clips| == |a.clips|
    && (forall i :: 0 <= i < |a.tracks| ==> TrackCarried(m, node, a.tracks[i], b.tracks[i]))
    && forall i :: 0 <= i < |a.clips| ==> ClipCarried(m, node, a.clips[i], b.clips[i])
  }

  predicate FramesCarried(m: Names, s: Scope, a: seq<Frame>, b: seq<Frame>) {
    && |b| == |a|
    && forall i :: 0 <= i < |a| ==> b[i].id == m.identity(s, a[i].id) && b[i].settings == a[i].settings
  }

  predicate BonesCarried(m: Names, node: Id, owner: Id, a: seq<BoneTrack>, b: seq<BoneTrack>) {
    && |b| == |a|
    && forall i :: 0 <= i < |a| ==>
         b[i].bone == a[i].bone && FramesCarried(m, BoneScope(node, owner, a[i].bone), a[i].frames, b[i].frames)
  }

  predicate ObjectCarried(m: Names, node: Id, a: Object, b: Object) {
    && b.id == m.identity(ObjectScope(node), a.id) && b.kind == a.kind && b.builtin == a.builtin
    && NameCarried(m, NodeScope, a.node, b.node) && MediaCarried(m, a.asset, b.asset)
    && NameCarried(m, MotionScope(node, a.id), a.activeMotion, b.activeMotion)
    && FramesCarried(m, MotionScope(node, a.id), a.motions, b.motions)
    && FramesCarried(m, FrameScope(node, a.id), a.frames, b.frames)
    && BonesCarried(m, node, a.id, a.bones, b.bones) && b.settings == a.settings
  }

  predicate CameraCarried(m: Names, node: Id, a: Camera, b: Camera) {
    && b.id == m.identity(CameraScope(node), a.id) && b.settings == a.settings
    && NameCarried(m, ObjectScope(node), a.follow, b.follow) && NameCarried(m, ObjectScope(node), a.lookAt, b.lookAt)
    && FramesCarried(m, CameraFrameScope(node, a.id), a.frames, b.frames)
  }

  predicate LightCarried(m: Names, node: Id, a: Light, b: Light) {
    b.id == m.identity(LightScope(node), a.id) && b.settings == a.settings
  }

  predicate ShotCarried(m: Names, node: Id, a: Shot, b: Shot) {
    && b.id == m.identity(ShotScope(node), a.id) && b.camera == m.identity(CameraScope(node), a.camera)
    && b.settings == a.settings && |b.screenshots| == |a.screenshots|
    && forall i :: 0 <= i < |a.screenshots| ==>
         && b.screenshots[i].id == m.identity(ScreenshotScope(node), a.screenshots[i].id)
         && AssetCarried(m, a.screenshots[i].asset, b.screenshots[i].asset)
         && b.screenshots[i].settings == a.screenshots[i].settings
  }

  predicate CoverCarried(m: Names, node: Id, a: Option<Cover>, b: Option<Cover>) {
    if a.None? then b.None?
    else
      b.Some? && AssetCarried(m, a.value.asset, b.value.asset)
        && b.value.shot == m.identity(ShotScope(node), a.value.shot)
  }

  predicate SceneCarried(m: Names, node: Id, a: DirectorConfig, b: DirectorConfig) {
    && b.id == m.identity(SceneScope(node), a.id) && b.activeShot == m.identity(ShotScope(node), a.activeShot)
    && CoverCarried(m, node, a.cover, b.cover) && MediaCarried(m, a.panorama, b.panorama) && b.settings == a.settings
    && |b.objects| == |a.objects| && |b.cameras| == |a.cameras|
    && |b.lights| == |a.lights| && |b.shots| == |a.shots|
    && (forall i :: 0 <= i < |a.objects| ==> ObjectCarried(m, node, a.objects[i], b.objects[i]))
    && (forall i :: 0 <= i < |a.cameras| ==> CameraCarried(m, node, a.cameras[i], b.cameras[i]))
    && (forall i :: 0 <= i < |a.lights| ==> LightCarried(m, node, a.lights[i], b.lights[i]))
    && forall i :: 0 <= i < |a.shots| ==> ShotCarried(m, node, a.shots[i], b.shots[i])
  }

  predicate ConfigCarried(m: Names, node: Id, a: Config, b: Config) {
    && b.text == a.text && b.collapsed == a.collapsed
    && b.batch.Some? == a.batch.Some? && (a.batch.Some? ==> BatchCarried(m, node, a.batch.value, b.batch.value))
    && b.timeline.Some? == a.timeline.Some?
    && (a.timeline.Some? ==> TimelineCarried(m, node, a.timeline.value, b.timeline.value))
    && b.director.Some? == a.director.Some?
    && (a.director.Some? ==> SceneCarried(m, node, a.director.value, b.director.value))
    && b.generation.Some? == a.generation.Some?
    && (a.generation.Some? ==> GenerationCarried(m, a.generation.value, b.generation.value))
  }

  /** A copied node; its execution binding is cleared. */
  predicate NodeCarried(m: Names, a: Node, b: Node) {
    && b.id == m.identity(NodeScope, a.id) && b.title == a.title && b.kind == a.kind && b.action == a.action
    && b.x == a.x && b.y == a.y && b.width == a.width && b.height == a.height && b.z == a.z
    && b.refType == a.refType && MediaCarried(m, a.ref, b.ref) && NameCarried(m, NodeScope, a.parent, b.parent)
    && b.operation == None && ConfigCarried(m, a.id, a.config, b.config)
  }

  predicate EdgeCarried(m: Names, a: Edge, b: Edge) {
    && b.id == m.identity(EdgeScope, a.id) && b.isAnnotation == a.isAnnotation
    && b.role == a.role && b.binding == a.binding
    && b.source == m.identity(NodeScope, a.source) && b.target == m.identity(NodeScope, a.target)
  }

  predicate GraphCarried(m: Names, g: Graph, h: Graph) {
    && h.viewport == g.viewport && |h.nodes| == |g.nodes| && |h.edges| == |g.edges|
    && (forall i :: 0 <= i < |g.nodes| ==> NodeCarried(m, g.nodes[i], h.nodes[i]))
    && forall i :: 0 <= i < |g.edges| ==> EdgeCarried(m, g.edges[i], h.edges[i])
  }

  // The copy is one.

  lemma TimelineIsCarried(m: Names, node: Id, c: TimelineConfig)
    requires TimelineAssets(c) <= m.assets.Keys
    ensures TimelineCarried(m, node, c, CopyTimeline(m, node, c))
  {
    forall i | 0 <= i < |c.clips| ensures ClipCarried(m, node, c.clips[i], CopyClip(m, node, c.clips[i])) {
      assert c.clips[i] in c.clips;
    }
  }

  lemma ObjectIsCarried(m: Names, node: Id, x: Object)
    requires x.asset.Some? ==> x.asset.value in m.assets
    ensures ObjectCarried(m, node, x, CopyObject(m, node, x))
  {
  }

  lemma ShotIsCarried(m: Names, node: Id, x: Shot)
    requires ScreenshotAssets(x) <= m.assets.Keys
    ensures ShotCarried(m, node, x, CopyShot(m, node, x))
  {
    assert forall i :: 0 <= i < |x.screenshots| ==> x.screenshots[i] in x.screenshots;
    assert forall s | s in x.screenshots :: s.asset in ScreenshotAssets(x);
  }

  lemma SceneIsCarried(m: Names, node: Id, c: DirectorConfig)
    requires DirectorAssets(c) <= m.assets.Keys
    ensures SceneCarried(m, node, c, CopyDirector(m, node, c))
  {
    hide ObjectCarried, CopyObject, ShotCarried, CopyShot;
    forall i | 0 <= i < |c.objects| ensures ObjectCarried(m, node, c.objects[i], CopyObject(m, node, c.objects[i])) {
      assert c.objects[i] in c.objects;
      ObjectIsCarried(m, node, c.objects[i]);
    }
    forall i | 0 <= i < |c.shots| ensures ShotCarried(m, node, c.shots[i], CopyShot(m, node, c.shots[i])) {
      assert c.shots[i] in c.shots;
      assert ScreenshotAssets(c.shots[i]) <= DirectorAssets(c);
      ShotIsCarried(m, node, c.shots[i]);
    }
  }

  lemma GenerationIsCarried(m: Names, c: GenerationConfig)
    requires GenerationAssets(c) <= m.assets.Keys
    ensures GenerationCarried(m, c, CopyGeneration(m, c))
  {
    assert forall i :: 0 <= i < |c.inputs| ==> c.inputs[i] in c.inputs;
  }

  lemma BatchIsCarried(m: Names, node: Id, c: BatchConfig)
    ensures BatchCarried(m, node, c, CopyBatch(m, node, c))
  {
  }

  lemma ConfigIsCarried(m: Names, node: Id, c: Config)
    requires ConfigAssets(c) <= m.assets.Keys
    ensures ConfigCarried(m, node, c, CopyConfig(m, node, c))
  {
    if c.timeline.Some? {
      TimelineIsCarried(m, node, c.timeline.value);
    }
    if c.director.Some? {
      SceneIsCarried(m, node, c.director.value);
    }
    if c.generation.Some? {
      GenerationIsCarried(m, c.generation.value);
    }
    if c.batch.Some? {
      BatchIsCarried(m, node, c.batch.value);
    }
    hide TimelineCarried, SceneCarried, GenerationCarried, BatchCarried, CopyTimeline, CopyDirector, CopyGeneration;
    hide CopyBatch;
  }

  lemma NodeIsCarried(m: Names, n: Node)
    requires NodeAssets(n) <= m.assets.Keys && n.operation == None
    ensures NodeCarried(m, n, CopyNode(m, n))
  {
    ConfigIsCarried(m, n.id, n.config);
    hide ConfigCarried, CopyConfig, ConfigAssets;
  }

  lemma GraphIsCarried(m: Names, g: Graph)
    requires GraphAssets(g) <= m.assets.Keys && forall n | n in g.nodes :: n.operation == None
    ensures GraphCarried(m, g, CopyGraph(m, g))
  {
    hide NodeCarried, CopyNode, NodeAssets;
    forall i | 0 <= i < |g.nodes| ensures NodeCarried(m, g.nodes[i], CopyNode(m, g.nodes[i])) {
      assert g.nodes[i] in g.nodes;
      assert NodeAssets(g.nodes[i]) <= GraphAssets(g);
      NodeIsCarried(m, g.nodes[i]);
    }
  }
}
