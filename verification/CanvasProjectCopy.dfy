/** CopyProjectDocument: when a frozen canvas can be copied into another project, and to what. */
module CanvasProjectCopy {
  import opened Wrappers
  import opened Ids
  import opened Rows
  import opened CanvasNodes
  import opened CanvasCommands
  import opened CanvasHeap
  import opened CanvasDraft
  import opened CanvasRuns
  import opened CanvasCopied
  import opened CanvasCopy
  import opened CanvasRebuild

  datatype Document = Document(id: Id, project: Id, name: string, emptyScope: bool, revision: int, graph: Graph)

  datatype DocumentCopy = DocumentCopy(document: Document, cleared: nat)

  datatype CopyError = InvalidCopy | UnsupportedCopy

  /** The names given to assets so far, and whether any of them was refused. */
  class AssetNames {
    const m: Names
    var used: map<Id, Id>
    var missing: bool
    ghost var asked: set<Id>

    ghost predicate Valid()
      reads this
    {
      && (missing <==> !AssetsAccepted(m.assets, asked))
      && (forall k | k in used :: used[k] in asked && m.Asset(used[k]) == k)
      && (forall x | x in asked :: m.Asset(x) in used)
    }

    constructor (m: Names)
      ensures Valid() && this.m == m && asked == {}
    {
      this.m, used, missing, asked := m, map[], false, {};
    }

    method AssetID(original: Id) returns (id: Id)
      requires Valid()
      modifies this
      ensures Valid() && asked == old(asked) + {original} && id == m.Asset(original)
    {
      var known := original in m.assets;
      id := if known then m.assets[original] else NIL;
      if !known || id == NIL || id == original || id in m.assets || (id in used && used[id] != original) {
        missing := true;
      }
      used := used[id := original];
      asked := asked + {original};
    }

    method Optional(original: Option<Id>) returns (id: Option<Id>)
      requires Valid()
      modifies this
      ensures Valid() && asked == old(asked) + (if original.Some? then {original.value} else {})
      ensures id == MapOption(x => m.Asset(x), original)
    {
      if original.None? {
        return None;
      }
      var mapped := AssetID(original.value);
      return Some(mapped);
    }
  }

  method CopyInputs(names: AssetNames, c: GenerationConfig) returns (r: GenerationConfig)
    requires names.Valid()
    modifies names
    ensures names.Valid() && names.asked == old(names.asked) + GenerationAssets(c) && r == CopyGeneration(names.m, c)
  {
    hide AssetNames.Valid;
    r := c;
    for j := 0 to |c.inputs|
      invariant names.Valid() && names.asked == old(names.asked) + set x | x in c.inputs[..j] :: x.asset
      invariant r == c.(inputs := r.inputs) && |r.inputs| == |c.inputs|
      invariant forall i :: 0 <= i < j ==> r.inputs[i] == c.inputs[i].(asset := names.m.Asset(c.inputs[i].asset))
      invariant forall i :: j <= i < |c.inputs| ==> r.inputs[i] == c.inputs[i]
    {
      assert c.inputs[..j + 1] == c.inputs[..j] + [c.inputs[j]];
      var id := names.AssetID(r.inputs[j].asset);
      r := r.(inputs := r.inputs[j := r.inputs[j].(asset := id)]);
    }
    assert c.inputs[..|c.inputs|] == c.inputs;
  }

  method CopyTable(m: Names, node: Id, c: BatchConfig) returns (r: BatchConfig)
    ensures r == CopyBatch(m, node, c)
  {
    var columns, rows := c.columns, c.rows;
    for j := 0 to |columns|
      invariant |columns| == |c.columns|
      invariant forall i :: 0 <= i < j ==> columns[i] == CopyColumn(m, node, c.columns[i])
      invariant forall i :: j <= i < |columns| ==> columns[i] == c.columns[i]
    {
      columns := columns[j := columns[j].(id := m.identity(ColumnScope(node), columns[j].id))];
    }
    for j := 0 to |rows|
      invariant |rows| == |c.rows|
      invariant forall i :: 0 <= i < j ==> rows[i] == CopyRow(m, node, c.rows[i])
      invariant forall i :: j <= i < |rows| ==> rows[i] == c.rows[i]
    {
      hide CopyColumn;
      var inputs := rows[j].inputs;
      for k := 0 to |inputs|
        invariant |inputs| == |c.rows[j].inputs|
        invariant forall i :: 0 <= i < k ==> inputs[i] == MapOption(m.In(NodeScope), c.rows[j].inputs[i])
        invariant forall i :: k <= i < |inputs| ==> inputs[i] == c.rows[j].inputs[i]
      {
        inputs := inputs[k := MapOption(m.In(NodeScope), inputs[k])];
      }
      assert inputs == Each(c.rows[j].inputs, slot => MapOption(m.In(NodeScope), slot));
      rows := rows[j := Row(m.identity(RowScope(node), rows[j].id), rows[j].enabled, rows[j].prompt, inputs)];
    }
    return c.(columns := columns, rows := rows);
  }

  method CopyClips(names: AssetNames, node: Id, clips: seq<Clip>) returns (r: seq<Clip>)
    requires names.Valid()
    modifies names
    ensures names.Valid() && names.asked == old(names.asked) + set x | x in clips && x.asset.Some? :: x.asset.value
    ensures r == Each(clips, x => CopyClip(names.m, node, x))
  {
    hide AssetNames.Valid;
    var m := names.m;
    r := clips;
    for j := 0 to |clips|
      invariant names.Valid()
      invariant names.asked == old(names.asked) + set x | x in clips[..j] && x.asset.Some? :: x.asset.value
      invariant |r| == |clips|
      invariant forall i :: 0 <= i < j ==> r[i] == CopyClip(m, node, clips[i])
      invariant forall i :: j <= i < |clips| ==> r[i] == clips[i]
    {
      assert clips[..j + 1] == clips[..j] + [clips[j]];
      var clip := r[j];
      clip := clip.(id := m.identity(ClipScope(node), clip.id), track := m.identity(TrackScope(node), clip.track));
      clip := clip.(node := MapOption(m.In(NodeScope), clip.node));
      var asset := names.Optional(clip.asset);
      r := r[j := clip.(asset := asset)];
    }
    assert clips[..|clips|] == clips;
  }

  method CopyTracks(names: AssetNames, node: Id, c: TimelineConfig) returns (r: TimelineConfig)
    requires names.Valid()
    modifies names
    ensures names.Valid() && names.asked == old(names.asked) + TimelineAssets(c) && r == CopyTimeline(names.m, node, c)
  {
    var m := names.m;
    var tracks := c.tracks;
    for j := 0 to |tracks|
      invariant |tracks| == |c.tracks|
      invariant forall i :: 0 <= i < j ==> tracks[i] == CopyTrack(m, node, c.tracks[i])
      invariant forall i :: j <= i < |tracks| ==> tracks[i] == c.tracks[i]
    {
      tracks := tracks[j := tracks[j].(id := m.identity(TrackScope(node), tracks[j].id))];
    }
    assert tracks == Each(c.tracks, x => CopyTrack(m, node, x));
    var clips := CopyClips(names, node, c.clips);
    return c.(tracks := tracks, clips := clips);
  }

  method CopyFrameList(m: Names, s: Scope, frames: seq<Frame>) returns (r: seq<Frame>)
    ensures r == CopyFrames(m, s, frames)
  {
    r := frames;
    for j := 0 to |frames|
      invariant |r| == |frames|
      invariant forall i :: 0 <= i < j ==> r[i] == frames[i].(id := m.identity(s, frames[i].id))
      invariant forall i :: j <= i < |frames| ==> r[i] == frames[i]
    {
      r := r[j := r[j].(id := m.identity(s, r[j].id))];
    }
  }

  method CopyBones(m: Names, node: Id, owner: Id, bones: seq<BoneTrack>) returns (r: seq<BoneTrack>)
    ensures r == Each(bones, b => CopyBone(m, node, owner, b))
  {
    r := bones;
    for j := 0 to |bones|
      invariant |r| == |bones|
      invariant forall i :: 0 <= i < j ==> r[i] == CopyBone(m, node, owner, bones[i])
      invariant forall i :: j <= i < |bones| ==> r[i] == bones[i]
    {
      var frames := CopyFrameList(m, BoneScope(node, owner, bones[j].bone), bones[j].frames);
      r := r[j := r[j].(frames := frames)];
    }
  }

  method CopySceneObject(names: AssetNames, node: Id, x: Object) returns (r: Object)
    requires names.Valid()
    modifies names
    ensures names.Valid() && names.asked == old(names.asked) + (if x.asset.Some? then {x.asset.value} else {})
    ensures r == CopyObject(names.m, node, x)
  {
    hide CopyBone, CopyFrames;
    var m := names.m;
    var asset := names.Optional(x.asset);
    var motions := CopyFrameList(m, MotionScope(node, x.id), x.motions);
    var frames := CopyFrameList(m, FrameScope(node, x.id), x.frames);
    var bones := CopyBones(m, node, x.id, x.bones);
    return x.(id := m.identity(ObjectScope(node), x.id), node := MapOption(m.In(NodeScope), x.node), asset := asset,
              activeMotion := MapOption(m.In(MotionScope(node, x.id)), x.activeMotion),
              motions := motions, frames := frames, bones := bones);
  }

  method CopySceneObjects(names: AssetNames, node: Id, objects: seq<Object>) returns (r: seq<Object>)
    requires names.Valid()
    modifies names
    ensures names.Valid() && names.asked == old(names.asked) + set x | x in objects && x.asset.Some? :: x.asset.value
    ensures r == Each(objects, x => CopyObject(names.m, node, x))
  {
    hide CopyObject, AssetNames.Valid;
    r := objects;
    for j := 0 to |objects|
      invariant names.Valid()
      invariant names.asked == old(names.asked) + set x | x in objects[..j] && x.asset.Some? :: x.asset.value
      invariant |r| == |objects|
      invariant forall i :: 0 <= i < j ==> r[i] == CopyObject(names.m, node, objects[i])
      invariant forall i :: j <= i < |objects| ==> r[i] == objects[i]
    {
      assert objects[..j + 1] == objects[..j] + [objects[j]];
      var x := CopySceneObject(names, node, objects[j]);
      r := r[j := x];
    }
    assert objects[..|objects|] == objects;
  }

  method CopyCameras(m: Names, node: Id, cameras: seq<Camera>) returns (r: seq<Camera>)
    ensures r == Each(cameras, x => CopyCamera(m, node, x))
  {
    hide CopyFrames;
    r := cameras;
    for j := 0 to |cameras|
      invariant |r| == |cameras|
      invariant forall i :: 0 <= i < j ==> r[i] == CopyCamera(m, node, cameras[i])
      invariant forall i :: j <= i < |cameras| ==> r[i] == cameras[i]
    {
      var x := cameras[j];
      var frames := CopyFrameList(m, CameraFrameScope(node, x.id), x.frames);
      x := x.(id := m.identity(CameraScope(node), x.id), frames := frames);
      x := x.(follow := MapOption(m.In(ObjectScope(node)), x.follow));
      x := x.(lookAt := MapOption(m.In(ObjectScope(node)), x.lookAt));
      r := r[j := x];
    }
  }

  method CopyLights(m: Names, node: Id, lights: seq<Light>) returns (r: seq<Light>)
    ensures r == Each(lights, x => CopyLight(m, node, x))
  {
    r := lights;
    for j := 0 to |lights|
      invariant |r| == |lights|
      invariant forall i :: 0 <= i < j ==> r[i] == CopyLight(m, node, lights[i])
      invariant forall i :: j <= i < |lights| ==> r[i] == lights[i]
    {
      r := r[j := r[j].(id := m.identity(LightScope(node), r[j].id))];
    }
  }

  method CopyShotOutputs(names: AssetNames, node: Id, x: Shot) returns (r: Shot)
    requires names.Valid()
    modifies names
    ensures names.Valid() && names.asked == old(names.asked) + ScreenshotAssets(x) && r == CopyShot(names.m, node, x)
  {
    hide AssetNames.Valid;
    var m := names.m;
    var s := x.screenshots;
    for j := 0 to |s|
      invariant names.Valid() && names.asked == old(names.asked) + set y | y in x.screenshots[..j] :: y.asset
      invariant |s| == |x.screenshots|
      invariant forall i :: 0 <= i < j ==> s[i] == CopyScreenshot(m, node, x.screenshots[i])
      invariant forall i :: j <= i < |s| ==> s[i] == x.screenshots[i]
    {
      assert x.screenshots[..j + 1] == x.screenshots[..j] + [x.screenshots[j]];
      var asset := names.AssetID(s[j].asset);
      s := s[j := s[j].(id := m.identity(ScreenshotScope(node), s[j].id), asset := asset)];
    }
    assert x.screenshots[..|x.screenshots|] == x.screenshots;
    assert s == Each(x.screenshots, y => CopyScreenshot(m, node, y));
    return x.(id := m.identity(ShotScope(node), x.id),
      camera := m.identity(CameraScope(node), x.camera), screenshots := s);
  }

  method CopyShots(names: AssetNames, node: Id, shots: seq<Shot>) returns (r: seq<Shot>)
    requires names.Valid()
    modifies names
    ensures names.Valid() && names.asked == old(names.asked) + set x, a | x in shots && a in ScreenshotAssets(x) :: a
    ensures r == Each(shots, x => CopyShot(names.m, node, x))
  {
    hide CopyShot, AssetNames.Valid, ScreenshotAssets;
    r := shots;
    for j := 0 to |shots|
      invariant names.Valid()
      invariant names.asked == old(names.asked) + set x, a | x in shots[..j] && a in ScreenshotAssets(x) :: a
      invariant |r| == |shots|
      invariant forall i :: 0 <= i < j ==> r[i] == CopyShot(names.m, node, shots[i])
      invariant forall i :: j <= i < |shots| ==> r[i] == shots[i]
    {
      assert shots[..j + 1] == shots[..j] + [shots[j]];
      var x := CopyShotOutputs(names, node, shots[j]);
      r := r[j := x];
    }
    assert shots[..|shots|] == shots;
  }

  method CopyScene(names: AssetNames, node: Id, c: DirectorConfig) returns (r: DirectorConfig)
    requires names.Valid()
    modifies names
    ensures names.Valid() && names.asked == old(names.asked) + DirectorAssets(c) && r == CopyDirector(names.m, node, c)
  {
    hide AssetNames.Valid, ScreenshotAssets, CopyObject, CopyCamera, CopyLight, CopyShot;
    var m := names.m;
    r := c.(id := m.identity(SceneScope(node), c.id), activeShot := m.identity(ShotScope(node), c.activeShot));
    if c.cover.Some? {
      var asset := names.AssetID(c.cover.value.asset);
      r := r.(cover := Some(Cover(asset, m.identity(ShotScope(node), c.cover.value.shot))));
    }
    var panorama := names.Optional(c.panorama);
    var objects := CopySceneObjects(names, node, c.objects);
    var cameras := CopyCameras(m, node, c.cameras);
    var lights := CopyLights(m, node, c.lights);
    var shots := CopyShots(names, node, c.shots);
    r := r.(panorama := panorama, objects := objects, cameras := cameras, lights := lights, shots := shots);
  }

  method CopyNodeConfig(names: AssetNames, node: Id, c: Config) returns (r: Config)
    requires names.Valid()
    modifies names
    ensures names.Valid() && names.asked == old(names.asked) + ConfigAssets(c) && r == CopyConfig(names.m, node, c)
  {
    hide AssetNames.Valid, GenerationAssets, TimelineAssets, DirectorAssets;
    hide CopyGeneration, CopyBatch, CopyTimeline, CopyDirector;
    r := c;
    if c.generation.Some? {
      var generation := CopyInputs(names, c.generation.value);
      r := r.(generation := Some(generation));
    }
    if c.batch.Some? {
      var batch := CopyTable(names.m, node, c.batch.value);
      r := r.(batch := Some(batch));
    }
    if c.timeline.Some? {
      var timeline := CopyTracks(names, node, c.timeline.value);
      r := r.(timeline := Some(timeline));
    }
    if c.director.Some? {
      var director := CopyScene(names, node, c.director.value);
      r := r.(director := Some(director));
    }
  }

  method CopyOneNode(names: AssetNames, n: Node) returns (r: Node)
    requires names.Valid()
    modifies names
    ensures names.Valid() && names.asked == old(names.asked) + NodeAssets(n) && r == CopyNode(names.m, n)
  {
    hide AssetNames.Valid, ConfigAssets, CopyConfig;
    var ref := names.Optional(n.ref);
    var config := CopyNodeConfig(names, n.id, n.config);
    return n.(id := names.m.Node(n.id), parent := MapOption(names.m.In(NodeScope), n.parent),
      ref := ref, config := config);
  }

  method CopyNodes(names: AssetNames, nodes: seq<Node>) returns (r: seq<Node>)
    requires names.Valid()
    modifies names
    ensures names.Valid() && names.asked == old(names.asked) + set n, x | n in nodes && x in NodeAssets(n) :: x
    ensures r == Each(nodes, n => CopyNode(names.m, n))
  {
    hide CopyNode, AssetNames.Valid, NodeAssets;
    r := nodes;
    for i := 0 to |nodes|
      invariant names.Valid() && names.asked == old(names.asked) + set n, x | n in nodes[..i] && x in NodeAssets(n) :: x
      invariant |r| == |nodes|
      invariant forall j :: 0 <= j < i ==> r[j] == CopyNode(names.m, nodes[j])
      invariant forall j :: i <= j < |nodes| ==> r[j] == nodes[j]
    {
      assert nodes[..i + 1] == nodes[..i] + [nodes[i]];
      var n := CopyOneNode(names, nodes[i]);
      r := r[i := n];
    }
    assert nodes[..|nodes|] == nodes;
  }

  method CopyEdges(m: Names, edges: seq<Edge>) returns (r: seq<Edge>)
    ensures r == Each(edges, e => CopyEdge(m, e))
  {
    r := edges;
    for i := 0 to |edges|
      invariant |r| == |edges|
      invariant forall j :: 0 <= j < i ==> r[j] == CopyEdge(m, edges[j])
      invariant forall j :: i <= j < |edges| ==> r[j] == edges[j]
    {
      r := r[i := r[i].(id := m.identity(EdgeScope, r[i].id), source := m.Node(r[i].source),
        target := m.Node(r[i].target))];
    }
  }

  // Operations are not copied.

  function Unbound(n: Node): Node {
    n.(operation := None)
  }

  function UnboundGraph(g: Graph): Graph {
    g.(nodes := Each(g.nodes, Unbound))
  }

  function BoundCount(nodes: seq<Node>): nat {
    if nodes == [] then 0
    else BoundCount(nodes[..|nodes| - 1]) + if nodes[|nodes| - 1].operation.Some? then 1 else 0
  }

  predicate AllSupported(g: Graph) {
    && (forall i :: 0 <= i < |g.nodes| ==> Editable(Unbound(g.nodes[i])))
    && (forall i :: 0 <= i < |g.edges| ==> Annotation(g.edges[i]))
  }

  lemma RebuildableSupported(g: Graph)
    requires Rebuildable(UnboundGraph(g))
    ensures AllSupported(g)
  {
    hide Editable, NodeOk, Annotation, Forest, ToolsResolve;
    forall i | 0 <= i < |g.nodes| ensures Editable(Unbound(g.nodes[i])) {
      assert UnboundGraph(g).nodes[i] == Unbound(g.nodes[i]);
    }
    forall i | 0 <= i < |g.edges| ensures Annotation(g.edges[i]) {
      assert EdgeOk(UnboundGraph(g).edges[i]);
    }
  }

  method ClearOperations(g: Graph) returns (ok: bool, r: Graph, cleared: nat)
    ensures ok == AllSupported(g)
    ensures ok ==> r == UnboundGraph(g) && cleared == BoundCount(g.nodes)
  {
    hide Editable, Annotation;
    var nodes := g.nodes;
    cleared := 0;
    for i := 0 to |nodes|
      invariant |nodes| == |g.nodes| && cleared == BoundCount(g.nodes[..i])
      invariant forall j :: 0 <= j < i ==> nodes[j] == Unbound(g.nodes[j]) && Editable(Unbound(g.nodes[j]))
      invariant forall j :: i <= j < |nodes| ==> nodes[j] == g.nodes[j]
    {
      assert g.nodes[..i + 1][..i] == g.nodes[..i];
      if nodes[i].operation.Some? {
        cleared := cleared + 1;
        nodes := nodes[i := nodes[i].(operation := None)];
      }
      assert nodes[i] == Unbound(g.nodes[i]);
      if !Editable(nodes[i]) {
        return false, g, cleared;
      }
    }
    assert g.nodes[..|g.nodes|] == g.nodes;
    r := g.(nodes := nodes);
    for i := 0 to |g.edges|
      invariant forall j :: 0 <= j < i ==> Annotation(g.edges[j])
    {
      if !Annotation(g.edges[i]) {
        return false, g, cleared;
      }
    }
    assert nodes == Each(g.nodes, Unbound);
    ok := true;
  }

  /** The commands in memory are those of the graph that the nodes in memory stand for. */
  lemma RebuildValues(g: HeapGraph)
    ensures CommandValues(RebuildCommands(g)) == RebuildCommands(GraphValue(g))
  {
    var cs: seq<HeapCommand> := RebuildCommands(g);
    var ds: seq<Command> := RebuildCommands(GraphValue(g));
    SameKinds(g);
    hide CommandValues, CommandValue, Values, AllBoxes, AllArrays, AllSlots, RebuildCommands, GraphValue;
    forall i | 0 <= i < |cs| ensures CommandValues(cs)[i] == ds[i] {
      CommandAt(cs, i);
    }
  }

  lemma SameKinds(g: HeapGraph)
    ensures var cs: seq<HeapCommand>, ds: seq<Command> := RebuildCommands(g), RebuildCommands(GraphValue(g));
            |cs| == |ds| && forall i :: 0 <= i < |cs| ==> CommandValue(cs[i]) == ds[i]
  {
    hide AllBoxes, AllArrays, AllSlots;
  }

  method ValidateCopiedGraph(g: Graph) returns (ok: bool)
    ensures ok == Rebuildable(g)
  {
    RebuildIff(g);
    var nodes := PlaceNodes(g.nodes);
    RebuildValues(Graph(g.viewport, nodes, g.edges));
    EmptyValue();
    hide Rebuildable, Applied, RebuildCommands, Values, AllBoxes, AllArrays, AllSlots, CommandValues;
    var r := Apply(EMPTY_DOCUMENT, RebuildCommands(Graph(g.viewport, nodes, g.edges)));
    ok := r.Success?;
  }

  const EMPTY_DOCUMENT: HeapGraph := Graph(EMPTY_GRAPH.viewport, [], [])

  lemma EmptyValue()
    ensures GraphValue(EMPTY_DOCUMENT) == EMPTY_GRAPH
  {
  }

  predicate RequestOk(source: Document, target: Id, job: Id) {
    && source.id != NIL && source.project != NIL && target != NIL && target != source.project && job != NIL
    && source.revision >= 1 && TitleOk(source.name)
  }

  /** The copied document: all content under new names, none of the operations. */
  function CopyOf(m: Names, source: Document, target: Id): Document {
    Document(m.identity(DocumentScope, source.id), target, source.name, source.emptyScope, 1,
             CopyGraph(m, UnboundGraph(source.graph)))
  }

  lemma AcceptedCovers(m: Names, used: set<Id>)
    requires AssetsAccepted(m.assets, used)
    ensures Covers(m, used)
  {
  }

  /**
    What a copy is, field by field: a new document at its first revision in the target project, with the copied graph
    and the number of nodes whose execution binding was cleared.
   */
  ghost predicate DocumentCopied(m: Names, source: Document, target: Id, x: DocumentCopy) {
    && x.document.id == m.identity(DocumentScope, source.id) && x.document.project == target
    && x.document.name == source.name && x.document.emptyScope == source.emptyScope && x.document.revision == 1
    && GraphCarried(m, source.graph, x.document.graph)
    && x.cleared == |Without(source.graph.nodes, (n: Node) => n.operation == None)|
  }

  lemma {:induction false} BoundCounted(nodes: seq<Node>)
    ensures BoundCount(nodes) == |Without(nodes, (n: Node) => n.operation == None)|
  {
    if nodes != [] {
      BoundCounted(nodes[..|nodes| - 1]);
    }
  }

  lemma CopyOutcome(m: Names, source: Document, target: Id)
    requires AssetsAccepted(m.assets, GraphAssets(UnboundGraph(source.graph)))
    ensures DocumentCopied(m, source, target, DocumentCopy(CopyOf(m, source, target), BoundCount(source.graph.nodes)))
  {
    var g := UnboundGraph(source.graph);
    GraphIsCarried(m, g);
    BoundCounted(source.graph.nodes);
    hide CopyGraph, ConfigCarried, GraphAssets, BoundCount, Without;
    var h := CopyGraph(m, g);
    forall i | 0 <= i < |source.graph.nodes| ensures NodeCarried(m, source.graph.nodes[i], h.nodes[i]) {
      assert NodeCarried(m, g.nodes[i], h.nodes[i]) && g.nodes[i] == source.graph.nodes[i].(operation := None);
    }
  }

  /**
    Succeeds exactly for supported and valid content with an accepted mapping of its assets. The check of the
    finished copy never fails.
   */
  method CopyProjectDocument(source: Document, target: Id, job: Id, m: Names)
    returns (r: Result<DocumentCopy, CopyError>)
    requires Derived(m)
    ensures r.Success? <==>
              && RequestOk(source, target, job) && source.emptyScope
              && Rebuildable(UnboundGraph(source.graph))
              && AssetsAccepted(m.assets, GraphAssets(UnboundGraph(source.graph)))
    ensures r.Success? ==> r.value == DocumentCopy(CopyOf(m, source, target), BoundCount(source.graph.nodes))
    ensures r.Success? ==> DocumentCopied(m, source, target, r.value) && Rebuildable(r.value.document.graph)
    ensures r == Failure(UnsupportedCopy) <==>
              RequestOk(source, target, job) && !(source.emptyScope && AllSupported(source.graph))
  {
    hide Derived, Rebuildable, AllSupported, GraphAssets, UnboundGraph, BoundCount, TitleOk, AssetsAccepted;
    hide DocumentCopied;
    if source.id == NIL || source.project == NIL || target == NIL || target == source.project || job == NIL
      || source.revision < 1 || !TitleOk(source.name)
    {
      return Failure(InvalidCopy);
    }
    if !source.emptyScope {
      return Failure(UnsupportedCopy);
    }
    var supported, g, cleared := ClearOperations(source.graph);
    if !supported {
      assert !Rebuildable(UnboundGraph(source.graph)) by {
        if Rebuildable(UnboundGraph(source.graph)) {
          RebuildableSupported(source.graph);
        }
      }
      return Failure(UnsupportedCopy);
    }
    var valid := ValidateCopiedGraph(g);
    if !valid {
      return Failure(InvalidCopy);
    }
    var copy, accepted := CopyContent(m, g);
    if !accepted {
      return Failure(InvalidCopy);
    }
    AcceptedCovers(m, GraphAssets(g));
    RebuildableCopied(m, g);
    valid := ValidateCopiedGraph(copy);
    if !valid {
      assert false;
      return Failure(InvalidCopy);
    }
    CopyOutcome(m, source, target);
    var document := Document(m.identity(DocumentScope, source.id), target, source.name, source.emptyScope, 1, copy);
    return Success(DocumentCopy(document, cleared));
  }

  method CopyContent(m: Names, g: Graph) returns (r: Graph, accepted: bool)
    ensures r == CopyGraph(m, g)
    ensures accepted == AssetsAccepted(m.assets, GraphAssets(g))
  {
    hide NodeAssets, CopyNode;
    var names := new AssetNames(m);
    var nodes := CopyNodes(names, g.nodes);
    var edges := CopyEdges(m, g.edges);
    assert names.asked == GraphAssets(g);
    return g.(nodes := nodes, edges := edges), !names.missing;
  }
}
