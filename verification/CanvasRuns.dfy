/** Every successful Apply keeps the graph valid and protected content meaning what it meant. */
module CanvasRuns {
  import opened Wrappers
  import opened Ids
  import opened Rows
  import opened CanvasNodes
  import opened CanvasCommands
  import opened CanvasGraph
  import opened CanvasDelete

  /** The asset a clip or a scene object plays, by its node when it has one. */
  function ResolvedAsset(nodes: map<Id, Node>, node: Option<Id>, asset: Option<Id>): Option<Id> {
    if node.Some? then RefOf(nodes, node.value) else asset
  }

  /** A reference stays as it is, unless it names a node that is gone: then it is empty. */
  predicate KeptUnless(gone: set<Id>, x: Option<Id>, y: Option<Id>) {
    if x.Some? && x.value in gone then y == None else y == x
  }

  ghost predicate SameClip(a: map<Id, Node>, c: Clip, b: map<Id, Node>, d: Clip, gone: set<Id>) {
    && d == c.(node := d.node, asset := d.asset) && KeptUnless(gone, c.node, d.node)
    && (d.node == c.node ==> d.asset == c.asset)
    && ResolvedAsset(b, d.node, d.asset) == ResolvedAsset(a, c.node, c.asset)
  }

  ghost predicate SameObject(a: map<Id, Node>, x: Object, b: map<Id, Node>, y: Object, gone: set<Id>) {
    && y == x.(node := y.node, asset := y.asset) && KeptUnless(gone, x.node, y.node)
    && (y.node == x.node ==> y.asset == x.asset)
    && ResolvedAsset(b, y.node, y.asset) == ResolvedAsset(a, x.node, x.asset)
  }

  /** Slots keep their number and order, and each its node unless that is gone. */
  ghost predicate WornRow(x: Row, y: Row, gone: set<Id>) {
    && y == x.(inputs := y.inputs) && |y.inputs| == |x.inputs|
    && forall j :: 0 <= j < |x.inputs| ==> KeptUnless(gone, x.inputs[j], y.inputs[j])
  }

  ghost predicate SameTimeline(a: map<Id, Node>, c: TimelineConfig, b: map<Id, Node>, d: TimelineConfig, gone: set<Id>)
  {
    && d == c.(clips := d.clips) && |d.clips| == |c.clips|
    && forall j :: 0 <= j < |c.clips| ==> SameClip(a, c.clips[j], b, d.clips[j], gone)
  }

  ghost predicate SameScene(a: map<Id, Node>, c: DirectorConfig, b: map<Id, Node>, d: DirectorConfig, gone: set<Id>) {
    && d == c.(objects := d.objects) && |d.objects| == |c.objects|
    && forall j :: 0 <= j < |c.objects| ==> SameObject(a, c.objects[j], b, d.objects[j], gone)
  }

  ghost predicate WornBatch(c: BatchConfig, d: BatchConfig, gone: set<Id>) {
    d == c.(rows := d.rows) && |d.rows| == |c.rows| && forall j :: 0 <= j < |c.rows| ==>
      WornRow(c.rows[j], d.rows[j], gone)
  }

  /** The same configuration, apart from references to the nodes that are gone: it still plays the same assets. */
  ghost predicate SameMedia(a: map<Id, Node>, c: Config, b: map<Id, Node>, d: Config, gone: set<Id>) {
    && d == c.(timeline := d.timeline, director := d.director, batch := d.batch)
    && c.timeline.Some? == d.timeline.Some?
    && (c.timeline.Some? ==> SameTimeline(a, c.timeline.value, b, d.timeline.value, gone))
    && c.director.Some? == d.director.Some?
    && (c.director.Some? ==> SameScene(a, c.director.value, b, d.director.value, gone))
    && c.batch.Some? == d.batch.Some? && (c.batch.Some? ==> WornBatch(c.batch.value, d.batch.value, gone))
  }

  lemma KeptTwice(x: Option<Id>, y: Option<Id>, z: Option<Id>, gone: set<Id>, more: set<Id>)
    requires KeptUnless(gone, x, y) && KeptUnless(more, y, z)
    ensures KeptUnless(gone + more, x, z)
  {
  }

  lemma SameMediaTwice(
    a: map<Id, Node>, c: Config, b: map<Id, Node>, d: Config, z: map<Id, Node>, e: Config, gone: set<Id>, more: set<Id>)
    requires SameMedia(a, c, b, d, gone) && SameMedia(b, d, z, e, more)
    ensures SameMedia(a, c, z, e, gone + more)
  {
    hide SameTimeline, SameScene, WornBatch;
    if c.timeline.Some? {
      TimelineTwice(a, c.timeline.value, b, d.timeline.value, z, e.timeline.value, gone, more);
    }
    if c.director.Some? {
      SceneTwice(a, c.director.value, b, d.director.value, z, e.director.value, gone, more);
    }
    if c.batch.Some? {
      BatchTwice(c.batch.value, d.batch.value, e.batch.value, gone, more);
    }
  }

  lemma TimelineTwice(
    a: map<Id, Node>, c: TimelineConfig, b: map<Id, Node>, d: TimelineConfig, z: map<Id, Node>, e: TimelineConfig,
    gone: set<Id>, more: set<Id>)
    requires SameTimeline(a, c, b, d, gone) && SameTimeline(b, d, z, e, more)
    ensures SameTimeline(a, c, z, e, gone + more)
  {
    forall j | 0 <= j < |c.clips| ensures SameClip(a, c.clips[j], z, e.clips[j], gone + more) {
      assert SameClip(a, c.clips[j], b, d.clips[j], gone) && SameClip(b, d.clips[j], z, e.clips[j], more);
    }
  }

  lemma SceneTwice(
    a: map<Id, Node>, c: DirectorConfig, b: map<Id, Node>, d: DirectorConfig, z: map<Id, Node>, e: DirectorConfig,
    gone: set<Id>, more: set<Id>)
    requires SameScene(a, c, b, d, gone) && SameScene(b, d, z, e, more)
    ensures SameScene(a, c, z, e, gone + more)
  {
    forall j | 0 <= j < |c.objects| ensures SameObject(a, c.objects[j], z, e.objects[j], gone + more) {
      assert SameObject(a, c.objects[j], b, d.objects[j], gone) && SameObject(b, d.objects[j], z, e.objects[j], more);
    }
  }

  lemma BatchTwice(c: BatchConfig, d: BatchConfig, e: BatchConfig, gone: set<Id>, more: set<Id>)
    requires WornBatch(c, d, gone) && WornBatch(d, e, more)
    ensures WornBatch(c, e, gone + more)
  {
    forall j | 0 <= j < |c.rows| ensures WornRow(c.rows[j], e.rows[j], gone + more) {
      RowTwice(c.rows[j], d.rows[j], e.rows[j], gone, more);
    }
  }

  lemma RowTwice(x: Row, y: Row, z: Row, gone: set<Id>, more: set<Id>)
    requires WornRow(x, y, gone) && WornRow(y, z, more)
    ensures WornRow(x, z, gone + more)
  {
    forall j | 0 <= j < |x.inputs| ensures KeptUnless(gone + more, x.inputs[j], z.inputs[j]) {
      KeptTwice(x.inputs[j], y.inputs[j], z.inputs[j], gone, more);
    }
  }

  /** Unchanged references resolve to the same assets when no node goes away. */
  lemma SameMediaGrows(a: map<Id, Node>, b: map<Id, Node>, c: Config)
    requires Grows(a, b) && Resolves(a, c)
    ensures SameMedia(a, c, b, c, {})
  {
    hide Editable;
    if c.timeline.Some? {
      forall j | 0 <= j < |c.timeline.value.clips|
        ensures SameClip(a, c.timeline.value.clips[j], b, c.timeline.value.clips[j], {})
      {
        assert ClipResolves(a, c.timeline.value.clips[j]);
      }
    }
    if c.director.Some? {
      forall j | 0 <= j < |c.director.value.objects|
        ensures SameObject(a, c.director.value.objects[j], b, c.director.value.objects[j], {})
      {
        assert ObjectResolves(a, c.director.value.objects[j]);
      }
    }
  }

  lemma ClipMeansSame(a: map<Id, Node>, removed: set<Id>, b: map<Id, Node>, c: Clip)
    requires LeftOver(a, removed, b) && ClipResolves(a, c)
    ensures SameClip(a, c, b, ClearClip(a, removed, c), removed)
  {
    if c.node.Some? && c.node.value !in removed {
      MediaLeft(a, removed, b, c.node.value, c.kind);
    }
  }

  lemma ObjectMeansSame(a: map<Id, Node>, removed: set<Id>, b: map<Id, Node>, x: Object)
    requires LeftOver(a, removed, b) && ObjectResolves(a, x)
    ensures SameObject(a, x, b, ClearObject(a, removed, x), removed)
  {
    if x.node.Some? && x.node.value !in removed {
      MediaLeft(a, removed, b, x.node.value, if x.kind == Billboard then Image else Model);
    }
  }

  /** What a deletion makes of one configuration: it plays the assets it played before. */
  lemma DeletionKeepsMeaning(a: map<Id, Node>, removed: set<Id>, b: map<Id, Node>, c: Config)
    requires LeftOver(a, removed, b) && Resolves(a, c)
    ensures SameMedia(a, c, b, Cleared(a, removed, c), removed)
  {
    var d := Cleared(a, removed, c);
    hide LeftOver, SameClip, SameObject;
    if c.timeline.Some? {
      forall j | 0 <= j < |c.timeline.value.clips|
        ensures SameClip(a, c.timeline.value.clips[j], b, d.timeline.value.clips[j], removed)
      {
        ClipMeansSame(a, removed, b, c.timeline.value.clips[j]);
      }
    }
    if c.director.Some? {
      forall j | 0 <= j < |c.director.value.objects|
        ensures SameObject(a, c.director.value.objects[j], b, d.director.value.objects[j], removed)
      {
        ObjectMeansSame(a, removed, b, c.director.value.objects[j]);
      }
    }
  }

  // Protected content.

  ghost predicate NodeKept(a: map<Id, Node>, b: map<Id, Node>, n: Node, gone: set<Id>) {
    && n.id in b
    && b[n.id].(config := n.config) == n
    && SameMedia(a, n.config, b, b[n.id].config, gone)
  }

  ghost predicate NodesKeptIn(g: Graph, h: Graph, gone: set<Id>) {
    forall n | n in g.nodes && !Editable(n) :: NodeKept(ById(g.nodes), ById(h.nodes), n, gone)
  }

  ghost predicate EdgesKeptIn(g: Graph, h: Graph) {
    forall e | e in g.edges && !Annotation(e) :: e in h.edges
  }

  /** Protected nodes keep everything but references to the nodes that are gone; business edges stay as they are. */
  ghost predicate ProtectedKept(g: Graph, h: Graph, gone: set<Id>) {
    NodesKeptIn(g, h, gone) && EdgesKeptIn(g, h)
  }

  lemma ProtectedKeptTwice(g: Graph, h: Graph, k: Graph, gone: set<Id>, more: set<Id>)
    requires NoDup(Keys(h.nodes, NodeId)) && ProtectedKept(g, h, gone) && ProtectedKept(h, k, more)
    ensures ProtectedKept(g, k, gone + more)
  {
    hide SameMedia, Index, Editable;
    forall n | n in g.nodes && !Editable(n) ensures NodeKept(ById(g.nodes), ById(k.nodes), n, gone + more) {
      var m := ById(h.nodes)[n.id];
      assert NodeKept(ById(g.nodes), ById(h.nodes), n, gone);
      assert m in h.nodes && m.id == n.id by {
        IndexHolds(h.nodes, NodeId);
      }
      SameEditable(n, m);
      SameMediaTwice(ById(g.nodes), n.config, ById(h.nodes), m.config, ById(k.nodes),
        ById(k.nodes)[n.id].config, gone, more);
    }
  }

  lemma SameEditable(n: Node, m: Node)
    requires m.(config := n.config) == n
    ensures Editable(m) == Editable(n)
  {
  }

  lemma GrownNodesKept(g: Graph, h: Graph)
    requires GraphOk(g) && Grows(ById(g.nodes), ById(h.nodes))
    ensures NodesKeptIn(g, h, {})
  {
    hide Editable, NodeOk, Forest, SameMedia;
    IndexHolds(g.nodes, NodeId);
    forall n | n in g.nodes && !Editable(n) ensures NodeKept(ById(g.nodes), ById(h.nodes), n, {}) {
      var i :| 0 <= i < |g.nodes| && g.nodes[i] == n;
      SameMediaGrows(ById(g.nodes), ById(h.nodes), n.config);
    }
  }

  lemma GrownEdgesLive(g: Graph, nodes: seq<Node>)
    requires EdgesOk(ById(g.nodes), g.edges) && Grows(ById(g.nodes), ById(nodes))
    ensures EdgesOk(ById(nodes), g.edges)
  {
    hide Editable;
  }

  /** A command that only adds or changes nodes. */
  lemma NodeCommandKeeps(g: Graph, nodes: seq<Node>)
    requires GraphOk(g) && NodesKept(g.nodes, nodes)
    ensures WellFormed(g.(nodes := nodes)) && ProtectedKept(g, g.(nodes := nodes), {})
  {
    GrownNodesKept(g, g.(nodes := nodes));
    GrownEdgesLive(g, nodes);
    hide Editable, NodeOk, Forest, Grows, NodesKeptIn;
  }

  lemma SameNodesKept(g: Graph, h: Graph)
    requires GraphOk(g) && h.nodes == g.nodes
    ensures NodesKeptIn(g, h, {})
  {
    assert Grows(ById(g.nodes), ById(h.nodes));
    GrownNodesKept(g, h);
  }

  lemma DeletedNodesKept(g: Graph, removed: set<Id>)
    requires GraphOk(g) && OnlyEditable(ById(g.nodes), removed)
    requires forall n | n in g.nodes :: !Orphaned(n, removed)
    ensures NodesKeptIn(g, Removed(g, removed), removed)
  {
    var a, b := ById(g.nodes), ById(Removed(g, removed).nodes);
    RemovedIndex(g, removed);
    IndexHolds(g.nodes, NodeId);
    hide Removed, NodeOk, Forest, SameMedia, Index, Editable, Cleared, Resolves;
    forall n | n in g.nodes && !Editable(n) ensures NodeKept(a, b, n, removed) {
      var i :| 0 <= i < |g.nodes| && g.nodes[i] == n;
      DeletionKeepsMeaning(a, removed, b, n.config);
      assert !Orphaned(n, removed);
    }
  }

  lemma DeleteCommandKeeps(g: Graph, ids: seq<Id>)
    requires GraphOk(g) && Deleted(g, ids).Success?
    ensures GraphOk(Deleted(g, ids).value) && ProtectedKept(g, Deleted(g, ids).value, Elements(ids))
  {
    var removed := Elements(ids);
    DeletedIff(g, ids);
    assert forall n | n in g.nodes :: !Orphaned(n, removed) by {
      hide Editable;
    }
    hide OnlyEditable, Editable, Removed;
    DeletedNodesKept(g, removed);
    EdgesLeft(g, removed);
    RemovedGraphOk(g, removed);
  }

  lemma EdgeCommandKeeps(g: Graph, edges: seq<Edge>)
    requires GraphOk(g) && EdgesOk(ById(g.nodes), edges)
    requires forall e | e in g.edges && !Annotation(e) :: e in edges
    ensures WellFormed(g.(edges := edges)) && ProtectedKept(g, g.(edges := edges), {})
  {
    SameNodesKept(g, g.(edges := edges));
    hide NodesKeptIn, NodeOk, Editable;
  }

  lemma ViewportKeeps(g: Graph, v: Viewport)
    requires GraphOk(g)
    ensures WellFormed(g.(viewport := v)) && ProtectedKept(g, g.(viewport := v), {})
  {
    SameNodesKept(g, g.(viewport := v));
    hide NodesKeptIn, NodeOk, Editable;
  }

  /** The nodes that a command deletes. */
  function DeletedBy(c: Command): set<Id> {
    if c.DeleteNodes? then Elements(c.ids) else {}
  }

  function DeletedIn(cs: seq<Command>): set<Id> {
    if cs == [] then {} else DeletedBy(cs[0]) + DeletedIn(cs[1..])
  }

  /** One command of any kind. */
  lemma StepKeeps(g: Graph, c: Command)
    requires GraphOk(g) && After(g, c).Success?
    ensures WellFormed(After(g, c).value) && ProtectedKept(g, After(g, c).value, DeletedBy(c))
  {
    hide Forest, ToolsResolve, NodesKeptIn, EdgesKeptIn, NodesKept, NodeOk, Editable, Deleted;
    hide AddRows, EditRows, Updated, ConnectRows, CutRows;
    match c {
      case AddNodes(rows) =>
        AddRowsKeep(g.nodes, rows);
        NodeCommandKeeps(g, After(g, c).value.nodes);
      case EditNodes(rows) =>
        EditRowsKeep(g.nodes, rows, {});
        NodeCommandKeeps(g, After(g, c).value.nodes);
      case UpdateConfig(id, config) =>
        UpdateKeeps(g.nodes, id, config);
        NodeCommandKeeps(g, After(g, c).value.nodes);
      case DeleteNodes(ids) =>
        DeleteCommandKeeps(g, ids);
      case Connect(rows) =>
        ConnectRowsKeep(g.nodes, g.edges, rows);
        EdgeCommandKeeps(g, After(g, c).value.edges);
      case Disconnect(ids) =>
        CutKeeps(ById(g.nodes), g.edges, ids);
        EdgeCommandKeeps(g, After(g, c).value.edges);
      case SetViewport(v) =>
        ViewportKeeps(g, v);
      case Malformed => assert false;
      case Unknown => assert false;
    }
  }

  lemma {:induction false} StepsKeep(g: Graph, cs: seq<Command>, index: nat)
    requires GraphOk(g) && AfterAll(g, cs, index).Success?
    ensures GraphOk(AfterAll(g, cs, index).value) && ProtectedKept(g, AfterAll(g, cs, index).value, DeletedIn(cs))
    decreases |cs|
  {
    hide After, WellFormed, Sound, ProtectedKept;
    if cs == [] {
      assert ProtectedKept(g, g, {}) by {
        SameKept(g);
      }
    } else {
      var h := After(g, cs[0]).value;
      StepKeeps(g, cs[0]);
      StepsKeep(h, cs[1..], index + 1);
      assert NoDup(Keys(h.nodes, NodeId)) by {
        DistinctNodes(h);
      }
      ProtectedKeptTwice(g, h, AfterAll(g, cs, index).value, DeletedBy(cs[0]), DeletedIn(cs[1..]));
    }
  }

  lemma SameKept(g: Graph)
    requires GraphOk(g)
    ensures ProtectedKept(g, g, {})
  {
    SameNodesKept(g, g);
    hide NodesKeptIn;
  }

  lemma DistinctNodes(g: Graph)
    requires WellFormed(g)
    ensures NoDup(Keys(g.nodes, NodeId))
  {
  }

  /** Apply, over every list of commands: the graph invariant holds again and protected content is kept. */
  lemma ApplyKeeps(g: Graph, cs: seq<Command>)
    requires GraphOk(g) && Applied(g, cs).Success?
    ensures GraphOk(Applied(g, cs).value) && ProtectedKept(g, Applied(g, cs).value, DeletedIn(cs))
  {
    hide AfterAll, GraphOk, ProtectedKept;
    StepsKeep(g, cs, 0);
  }

  // What a deletion leaves of the nodes that stay.

  /** Everything stays but references to nodes that are gone, and every reference that played an asset still does. */
  ghost predicate Survives(a: map<Id, Node>, b: map<Id, Node>, n: Node, gone: set<Id>) {
    && n.id in b && b[n.id].(config := n.config, parent := n.parent) == n
    && KeptUnless(gone, n.parent, b[n.id].parent)
    && SameMedia(a, n.config, b, b[n.id].config, gone)
  }

  lemma SurvivorsIn(g: Graph, removed: set<Id>)
    requires GraphOk(g)
    ensures var h := Removed(g, removed);
            && (forall n | n in g.nodes && n.id !in removed :: Survives(ById(g.nodes), ById(h.nodes), n, removed))
            && (forall id | id in ById(h.nodes) :: id in ById(g.nodes) && id !in removed)
            && (forall e :: e in h.edges <==> e in g.edges && !Touches(e, removed))
  {
    var a, b := ById(g.nodes), ById(Removed(g, removed).nodes);
    RemovedIndex(g, removed);
    IndexHolds(g.nodes, NodeId);
    hide NodeOk, Forest, SameMedia, Index, Editable, Cleared, Resolves;
    forall n | n in g.nodes && n.id !in removed ensures Survives(a, b, n, removed) {
      var i :| 0 <= i < |g.nodes| && g.nodes[i] == n;
      DeletionKeepsMeaning(a, removed, b, n.config);
    }
  }

  /**
    A deletion preserves meaning: every node that is not deleted stays, editable or not, with every slot, clip and
    object; a reference becomes empty exactly if it names a deleted node, and what played an asset still plays it.
   */
  lemma DeletionKeepsSurvivors(g: Graph, ids: seq<Id>)
    requires GraphOk(g) && Applied(g, [DeleteNodes(ids)]).Success?
    ensures var h := Applied(g, [DeleteNodes(ids)]).value;
            && (forall n | n in g.nodes && n.id !in ids :: Survives(ById(g.nodes), ById(h.nodes), n, Elements(ids)))
            && (forall id | id in ById(h.nodes) :: id in ById(g.nodes) && id !in ids)
            && (forall e :: e in h.edges <==> e in g.edges && !Touches(e, Elements(ids)))
  {
    DeletionNeverRejected(g, ids);
    SurvivorsIn(g, Elements(ids));
    hide Applied, Survives, DeleteAllowed, Removed, GraphOk;
  }

  const EMPTY_GRAPH: Graph := Graph(Viewport(0.0, 0.0, 0.0), [], [])
}
