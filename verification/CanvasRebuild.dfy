/** Rebuilding a graph from nothing with one command per kind, as a check of frozen content. */
module CanvasRebuild {
  import opened Wrappers
  import opened Ids
  import opened Rows
  import opened CanvasNodes
  import opened CanvasCommands
  import opened CanvasGraph
  import opened CanvasDelete
  import opened CanvasRuns
  import opened CanvasUndo
  import opened CanvasCopy

  function RebuildCommands<N, C>(g: GraphOf<N>): seq<CommandOf<N, C>> {
    [SetViewport(g.viewport)]
    + (if |g.nodes| == 0 then [] else [AddNodes(g.nodes)])
    + (if g.edges == [] then [] else [Connect(g.edges)])
  }

  ghost predicate NodesAddable(nodes: seq<Node>) {
    Distinct(Keys(nodes, NodeId)) && forall i :: 0 <= i < |nodes| ==> Editable(nodes[i]) && NodeOk(nodes[i])
  }

  predicate EdgeOk(e: Edge) {
    Annotation(e) && e.source != e.target
  }

  ghost predicate EdgesJoinable(nodes: seq<Node>, edges: seq<Edge>) {
    && Distinct(Keys(edges, EdgeId))
    && forall i :: 0 <= i < |edges| ==> EdgeOk(edges[i]) && Live(ById(nodes), edges[i])
  }

  /** A graph of user content only. One command adds all edges, so there are at most as many as a batch holds. */
  ghost predicate Rebuildable(g: Graph) {
    && ViewportOk(g.viewport)
    && |g.nodes| <= MAX_NODES && |g.edges| <= MAX_BATCH
    && NodesAddable(g.nodes) && EdgesJoinable(g.nodes, g.edges)
    && Forest(g.nodes) && ToolsResolve(g.nodes)
  }

  lemma NextAddable(before: seq<Node>, n: Node)
    requires NodesAddable(before)
    ensures Refused(before, n).None? <==> NodesAddable(before + [n])
  {
    hide Editable, NodeOk;
    var all := before + [n];
    assert Keys(all, NodeId) == Keys(before, NodeId) + [n.id];
    NoDupParts(Keys(before, NodeId), [n.id]);
    assert all[|before|] == n;
    NotYetAt(before, NodeId, n.id);
    if Refused(before, n).None? {
      assert forall i :: 0 <= i < |before| ==> all[i] == before[i];
    }
  }

  lemma AddablePrefix(s: seq<Node>, t: seq<Node>)
    requires NodesAddable(s + t)
    ensures NodesAddable(s)
  {
    hide Editable, NodeOk;
    var all := s + t;
    assert Keys(all, NodeId) == Keys(s, NodeId) + Keys(t, NodeId);
    NoDupParts(Keys(s, NodeId), Keys(t, NodeId));
    assert forall i :: 0 <= i < |s| ==> all[i] == s[i];
  }

  lemma {:induction false} AddRowsIff(before: seq<Node>, rows: seq<Node>)
    requires NodesAddable(before)
    ensures AddRows(before, rows).Success? <==> NodesAddable(before + rows)
    ensures AddRows(before, rows).Success? ==> AddRows(before, rows).value == before + rows
    decreases |rows|
  {
    hide NodesAddable, Refused;
    if rows == [] {
      assert before + rows == before;
    } else {
      var more := before + [rows[0]];
      assert more + rows[1..] == before + rows;
      NextAddable(before, rows[0]);
      if Refused(before, rows[0]).None? {
        AddRowsIff(more, rows[1..]);
      } else if NodesAddable(before + rows) {
        AddablePrefix(more, rows[1..]);
        assert false;
      }
    }
  }

  lemma NodeAt(nodes: seq<Node>, id: Id)
    requires NodesAddable(nodes)
    ensures At(nodes, NodeId, id).Some? <==> id in ById(nodes)
    ensures At(nodes, NodeId, id).Some? ==> Editable(nodes[At(nodes, NodeId, id).value])
  {
    hide Editable, NodeOk;
    IndexHolds(nodes, NodeId);
    if At(nodes, NodeId, id).Some? {
      assert nodes[At(nodes, NodeId, id).value] in nodes;
    }
  }

  lemma NextJoinable(nodes: seq<Node>, before: seq<Edge>, e: Edge)
    requires NodesAddable(nodes) && EdgesJoinable(nodes, before)
    ensures NotJoined(nodes, before, e).None? <==> EdgesJoinable(nodes, before + [e])
  {
    NodeAt(nodes, e.source);
    NodeAt(nodes, e.target);
    hide Editable, NodeOk, Index, NodesAddable;
    var all := before + [e];
    assert Keys(all, EdgeId) == Keys(before, EdgeId) + [e.id];
    NoDupParts(Keys(before, EdgeId), [e.id]);
    assert all[|before|] == e;
    NotYetAt(before, EdgeId, e.id);
    if NotJoined(nodes, before, e).None? {
      assert forall i :: 0 <= i < |before| ==> all[i] == before[i];
    }
  }

  lemma JoinablePrefix(nodes: seq<Node>, s: seq<Edge>, t: seq<Edge>)
    requires EdgesJoinable(nodes, s + t)
    ensures EdgesJoinable(nodes, s)
  {
    var all := s + t;
    assert Keys(all, EdgeId) == Keys(s, EdgeId) + Keys(t, EdgeId);
    NoDupParts(Keys(s, EdgeId), Keys(t, EdgeId));
    assert forall i :: 0 <= i < |s| ==> all[i] == s[i];
  }

  lemma {:induction false} ConnectRowsIff(nodes: seq<Node>, before: seq<Edge>, rows: seq<Edge>)
    requires NodesAddable(nodes) && EdgesJoinable(nodes, before)
    ensures ConnectRows(nodes, before, rows).Success? <==> EdgesJoinable(nodes, before + rows)
    ensures ConnectRows(nodes, before, rows).Success? ==> ConnectRows(nodes, before, rows).value == before + rows
    decreases |rows|
  {
    hide EdgesJoinable, NotJoined, NodesAddable;
    if rows == [] {
      assert before + rows == before;
    } else {
      var more := before + [rows[0]];
      assert more + rows[1..] == before + rows;
      NextJoinable(nodes, before, rows[0]);
      if NotJoined(nodes, before, rows[0]).None? {
        ConnectRowsIff(nodes, more, rows[1..]);
      } else if EdgesJoinable(nodes, before + rows) {
        JoinablePrefix(nodes, more, rows[1..]);
        assert false;
      }
    }
  }

  // One command after the other.

  lemma Stepwise(g: Graph, c: Command, rest: seq<Command>, index: nat)
    ensures AfterAll(g, [c] + rest, index).Success? <==>
              && After(g, c).Success? && Sound(After(g, c).value)
              && AfterAll(After(g, c).value, rest, index + 1).Success?
    ensures AfterAll(g, [c] + rest, index).Success? ==>
              AfterAll(g, [c] + rest, index) == AfterAll(After(g, c).value, rest, index + 1)
  {
    hide After, Sound;
    assert ([c] + rest)[1..] == rest;
  }

  lemma EmptySound(v: Viewport)
    ensures Sound(Graph(v, [], []))
    ensures NodesAddable([]) && EdgesJoinable([], [])
  {
    var nodes: seq<Node> := [];
    assert Index(nodes, NodeId) == map[];
  }

  lemma AfterAdd(g: Graph, rows: seq<Node>)
    ensures After(g, AddNodes(rows)).Success? <==> BatchSize(|rows|) && AddRows(g.nodes, rows).Success?
    ensures After(g, AddNodes(rows)).Success? ==>
              After(g, AddNodes(rows)).value == g.(nodes := AddRows(g.nodes, rows).value)
  {
    hide AddRows;
  }

  lemma AfterConnect(g: Graph, rows: seq<Edge>)
    ensures After(g, Connect(rows)).Success? <==> BatchSize(|rows|) && ConnectRows(g.nodes, g.edges, rows).Success?
    ensures After(g, Connect(rows)).Success? ==>
              After(g, Connect(rows)).value == g.(edges := ConnectRows(g.nodes, g.edges, rows).value)
  {
    hide ConnectRows;
  }

  /** Adding all nodes to an empty canvas. */
  lemma NodesStep(v: Viewport, nodes: seq<Node>)
    requires nodes != []
    ensures var g := After(Graph(v, [], []), AddNodes(nodes));
            && (g.Success? && Sound(g.value) <==>
                  |nodes| <= MAX_NODES && NodesAddable(nodes) && Forest(nodes) && ToolsResolve(nodes))
            && (g.Success? ==> g.value == Graph(v, nodes, []))
  {
    EmptySound(v);
    AfterAdd(Graph(v, [], []), nodes);
    hide NodesAddable, Forest, ToolsResolve, AddRows, After;
    AddRowsIff([], nodes);
    assert [] + nodes == nodes;
  }

  lemma NoEdgesJoinable(nodes: seq<Node>)
    ensures EdgesJoinable(nodes, [])
  {
  }

  lemma EdgesSound(v: Viewport, nodes: seq<Node>, edges: seq<Edge>)
    requires Sound(Graph(v, nodes, []))
    ensures Sound(Graph(v, nodes, edges)) <==> |edges| <= MAX_EDGES
  {
    hide Forest, ToolsResolve;
  }

  /** Joining all edges to a canvas without edges. */
  lemma EdgesStep(v: Viewport, nodes: seq<Node>, edges: seq<Edge>)
    requires edges != [] && Sound(Graph(v, nodes, [])) && NodesAddable(nodes)
    ensures var g := After(Graph(v, nodes, []), Connect(edges));
            && (g.Success? && Sound(g.value) <==> |edges| <= MAX_BATCH && EdgesJoinable(nodes, edges))
            && (g.Success? ==> g.value == Graph(v, nodes, edges))
  {
    NoEdgesJoinable(nodes);
    EdgesSound(v, nodes, edges);
    AfterConnect(Graph(v, nodes, []), edges);
    hide NodesAddable, Sound, EdgesJoinable, ConnectRows, After;
    ConnectRowsIff(nodes, [], edges);
    assert [] + edges == edges;
  }

  function EdgesPart(g: Graph): seq<Command> {
    if g.edges == [] then [] else [Connect(g.edges)]
  }

  lemma RebuildEdges(g: Graph, index: nat)
    requires Sound(g.(edges := [])) && NodesAddable(g.nodes)
    ensures AfterAll(g.(edges := []), EdgesPart(g), index).Success? <==>
              |g.edges| <= MAX_BATCH && EdgesJoinable(g.nodes, g.edges)
    ensures AfterAll(g.(edges := []), EdgesPart(g), index).Success? ==>
              AfterAll(g.(edges := []), EdgesPart(g), index) == Success(g)
  {
    if g.edges == [] {
      assert EdgesJoinable(g.nodes, g.edges);
      assert g.(edges := []) == g;
    } else {
      EdgesStep(g.viewport, g.nodes, g.edges);
      Stepwise(g.(edges := []), Connect(g.edges), [], index);
      var last: Command := Connect(g.edges);
      assert [last] + [] == [last];
      hide After, Sound, EdgesJoinable, NodesAddable;
    }
  }

  lemma RebuildNodes(g: Graph)
    ensures var start := Graph(g.viewport, [], []);
            var rest := AfterViewport(g);
            && (AfterAll(start, rest, 1).Success? <==>
                  && |g.nodes| <= MAX_NODES && |g.edges| <= MAX_BATCH
                  && NodesAddable(g.nodes) && EdgesJoinable(g.nodes, g.edges)
                  && Forest(g.nodes) && ToolsResolve(g.nodes))
            && (AfterAll(start, rest, 1).Success? ==> AfterAll(start, rest, 1) == Success(g))
  {
    var start := Graph(g.viewport, [], []);
    EmptySound(g.viewport);
    if g.nodes == [] {
      assert g.(edges := []) == start;
      assert [] + EdgesPart(g) == EdgesPart(g);
      RebuildEdges(g, 1);
      hide AfterAll, NodesAddable, EdgesJoinable;
    } else {
      NodesStep(g.viewport, g.nodes);
      Stepwise(start, AddNodes(g.nodes), EdgesPart(g), 1);
      hide After, NodesAddable, EdgesJoinable, Forest, ToolsResolve, AfterAll;
      if Sound(g.(edges := [])) && NodesAddable(g.nodes) {
        RebuildEdges(g, 2);
      }
    }
  }

  /** A rebuilt graph is the graph itself, and rebuilding works exactly for graphs of user content. */
  lemma RebuildIff(g: Graph)
    ensures Applied(EMPTY_GRAPH, RebuildCommands(g)).Success? <==> Rebuildable(g)
    ensures Applied(EMPTY_GRAPH, RebuildCommands(g)).Success? ==> Applied(EMPTY_GRAPH, RebuildCommands(g)) == Success(g)
  {
    CommandsSplit(g);
    EmptySound(g.viewport);
    Stepwise(EMPTY_GRAPH, SetViewport(g.viewport), AfterViewport(g), 0);
    RebuildNodes(g);
    hide AfterAll, Sound, NodesAddable, EdgesJoinable, Forest, ToolsResolve, RebuildCommands, AfterViewport;
  }

  function AfterViewport(g: Graph): seq<Command> {
    (if g.nodes == [] then [] else [AddNodes(g.nodes)]) + EdgesPart(g)
  }

  lemma CommandsSplit(g: Graph)
    ensures RebuildCommands(g) == [SetViewport(g.viewport)] + AfterViewport(g)
    ensures 1 <= |RebuildCommands<Node, Config>(g)| <= MAX_COMMANDS
  {
  }

  // Graphs of user content: which of them can be copied, and that all of them can be drawn.

  /** A valid graph in which everything is the user's own. */
  ghost predicate UserGraph(g: Graph) {
    GraphOk(g) && (forall n | n in g.nodes :: Editable(n)) && (forall e | e in g.edges :: EdgeOk(e))
  }

  lemma UserContent(g: Graph)
    requires UserGraph(g)
    ensures NodesAddable(g.nodes) && EdgesJoinable(g.nodes, g.edges)
    ensures |g.nodes| <= MAX_NODES && |g.edges| <= MAX_EDGES && Forest(g.nodes) && ToolsResolve(g.nodes)
  {
    hide Editable, NodeOk, Forest, ToolsResolve, EdgeOk, Live;
    assert forall i :: 0 <= i < |g.nodes| ==> g.nodes[i] in g.nodes;
    assert forall i :: 0 <= i < |g.edges| ==> g.edges[i] in g.edges;
  }

  /**
    A graph of user content can be copied exactly if one command may add all its edges, and its viewport is in range.
   */
  lemma UserGraphCopied(g: Graph)
    requires UserGraph(g)
    ensures Rebuildable(g) <==> |g.edges| <= MAX_BATCH && ViewportOk(g.viewport)
  {
    UserContent(g);
    hide UserGraph, NodesAddable, EdgesJoinable, Forest, ToolsResolve;
  }

  /** Commands that draw a graph: its edges in two parts, since one command adds at most 2000. */
  function DrawCommands(g: Graph): seq<Command> {
    if |g.edges| <= MAX_BATCH then RebuildCommands(g)
    else RebuildCommands(g.(edges := g.edges[..MAX_BATCH])) + [Connect(g.edges[MAX_BATCH..])]
  }

  /** Every graph of user content with a viewport in range is the result of an Apply on an empty canvas. */
  lemma UserGraphDrawn(g: Graph)
    requires UserGraph(g) && ViewportOk(g.viewport)
    ensures Applied(EMPTY_GRAPH, DrawCommands(g)) == Success(g)
  {
    UserContent(g);
    UserGraphCopied(g);
    if |g.edges| <= MAX_BATCH {
      RebuildIff(g);
    } else {
      hide UserGraph;
      var half, rest := g.(edges := g.edges[..MAX_BATCH]), g.edges[MAX_BATCH..];
      assert g.edges[..MAX_BATCH] + rest == g.edges;
      JoinablePrefix(g.nodes, g.edges[..MAX_BATCH], rest);
      RebuildIff(half);
      RestConnected(g, rest, |RebuildCommands<Node, Config>(half)|);
      hide AfterAll, NodesAddable, EdgesJoinable, Forest, ToolsResolve;
      ApplyInTwo(EMPTY_GRAPH, RebuildCommands(half), [Connect(rest)], 0);
    }
  }

  lemma RestConnected(g: Graph, rest: seq<Edge>, index: nat)
    requires NodesAddable(g.nodes) && EdgesJoinable(g.nodes, g.edges) && Sound(g)
    requires |g.edges| > MAX_BATCH && rest == g.edges[MAX_BATCH..]
    ensures AfterAll(g.(edges := g.edges[..MAX_BATCH]), [Connect(rest)], index) == Success(g)
  {
    var half := g.(edges := g.edges[..MAX_BATCH]);
    assert half.edges + rest == g.edges;
    JoinablePrefix(g.nodes, half.edges, rest);
    ConnectRowsIff(g.nodes, half.edges, rest);
    AfterConnect(half, rest);
    hide After, Sound, NodesAddable, EdgesJoinable, ConnectRows;
    var last: Command := Connect(rest);
    assert [last][1..] == [];
  }

  // Apply keeps up to 4000 edges, one Connect command adds at most 2000.

  const SMALL_NODE := Node(1, "a", Text, Resource, Config(Some(""), None, None, None, None, None),
                           0.0, 0.0, None, None, NoRef, None, None, None, 0)

  function Parallel(i: nat): Edge {
    Edge(i + 1, true, 1, 2, "", "")
  }

  function BusyGraph(): Graph {
    Graph(Viewport(0.0, 0.0, 1.0), [SMALL_NODE, SMALL_NODE.(id := 2)], seq(2001, i requires 0 <= i => Parallel(i)))
  }

  lemma BusyNodes()
    ensures ById(BusyGraph().nodes) == map[1 := SMALL_NODE, 2 := SMALL_NODE.(id := 2)]
    ensures Distinct(Keys(BusyGraph().nodes, NodeId))
    ensures forall n | n in BusyGraph().nodes :: Editable(n) && NodeOk(n)
  {
    var a, b := SMALL_NODE, SMALL_NODE.(id := 2);
    assert [] + [a] == [a] && [a] + [b] == BusyGraph().nodes;
    IndexAppend([], a, NodeId);
    IndexAppend([a], b, NodeId);
    assert SMALL_NODE.title[0] == 'a';
    assert NodeOk(a) && NodeOk(b);
    assert forall n | n in BusyGraph().nodes :: n == a || n == b;
  }

  lemma BusySound()
    ensures Sound(BusyGraph())
  {
    BusyNodes();
    hide Index, Keys, NodeOk;
    var byId := ById(BusyGraph().nodes);
    forall id | id in byId ensures Rooted(byId, id) {
      assert Climbs(byId, id, 0);
    }
  }

  lemma BusyEdges(nodes: map<Id, Node>)
    requires 1 in nodes && 2 in nodes
    ensures EdgesOk(nodes, BusyGraph().edges) && forall e | e in BusyGraph().edges :: EdgeOk(e)
  {
    var edges := BusyGraph().edges;
    forall e | e in edges ensures Live(nodes, e) && EdgeOk(e) {
      var i :| 0 <= i < |edges| && edges[i] == e;
    }
  }

  /** A graph that an Apply on an empty canvas gives, and that no project copy accepts. */
  lemma BusyGraphNotCopied()
    ensures UserGraph(BusyGraph()) && Applied(EMPTY_GRAPH, DrawCommands(BusyGraph())) == Success(BusyGraph())
    ensures !Rebuildable(BusyGraph())
  {
    BusyNodes();
    BusySound();
    BusyEdges(ById(BusyGraph().nodes));
    hide Sound, NodeOk, Index, Keys, Distinct, EdgeOk, Applied, DrawCommands, Rebuildable, Editable;
    UserGraphDrawn(BusyGraph());
    UserGraphCopied(BusyGraph());
  }

  // The copy of a rebuildable graph.

  lemma CopiedIds(m: Names, nodes: seq<Node>)
    requires Derived(m) && Distinct(Keys(nodes, NodeId))
    ensures Distinct(Keys(Each(nodes, n => CopyNode(m, n)), NodeId))
  {
    DerivedIsRenaming(m, NodeScope);
    hide CopyConfig, Renaming, Derived, Distinct;
    DistinctCopied(nodes, NodeId, m.In(NodeScope), n => CopyNode(m, n));
  }

  lemma AddableCopied(m: Names, g: Graph)
    requires Derived(m) && NodesAddable(g.nodes) && Covers(m, GraphAssets(g))
    ensures NodesAddable(CopyGraph(m, g).nodes)
  {
    var copies := CopyGraph(m, g).nodes;
    CopiedIds(m, g.nodes);
    hide Editable, NodeOk, CopyNode, Derived, NodeAssets, Distinct, Keys;
    forall i | 0 <= i < |copies| ensures Editable(copies[i]) && NodeOk(copies[i]) {
      assert g.nodes[i] in g.nodes;
      assert forall x | x in NodeAssets(g.nodes[i]) :: x in GraphAssets(g);
      NodeCopied(m, g.nodes[i]);
    }
  }

  lemma JoinableCopied(m: Names, g: Graph)
    requires Derived(m) && EdgesJoinable(g.nodes, g.edges)
    ensures EdgesJoinable(CopyGraph(m, g).nodes, CopyGraph(m, g).edges)
  {
    DerivedIsRenaming(m, EdgeScope);
    DistinctCopied(g.edges, EdgeId, m.In(EdgeScope), e => CopyEdge(m, e));
    TableCopied(m, g.nodes);
    hide CopyNode, Renaming, Distinct, Keys, Index;
    var copies := CopyGraph(m, g).edges;
    forall i | 0 <= i < |copies| ensures EdgeOk(copies[i]) && Live(ById(CopyGraph(m, g).nodes), copies[i]) {
      assert EdgeOk(g.edges[i]) && Live(ById(g.nodes), g.edges[i]);
    }
  }

  /** With derived identities and assets for everything used, the copy is rebuildable too. */
  lemma RebuildableCopied(m: Names, g: Graph)
    requires Derived(m) && Rebuildable(g) && Covers(m, GraphAssets(g))
    ensures Rebuildable(CopyGraph(m, g))
  {
    AddableCopied(m, g);
    JoinableCopied(m, g);
    ForestCopied(m, g.nodes);
    ToolsCopied(m, g.nodes);
    hide NodesAddable, EdgesJoinable, Forest, ToolsResolve, Derived, Covers;
  }

  // What the copy is to the original.

  /** The same nodes under new names, and no others. */
  ghost predicate SameNodes(m: Names, a: map<Id, Node>, b: map<Id, Node>) {
    && (forall id | id in a :: m.Node(id) in b)
    && (forall j | j in b :: exists id | id in a :: m.Node(id) == j)
  }

  predicate SameParent(m: Names, a: Node, b: Node, parent: Id) {
    b.parent == Some(m.Node(parent)) <==> a.parent == Some(parent)
  }

  ghost predicate SameParents(m: Names, a: map<Id, Node>, b: map<Id, Node>) {
    forall id, parent: Id | id in a && m.Node(id) in b :: SameParent(m, a[id], b[m.Node(id)], parent)
  }

  ghost predicate SameEdges(m: Names, s: seq<Edge>, t: seq<Edge>) {
    |t| == |s| && forall i :: 0 <= i < |s| ==> t[i].source == m.Node(s[i].source) && t[i].target == m.Node(s[i].target)
  }

  lemma NoNewParents(m: Names, n: Node, parent: Id)
    requires Derived(m)
    ensures SameParent(m, n, CopyNode(m, n), parent)
  {
    hide CopyConfig;
  }

  /** The copy has the shape of the original: its nodes, its parent relation and its edges, under new names. */
  lemma CopyIsIsomorphic(m: Names, g: Graph)
    requires Derived(m)
    ensures var h := CopyGraph(m, g);
            && |h.nodes| == |g.nodes|
            && SameNodes(m, ById(g.nodes), ById(h.nodes))
            && SameParents(m, ById(g.nodes), ById(h.nodes))
            && SameEdges(m, g.edges, h.edges)
  {
    var a, b := ById(g.nodes), ById(CopyGraph(m, g).nodes);
    TableCopied(m, g.nodes);
    hide Index, CopyNode, Derived, SameParent;
    forall id, parent: Id | id in a && m.Node(id) in b ensures SameParent(m, a[id], b[m.Node(id)], parent) {
      NoNewParents(m, a[id], parent);
    }
  }

  /** A clip of the copy plays the copy of the asset that the original clip plays. */
  lemma CopiedClipPlays(m: Names, a: map<Id, Node>, b: map<Id, Node>, node: Id, c: Clip)
    requires NodesCopied(m, a, b) && ClipResolves(a, c)
    ensures var d := CopyClip(m, node, c);
            ResolvedAsset(b, d.node, d.asset) == MapOption(x => m.Asset(x), ResolvedAsset(a, c.node, c.asset))
  {
    if c.node.Some? {
      MediaCopied(m, a, b, c.node.value, c.kind);
    }
  }

  /** So does a scene object. */
  lemma CopiedObjectPlays(m: Names, a: map<Id, Node>, b: map<Id, Node>, node: Id, x: Object)
    requires NodesCopied(m, a, b) && ObjectResolves(a, x)
    ensures var y := CopyObject(m, node, x);
            ResolvedAsset(b, y.node, y.asset) == MapOption(z => m.Asset(z), ResolvedAsset(a, x.node, x.asset))
  {
    hide CopyFrames, CopyBone;
    if x.node.Some? {
      MediaCopied(m, a, b, x.node.value, if x.kind == Billboard then Image else Model);
    }
  }
}
