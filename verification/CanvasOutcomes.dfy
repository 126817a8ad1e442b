/**
  What one command leaves of a graph, and when and why it is refused, said of the graph and the command alone: which
  field of which node has which value, which rows are added or gone, and that everything else is as it was.
 */
module CanvasOutcomes {
  import opened Wrappers
  import opened Ids
  import opened Rows
  import opened CanvasNodes
  import opened CanvasCommands
  import opened CanvasGraph
  import opened CanvasDelete
  import opened CanvasRuns
  import opened CanvasUndo

  // What a successful command leaves.

  /** The attribute that the row sets has its value, and all others are as before. */
  predicate ChangedBy(a: Node, b: Node, e: Edit) {
    && b.id == a.id && b.kind == a.kind && b.action == a.action && b.config == a.config
    && b.refType == a.refType && b.ref == a.ref && b.operation == a.operation
    && (e.Move? || (b.x == a.x && b.y == a.y)) && (e.Resize? || (b.width == a.width && b.height == a.height))
    && (e.Rename? || b.title == a.title) && (e.SetParent? || b.parent == a.parent) && (e.SetZ? || b.z == a.z)
    && match e
       case Move(_, x, y) => b.x == x && b.y == y
       case Resize(_, width, height) => b.width == Some(width) && b.height == Some(height)
       case Rename(_, title) => b.title == title
       case SetParent(_, parent) => b.parent == parent
       case SetZ(_, z) => b.z == z
  }

  /** A node after a batch of edits: as the row that names it says, or as it was. */
  ghost predicate NodeEdited(a: Node, b: Node, rows: seq<Edit>) {
    && ((forall j :: 0 <= j < |rows| ==> rows[j].id != a.id) ==> b == a)
    && forall j :: 0 <= j < |rows| && rows[j].id == a.id ==> ChangedBy(a, b, rows[j])
  }

  /** A node after its configuration was replaced, or another's was. */
  predicate NodeConfigured(a: Node, b: Node, id: Id, config: Config) {
    if a.id != id then b == a
    else
      && b.config == config && b.id == a.id && b.title == a.title && b.kind == a.kind && b.action == a.action
      && b.x == a.x && b.y == a.y && b.width == a.width && b.height == a.height
      && b.refType == a.refType && b.ref == a.ref && b.parent == a.parent && b.operation == a.operation && b.z == a.z
  }

  ghost predicate Increasing(at: seq<nat>) {
    forall j, k :: 0 <= j < k < |at| ==> at[j] < at[k]
  }

  /** The rows that are not gone, in the same order. */
  ghost predicate Thinned<T(!new)>(s: seq<T>, t: seq<T>, gone: T -> bool) {
    exists at: seq<nat> :: Positions(s, t, gone, at)
  }

  ghost predicate Positions<T(!new)>(s: seq<T>, t: seq<T>, gone: T -> bool, at: seq<nat>) {
    && |at| == |t| && Increasing(at)
    && (forall k :: 0 <= k < |at| ==> at[k] < |s| && !gone(s[at[k]]) && t[k] == s[at[k]])
    && forall i :: 0 <= i < |s| && !gone(s[i]) ==> i in at
  }

  ghost predicate Outcome(g: Graph, h: Graph, c: Command) {
    match c
    case AddNodes(rows) => h.viewport == g.viewport && h.nodes == g.nodes + rows && h.edges == g.edges
    case EditNodes(rows) =>
      && h.viewport == g.viewport && h.edges == g.edges && |h.nodes| == |g.nodes|
      && forall i :: 0 <= i < |g.nodes| ==> NodeEdited(g.nodes[i], h.nodes[i], rows)
    case UpdateConfig(id, config) =>
      && h.viewport == g.viewport && h.edges == g.edges && |h.nodes| == |g.nodes|
      && forall i :: 0 <= i < |g.nodes| ==> NodeConfigured(g.nodes[i], h.nodes[i], id, config)
    case DeleteNodes(ids) =>
      && h.viewport == g.viewport
      && (forall n | n in g.nodes && n.id !in ids :: Survives(ById(g.nodes), ById(h.nodes), n, Elements(ids)))
      && Thinned(Keys(g.nodes, NodeId), Keys(h.nodes, NodeId), (id: Id) => id in ids)
      && Thinned(g.edges, h.edges, (e: Edge) => e.source in ids || e.target in ids)
    case Connect(rows) => h.viewport == g.viewport && h.nodes == g.nodes && h.edges == g.edges + rows
    case Disconnect(ids) =>
      && h.viewport == g.viewport && h.nodes == g.nodes
      && Thinned(g.edges, h.edges, (e: Edge) => e.id in ids)
    case SetViewport(v) => h.viewport == v && h.nodes == g.nodes && h.edges == g.edges
    case Malformed => false
    case Unknown => false
  }

  lemma {:induction false} WithoutThins<T(!new)>(s: seq<T>, gone: T -> bool) returns (at: seq<nat>)
    ensures Positions(s, Without(s, gone), gone, at)
  {
    if s == [] {
      at := [];
    } else {
      var front, last := s[..|s| - 1], s[|s| - 1];
      at := WithoutThins(front, gone);
      if gone(last) {
        GoneLast(front, last, Without(front, gone), gone, at);
        assert front + [last] == s;
      } else {
        KeptLast(front, last, Without(front, gone), gone, at);
        at := at + [|front|];
        assert front + [last] == s;
      }
    }
  }

  lemma GoneLast<T(!new)>(s: seq<T>, x: T, t: seq<T>, gone: T -> bool, at: seq<nat>)
    requires Positions(s, t, gone, at) && gone(x)
    ensures Positions(s + [x], t, gone, at)
  {
  }

  lemma KeptLast<T(!new)>(s: seq<T>, x: T, t: seq<T>, gone: T -> bool, at: seq<nat>)
    requires Positions(s, t, gone, at) && !gone(x)
    ensures Positions(s + [x], t + [x], gone, at + [|s|])
  {
    var all := at + [|s|];
    forall i | 0 <= i < |s + [x]| && !gone((s + [x])[i]) ensures i in all {
      if i == |s| {
        assert all[|at|] == i;
      } else {
        assert (s + [x])[i] == s[i];
        var k :| 0 <= k < |at| && at[k] == i;
        assert all[k] == i;
      }
    }
  }

  lemma EditsChange(a: Node, b: Node, rows: seq<Edit>)
    requires EditedBy(a, b, rows)
    ensures NodeEdited(a, b, rows)
  {
  }

  lemma EditOutcome(nodes: seq<Node>, rows: seq<Edit>)
    requires NoDup(Keys(nodes, NodeId)) && EditRows(nodes, rows, {}).Success?
    ensures var after := EditRows(nodes, rows, {}).value;
            |after| == |nodes| && forall i :: 0 <= i < |nodes| ==> NodeEdited(nodes[i], after[i], rows)
  {
    EditRowsEffect(nodes, rows, {});
    var after := EditRows(nodes, rows, {}).value;
    hide EditRows, EditedBy, NodeEdited;
    forall i | 0 <= i < |nodes| ensures NodeEdited(nodes[i], after[i], rows) {
      EditsChange(nodes[i], after[i], rows);
    }
  }

  lemma UpdateOutcome(nodes: seq<Node>, id: Id, config: Config)
    requires NoDup(Keys(nodes, NodeId)) && Updated(nodes, id, config).Success?
    ensures var after := Updated(nodes, id, config).value;
            |after| == |nodes| && forall i :: 0 <= i < |nodes| ==> NodeConfigured(nodes[i], after[i], id, config)
  {
    hide ConfigOk, Editable;
    var t := Target(nodes, id, {}).value;
    forall i | 0 <= i < |nodes| && i != t ensures nodes[i].id != id {
      OnlyOne(nodes, i, t);
    }
  }

  lemma {:induction false} CutRowsAre(edges: seq<Edge>, ids: seq<Id>, seen: set<Id>)
    requires CutRows(edges, ids, seen).Success?
    ensures CutRows(edges, ids, seen).value == seen + Elements(ids)
    decreases |ids|
  {
    if ids == [] {
      assert seen + Elements(ids) == seen;
    } else {
      CutRowsAre(edges, ids[1..], seen + {ids[0]});
      assert ids == [ids[0]] + ids[1..];
      assert seen + {ids[0]} + Elements(ids[1..]) == seen + Elements(ids);
    }
  }

  lemma SameGone<T(!new)>(s: seq<T>, gone: T -> bool, also: T -> bool) returns (at: seq<nat>)
    requires forall x: T :: gone(x) == also(x)
    ensures Thinned(s, Without(s, gone), also)
  {
    at := WithoutThins(s, gone);
    assert Positions(s, Without(s, gone), also, at);
  }

  lemma CutOutcome(edges: seq<Edge>, ids: seq<Id>)
    requires CutRows(edges, ids, {}).Success?
    ensures var cut := CutRows(edges, ids, {}).value;
            Thinned(edges, Without(edges, (e: Edge) => e.id in cut), (e: Edge) => e.id in ids)
  {
    CutRowsAre(edges, ids, {});
    var cut := CutRows(edges, ids, {}).value;
    var at := SameGone(edges, (e: Edge) => e.id in cut, (e: Edge) => e.id in ids);
  }

  lemma KeysThin(nodes: seq<Node>, left: seq<Node>, ids: seq<Id>)
    requires left == Without(nodes, (n: Node) => n.id in Elements(ids))
    ensures Thinned(Keys(nodes, NodeId), Keys(left, NodeId), (id: Id) => id in ids)
  {
    var at := WithoutThins(nodes, (n: Node) => n.id in Elements(ids));
    assert Positions(Keys(nodes, NodeId), Keys(left, NodeId), (id: Id) => id in ids, at);
  }

  lemma LeftKeys(g: Graph, ids: seq<Id>)
    ensures Keys(Removed(g, Elements(ids)).nodes, NodeId) ==
              Keys(Without(g.nodes, (n: Node) => n.id in Elements(ids)), NodeId)
  {
  }

  lemma NodesThin(g: Graph, ids: seq<Id>)
    ensures Thinned(Keys(g.nodes, NodeId), Keys(Removed(g, Elements(ids)).nodes, NodeId), (id: Id) => id in ids)
  {
    LeftKeys(g, ids);
    KeysThin(g.nodes, Without(g.nodes, (n: Node) => n.id in Elements(ids)), ids);
    hide Removed, Without, Thinned, Keys;
  }

  lemma EdgesThin(g: Graph, ids: seq<Id>)
    ensures Thinned(g.edges, Removed(g, Elements(ids)).edges, (e: Edge) => e.source in ids || e.target in ids)
  {
    var at := SameGone(g.edges, e => Touches(e, Elements(ids)), (e: Edge) => e.source in ids || e.target in ids);
  }

  lemma DeletionOutcome(g: Graph, ids: seq<Id>)
    requires GraphOk(g) && Applied(g, [DeleteNodes(ids)]).Success?
    ensures Outcome(g, Applied(g, [DeleteNodes(ids)]).value, DeleteNodes(ids))
  {
    DeletionKeepsSurvivors(g, ids);
    DeletionApplied(g, ids);
    NodesThin(g, ids);
    EdgesThin(g, ids);
    assert Removed(g, Elements(ids)).viewport == g.viewport;
    hide Applied, Survives, GraphOk, Thinned, Index, Removed, Keys;
  }

  lemma DeletionApplied(g: Graph, ids: seq<Id>)
    requires GraphOk(g) && Applied(g, [DeleteNodes(ids)]).Success?
    ensures Applied(g, [DeleteNodes(ids)]).value == Removed(g, Elements(ids))
  {
    OneCommand(g, DeleteNodes(ids));
    DeletedIff(g, ids);
    hide Applied, Sound, DeleteAllowed, Removed, GraphOk;
  }

  lemma OneCommand(g: Graph, c: Command)
    ensures Applied(g, [c]).Success? <==> After(g, c).Success? && Sound(After(g, c).value)
    ensures Applied(g, [c]).Success? ==> Applied(g, [c]).value == After(g, c).value
  {
    hide After, Sound;
    assert [c][1..] == [];
    if After(g, c).Success? {
      assert AfterAll(After(g, c).value, [], 1) == Success(After(g, c).value);
    }
  }

  /** What each command leaves. */
  lemma CommandOutcome(g: Graph, c: Command)
    requires GraphOk(g) && Applied(g, [c]).Success?
    ensures Outcome(g, Applied(g, [c]).value, c)
  {
    if c.DeleteNodes? {
      DeletionOutcome(g, c.ids);
    } else {
      OneCommand(g, c);
      AfterOutcome(g, c);
      hide Applied, After, Outcome, GraphOk;
    }
  }

  lemma AfterOutcome(g: Graph, c: Command)
    requires GraphOk(g) && After(g, c).Success? && !c.DeleteNodes?
    ensures Outcome(g, After(g, c).value, c)
  {
    assert NoDup(Keys(g.nodes, NodeId));
    hide GraphOk, AddRows, EditRows, Updated, Deleted, ConnectRows, CutRows, Without, Thinned, NodeEdited;
    hide NodeConfigured;
    match c {
      case AddNodes(rows) => AddRowsAppend(g.nodes, rows);
      case EditNodes(rows) => EditOutcome(g.nodes, rows);
      case UpdateConfig(id, config) => UpdateOutcome(g.nodes, id, config);
      case Connect(rows) => ConnectRowsAppend(g.nodes, g.edges, rows);
      case Disconnect(ids) => CutOutcome(g.edges, ids);
      case _ =>
    }
  }
}
