/** What every successful Apply keeps. */
module CanvasGraph {
  import opened Wrappers
  import opened Ids
  import opened Rows
  import opened CanvasNodes
  import opened CanvasCommands

  function ById(nodes: seq<Node>): map<Id, Node> {
    Index(nodes, NodeId)
  }

  ghost predicate Live(nodes: map<Id, Node>, e: Edge) {
    e.source in nodes && e.target in nodes
  }

  /** The part of the graph invariant that is not checked again after every command. */
  ghost predicate WellFormed(g: Graph) {
    && Distinct(Keys(g.nodes, NodeId)) && Distinct(Keys(g.edges, EdgeId))
    && (forall e | e in g.edges :: Live(ById(g.nodes), e))
    && (forall n | n in g.nodes :: Editable(n) ==> NodeOk(n))
  }

  ghost predicate GraphOk(g: Graph) {
    WellFormed(g) && Sound(g)
  }

  // What other nodes see of a node, and what a protected node never loses.

  predicate SameFace(a: Node, b: Node) {
    && a.id == b.id && a.kind == b.kind && a.action == b.action
    && a.refType == b.refType && a.ref == b.ref && a.operation == b.operation
  }

  /** No node goes away, none changes its face, and protected nodes are untouched. */
  ghost predicate Grows(a: map<Id, Node>, b: map<Id, Node>) {
    forall id | id in a :: id in b && SameFace(a[id], b[id]) && (!Editable(a[id]) ==> b[id] == a[id])
  }

  lemma GrowsTwice(a: map<Id, Node>, b: map<Id, Node>, c: map<Id, Node>)
    requires Grows(a, b) && Grows(b, c)
    ensures Grows(a, c)
  {
    hide Editable;
    forall id | id in a ensures id in c && SameFace(a[id], c[id]) && (!Editable(a[id]) ==> c[id] == a[id]) {
      assert Editable(a[id]) == Editable(b[id]) by {
        FaceDecides(a[id], b[id]);
      }
    }
  }

  lemma FaceDecides(a: Node, b: Node)
    requires SameFace(a, b)
    ensures Editable(a) == Editable(b)
  {
  }

  // The node table.

  lemma SetRow(nodes: seq<Node>, i: nat, n: Node)
    requires NoDup(Keys(nodes, NodeId)) && i < |nodes| && n.id == nodes[i].id
    ensures Keys(nodes[i := n], NodeId) == Keys(nodes, NodeId)
    ensures ById(nodes[i := n]) == ById(nodes)[n.id := n]
    ensures n.id in ById(nodes) && ById(nodes)[n.id] == nodes[i]
  {
    IndexHolds(nodes, NodeId);
    assert nodes[i] in nodes;
    assert nodes[i := n] == Replace(nodes, NodeId, n) by {
      forall j | 0 <= j < |nodes| && j != i ensures nodes[j].id != n.id {
        assert Keys(nodes, NodeId)[j] != Keys(nodes, NodeId)[i];
      }
    }
    ReplaceIndex(nodes, NodeId, n);
  }

  lemma SetRowMembers(nodes: seq<Node>, i: nat, n: Node)
    requires i < |nodes|
    ensures forall x | x in nodes[i := n] :: x in nodes || x == n
  {
  }

  lemma AddRow(nodes: seq<Node>, n: Node)
    requires Distinct(Keys(nodes, NodeId)) && n.id != NIL && At(nodes, NodeId, n.id).None?
    ensures Distinct(Keys(nodes + [n], NodeId))
    ensures ById(nodes + [n]) == ById(nodes)[n.id := n] && n.id !in ById(nodes)
  {
    IndexAppend(nodes, n, NodeId);
    IndexHolds(nodes, NodeId);
    assert Keys(nodes + [n], NodeId) == Keys(nodes, NodeId) + [n.id];
    NoDupParts(Keys(nodes, NodeId), [n.id]);
    assert n.id !in ById(nodes);
  }

  ghost predicate ContentOk(nodes: seq<Node>) {
    forall n | n in nodes :: Editable(n) ==> NodeOk(n)
  }

  /** What a command that only adds or changes nodes keeps. */
  ghost predicate NodesKept(before: seq<Node>, after: seq<Node>) {
    Distinct(Keys(after, NodeId)) && ContentOk(after) && Grows(ById(before), ById(after))
  }

  lemma {:induction false} AddRowsKeep(nodes: seq<Node>, rows: seq<Node>)
    requires Distinct(Keys(nodes, NodeId)) && ContentOk(nodes) && AddRows(nodes, rows).Success?
    ensures NodesKept(nodes, AddRows(nodes, rows).value)
    decreases |rows|
  {
    hide Editable, NodeOk, Distinct, Index;
    if rows != [] {
      var more := nodes + [rows[0]];
      AddRow(nodes, rows[0]);
      AddRowsKeep(more, rows[1..]);
      GrowsTwice(ById(nodes), ById(more), ById(AddRows(nodes, rows).value));
    }
  }

  lemma EditKeeps(nodes: seq<Node>, i: nat, e: Edit)
    requires i < |nodes| && Editable(nodes[i]) && (ContentOk(nodes) ==> NodeOk(nodes[i])) && EditOk(nodes[i].kind, e)
    ensures SameFace(nodes[i], Edited(nodes[i], e))
    ensures ContentOk(nodes) ==> ContentOk(nodes[i := Edited(nodes[i], e)])
  {
    hide ConfigOk;
    SetRowMembers(nodes, i, Edited(nodes[i], e));
  }

  lemma RowKept(nodes: seq<Node>, i: nat, n: Node)
    requires Distinct(Keys(nodes, NodeId)) && i < |nodes| && Editable(nodes[i]) && SameFace(nodes[i], n)
    ensures Distinct(Keys(nodes[i := n], NodeId)) && Grows(ById(nodes), ById(nodes[i := n]))
  {
    SetRow(nodes, i, n);
    hide Editable;
  }

  lemma {:induction false} EditRowsKeep(nodes: seq<Node>, rows: seq<Edit>, seen: set<Id>)
    requires Distinct(Keys(nodes, NodeId)) && ContentOk(nodes) && EditRows(nodes, rows, seen).Success?
    ensures NodesKept(nodes, EditRows(nodes, rows, seen).value)
    decreases |rows|
  {
    hide Editable, NodeOk, Distinct, Index, EditOk, Edited;
    if rows != [] {
      var i := Target(nodes, rows[0].id, seen).value;
      assert nodes[i] in nodes;
      EditKeeps(nodes, i, rows[0]);
      RowKept(nodes, i, Edited(nodes[i], rows[0]));
      var more := nodes[i := Edited(nodes[i], rows[0])];
      EditRowsKeep(more, rows[1..], seen + {rows[0].id});
      GrowsTwice(ById(nodes), ById(more), ById(EditRows(nodes, rows, seen).value));
    } else {
      assert Grows(ById(nodes), ById(nodes));
    }
  }

  lemma UpdateKeeps(nodes: seq<Node>, id: Id, config: Config)
    requires Distinct(Keys(nodes, NodeId)) && ContentOk(nodes) && Updated(nodes, id, config).Success?
    ensures NodesKept(nodes, Updated(nodes, id, config).value)
  {
    hide Distinct, Index, ConfigOk;
    var i := Target(nodes, id, {}).value;
    var n := nodes[i].(config := config);
    assert nodes[i] in nodes;
    SetRowMembers(nodes, i, n);
    RowKept(nodes, i, n);
  }

  // Edges.

  lemma NotYetAt<T>(s: seq<T>, key: T -> Id, id: Id)
    ensures At(s, key, id).None? <==> id !in Keys(s, key)
  {
    if At(s, key, id).Some? {
      assert Keys(s, key)[At(s, key, id).value] == id;
    }
  }

  lemma AtIsLive(nodes: seq<Node>, id: Id)
    requires At(nodes, NodeId, id).Some?
    ensures id in ById(nodes)
  {
    IndexHolds(nodes, NodeId);
    assert nodes[At(nodes, NodeId, id).value] in nodes;
  }

  ghost predicate EdgesOk(nodes: map<Id, Node>, edges: seq<Edge>) {
    Distinct(Keys(edges, EdgeId)) && forall e | e in edges :: Live(nodes, e)
  }

  lemma AddEdge(nodes: seq<Node>, edges: seq<Edge>, e: Edge)
    requires EdgesOk(ById(nodes), edges) && NotJoined(nodes, edges, e).None?
    ensures EdgesOk(ById(nodes), edges + [e])
  {
    hide Editable, Index, EndsEditable;
    AtIsLive(nodes, e.source);
    AtIsLive(nodes, e.target);
    NotYetAt(edges, EdgeId, e.id);
    assert Keys(edges + [e], EdgeId) == Keys(edges, EdgeId) + [e.id];
    NoDupParts(Keys(edges, EdgeId), [e.id]);
  }

  lemma {:induction false} ConnectRowsKeep(nodes: seq<Node>, edges: seq<Edge>, rows: seq<Edge>)
    requires EdgesOk(ById(nodes), edges) && ConnectRows(nodes, edges, rows).Success?
    ensures EdgesOk(ById(nodes), ConnectRows(nodes, edges, rows).value)
    ensures forall e | e in edges :: e in ConnectRows(nodes, edges, rows).value
    decreases |rows|
  {
    hide EdgesOk, NotJoined;
    if rows != [] {
      AddEdge(nodes, edges, rows[0]);
      ConnectRowsKeep(nodes, edges + [rows[0]], rows[1..]);
    }
  }

  lemma {:induction false} WithoutKeys<T(!new)>(s: seq<T>, key: T -> Id, gone: T -> bool)
    requires Distinct(Keys(s, key))
    ensures Distinct(Keys(Without(s, gone), key))
    ensures |Without(s, gone)| <= |s|
  {
    if s != [] {
      var front, last := s[..|s| - 1], s[|s| - 1];
      assert Keys(s, key) == Keys(front, key) + [key(last)];
      NoDupParts(Keys(front, key), [key(last)]);
      assert forall k :: k in Keys(front, key) ==> k in Keys(s, key);
      WithoutKeys(front, key, gone);
      var kept := Without(front, gone);
      assert key(last) !in Keys(kept, key) by {
        forall i | 0 <= i < |kept| ensures key(kept[i]) != key(last) {
          assert kept[i] in front;
          var j :| 0 <= j < |front| && front[j] == kept[i];
          assert Keys(front, key)[j] == key(kept[i]);
        }
      }
      if !gone(last) {
        assert Keys(kept + [last], key) == Keys(kept, key) + [key(last)];
        NoDupParts(Keys(kept, key), [key(last)]);
        assert key(last) in Keys(s, key) by {
          assert Keys(s, key)[|s| - 1] == key(last);
        }
      }
    }
  }

  lemma {:induction false} CutRowsTake(edges: seq<Edge>, ids: seq<Id>, seen: set<Id>)
    requires CutRows(edges, ids, seen).Success?
    ensures forall id | id in CutRows(edges, ids, seen).value && id !in seen ::
              exists i :: 0 <= i < |edges| && edges[i].id == id && Annotation(edges[i])
    decreases |ids|
  {
    if ids != [] {
      CutRowsTake(edges, ids[1..], seen + {ids[0]});
    }
  }

  lemma CutKeeps(nodes: map<Id, Node>, edges: seq<Edge>, ids: seq<Id>)
    requires EdgesOk(nodes, edges) && CutRows(edges, ids, {}).Success?
    ensures var cut := CutRows(edges, ids, {}).value;
            var left := Without(edges, (e: Edge) => e.id in cut);
            && EdgesOk(nodes, left)
            && forall e | e in edges && !Annotation(e) :: e in left
  {
    var cut := CutRows(edges, ids, {}).value;
    CutRowsTake(edges, ids, {});
    WithoutKeys(edges, EdgeId, (e: Edge) => e.id in cut);
    forall e | e in edges && !Annotation(e) ensures e.id !in cut {
      var j :| 0 <= j < |edges| && edges[j] == e;
      forall i | 0 <= i < |edges| && Annotation(edges[i]) ensures edges[i].id != e.id {
        assert i < j ==> Keys(edges, EdgeId)[i] != Keys(edges, EdgeId)[j];
        assert j < i ==> Keys(edges, EdgeId)[j] != Keys(edges, EdgeId)[i];
      }
    }
  }
}
