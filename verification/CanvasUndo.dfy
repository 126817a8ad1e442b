/** Commands that take back what another command did, and what a batch of edits amounts to. */
module CanvasUndo {
  import opened Wrappers
  import opened Ids
  import opened Rows
  import opened CanvasNodes
  import opened CanvasCommands
  import opened CanvasGraph
  import opened CanvasDelete

  lemma {:induction false} WithoutAdded<T(!new)>(s: seq<T>, t: seq<T>, gone: T -> bool)
    requires forall x | x in s :: !gone(x)
    requires forall x | x in t :: gone(x)
    ensures Without(s + t, gone) == s
  {
    if t != [] {
      var front, last := t[..|t| - 1], t[|t| - 1];
      assert (s + t)[..|s + t| - 1] == s + front && (s + t)[|s + t| - 1] == last;
      WithoutAdded(s, front, gone);
    } else if s != [] {
      assert s + t == s;
      assert s[..|s| - 1] + [] == s[..|s| - 1];
      WithoutAdded(s[..|s| - 1], [], gone);
      assert s == s[..|s| - 1] + [s[|s| - 1]];
    } else {
      assert s + t == [];
    }
  }

  /** `added` rows that are new beside the table `s` and beside each other. */
  ghost predicate NewRows<T>(s: seq<T>, added: seq<T>, key: T -> Id) {
    NoDup(Keys(added, key)) && forall i :: 0 <= i < |added| ==> key(added[i]) !in Keys(s, key)
  }

  lemma NewRowsFirst<T>(s: seq<T>, added: seq<T>, key: T -> Id)
    requires added != [] && key(added[0]) !in Keys(s, key) && NewRows(s + [added[0]], added[1..], key)
    ensures NewRows(s, added, key)
  {
    var first, rest := added[0], added[1..];
    assert Keys(s + [first], key) == Keys(s, key) + [key(first)];
    assert Keys(added, key) == [key(first)] + Keys(rest, key);
    forall k | k in Keys(rest, key) ensures k != key(first) {
      var i :| 0 <= i < |rest| && key(rest[i]) == k;
    }
    NoDupParts([key(first)], Keys(rest, key));
    forall i | 0 <= i < |added| ensures key(added[i]) !in Keys(s, key) {
      if i > 0 {
        assert added[i] == rest[i - 1] && key(rest[i - 1]) !in Keys(s + [first], key);
      }
    }
  }

  lemma NewRowsApart<T>(s: seq<T>, added: seq<T>, key: T -> Id)
    requires NewRows(s, added, key)
    ensures forall x | x in s :: key(x) in Keys(s, key) && key(x) !in Keys(added, key)
    ensures forall x | x in added :: key(x) in Keys(added, key) && key(x) !in Keys(s, key)
    ensures NoDup(Keys(s, key)) ==> NoDup(Keys(s + added, key))
  {
    forall x | x in added ensures key(x) in Keys(added, key) && key(x) !in Keys(s, key) {
      var i :| 0 <= i < |added| && added[i] == x;
      assert Keys(added, key)[i] == key(x);
    }
    forall x | x in s ensures key(x) in Keys(s, key) && key(x) !in Keys(added, key) {
      var i :| 0 <= i < |s| && s[i] == x;
      assert Keys(s, key)[i] == key(x);
    }
    assert Keys(s + added, key) == Keys(s, key) + Keys(added, key);
    NoDupParts(Keys(s, key), Keys(added, key));
    forall k | k in Keys(added, key) ensures k !in Keys(s, key) {
      var j :| 0 <= j < |added| && key(added[j]) == k;
    }
  }

  // Adding nodes, then deleting them.

  lemma {:induction false} AddRowsAppend(nodes: seq<Node>, rows: seq<Node>)
    requires AddRows(nodes, rows).Success?
    ensures AddRows(nodes, rows).value == nodes + rows && NewRows(nodes, rows, NodeId)
    ensures forall i :: 0 <= i < |rows| ==> Editable(rows[i])
    decreases |rows|
  {
    hide Editable, NodeOk, NewRows, Keys;
    if rows == [] {
      NoNewRows(nodes, NodeId);
      assert nodes + rows == nodes;
    } else {
      var first, rest := rows[0], rows[1..];
      AddRowsAppend(nodes + [first], rest);
      NotYetAt(nodes, NodeId, first.id);
      NewRowsFirst(nodes, rows, NodeId);
      assert nodes + [first] + rest == nodes + rows;
      assert forall i :: 0 < i < |rows| ==> rows[i] == rest[i - 1];
    }
  }

  lemma NoNewRows<T>(s: seq<T>, key: T -> Id)
    ensures NewRows(s, [], key)
  {
  }

  /** A node that refers to none of the removed nodes is left as it is. */
  lemma LeftAlone(byId: map<Id, Node>, removed: set<Id>, n: Node)
    requires forall id | id in byId :: id !in removed
    requires Resolves(byId, n.config) && ParentOk(byId, n)
    ensures forall all: map<Id, Node> :: Left(all, removed, n) == n
  {
    forall all: map<Id, Node> ensures Cleared(all, removed, n.config) == n.config {
      if n.config.timeline.Some? {
        assert ClearTimeline(all, removed, n.config.timeline.value).clips == n.config.timeline.value.clips;
      }
      if n.config.director.Some? {
        assert ClearDirector(all, removed, n.config.director.value).objects == n.config.director.value.objects;
      }
      if n.config.batch.Some? {
        RowsAlone(byId, removed, n.config.batch.value.rows);
        assert ClearBatch(removed, n.config.batch.value).rows == n.config.batch.value.rows;
      }
    }
  }

  lemma RowsAlone(byId: map<Id, Node>, removed: set<Id>, rows: seq<Row>)
    requires forall id | id in byId :: id !in removed
    requires forall i :: 0 <= i < |rows| ==> RowResolves(byId, rows[i])
    ensures forall i :: 0 <= i < |rows| ==> ClearRow(removed, rows[i]) == rows[i]
  {
    forall i | 0 <= i < |rows| ensures ClearRow(removed, rows[i]) == rows[i] {
      assert Each(rows[i].inputs, slot => ClearSlot(removed, slot)) == rows[i].inputs;
    }
  }

  lemma NodesAlone(g: Graph, removed: set<Id>, all: map<Id, Node>)
    requires GraphOk(g) && forall id | id in ById(g.nodes) :: id !in removed
    ensures Each(g.nodes, n => Left(all, removed, n)) == g.nodes
  {
    IndexHolds(g.nodes, NodeId);
    forall i | 0 <= i < |g.nodes| ensures Left(all, removed, g.nodes[i]) == g.nodes[i] {
      var n := g.nodes[i];
      assert n in g.nodes && ById(g.nodes)[n.id] == n && Rooted(ById(g.nodes), n.id);
      assert ParentOk(ById(g.nodes), n) && Resolves(ById(g.nodes), n.config);
      hide Left, Resolves, ParentOk, GraphOk;
      LeftAlone(ById(g.nodes), removed, n);
    }
  }

  lemma AddedIds(g: Graph, rows: seq<Node>)
    requires GraphOk(g) && AddRows(g.nodes, rows).Success?
    ensures forall id | id in ById(g.nodes) :: id !in Keys(rows, NodeId)
    ensures forall n | n in g.nodes :: n.id !in Keys(rows, NodeId) && n.id in ById(g.nodes)
    ensures forall n | n in rows :: n.id in Keys(rows, NodeId)
    ensures NoDup(Keys(rows, NodeId)) && NoDup(Keys(g.nodes + rows, NodeId))
  {
    AddRowsAppend(g.nodes, rows);
    NewRowsApart(g.nodes, rows, NodeId);
    IndexHolds(g.nodes, NodeId);
    hide Editable, NodeOk, AddRows, Forest, ToolsResolve;
  }

  lemma AddedAreThere(nodes: seq<Node>, rows: seq<Node>)
    requires NoDup(Keys(nodes + rows, NodeId)) && forall i :: 0 <= i < |rows| ==> Editable(rows[i])
    ensures forall id | id in Keys(rows, NodeId) :: id in ById(nodes + rows) && Editable(ById(nodes + rows)[id])
  {
    hide Editable;
    var all := nodes + rows;
    IndexHolds(all, NodeId);
    forall id | id in Keys(rows, NodeId) ensures id in ById(all) && Editable(ById(all)[id]) {
      var i :| 0 <= i < |rows| && rows[i].id == id;
      assert all[|nodes| + i] == rows[i] && rows[i] in all;
    }
  }

  lemma NothingRefersToAdded(g: Graph, removed: set<Id>)
    requires GraphOk(g) && forall id | id in ById(g.nodes) :: id !in removed
    ensures forall n | n in g.nodes && n.parent.Some? :: n.parent.value !in removed
    ensures forall e | e in g.edges :: !Touches(e, removed)
  {
    hide Editable, NodeOk;
    IndexHolds(g.nodes, NodeId);
    forall n | n in g.nodes && n.parent.Some? ensures n.parent.value !in removed {
      assert ById(g.nodes)[n.id] == n && Rooted(ById(g.nodes), n.id) && ParentOk(ById(g.nodes), n);
    }
    forall e | e in g.edges ensures !Touches(e, removed) {
      assert Live(ById(g.nodes), e);
    }
  }

  lemma AddedMayGo(g: Graph, rows: seq<Node>)
    requires GraphOk(g) && AddRows(g.nodes, rows).Success?
    ensures NoDup(Keys(g.nodes + rows, NodeId)) && DeleteAllowed(g.(nodes := g.nodes + rows), Keys(rows, NodeId))
  {
    AddRowsAppend(g.nodes, rows);
    AddedIds(g, rows);
    AddedAreThere(g.nodes, rows);
    NothingRefersToAdded(g, Elements(Keys(rows, NodeId)));
    hide Editable, AddRows, Keys, GraphOk, Touches, NewRows;
    forall n | n in g.nodes + rows && !Editable(n) && n.parent.Some? ensures n.parent.value !in Keys(rows, NodeId) {
      assert n in g.nodes;
    }
  }

  /** Deleting the nodes that a command has just added gives back the graph as it was. */
  lemma AddThenDelete(g: Graph, rows: seq<Node>)
    requires GraphOk(g) && After(g, AddNodes(rows)).Success?
    ensures After(After(g, AddNodes(rows)).value, DeleteNodes(Keys(rows, NodeId))) == Success(g)
  {
    AddRowsAppend(g.nodes, rows);
    AddedIds(g, rows);
    AddedMayGo(g, rows);
    hide AddRows, NewRows;
    var more, removed := g.(nodes := g.nodes + rows), Elements(Keys(rows, NodeId));
    assert After(g, AddNodes(rows)).value == more && BatchSize(|rows|);
    DeletedIff(more, Keys(rows, NodeId));
    AfterDelete(more, Keys(rows, NodeId));
    WithoutAdded(g.nodes, rows, (n: Node) => n.id in removed);
    NodesAlone(g, removed, ById(more.nodes));
    EdgesAlone(g, removed);
    hide Without, Left, After, Deleted, DeleteAllowed, GraphOk, Editable;
    assert Removed(more, removed) == g;
  }

  lemma EdgesAlone(g: Graph, removed: set<Id>)
    requires GraphOk(g) && forall id | id in ById(g.nodes) :: id !in removed
    ensures Without(g.edges, e => Touches(e, removed)) == g.edges
  {
    forall e | e in g.edges ensures !Touches(e, removed) {
      assert Live(ById(g.nodes), e);
    }
    WithoutAdded(g.edges, [], e => Touches(e, removed));
    assert g.edges + [] == g.edges;
  }

  // Connecting, then disconnecting.

  lemma {:induction false} ConnectRowsAppend(nodes: seq<Node>, edges: seq<Edge>, rows: seq<Edge>)
    requires ConnectRows(nodes, edges, rows).Success?
    ensures ConnectRows(nodes, edges, rows).value == edges + rows && NewRows(edges, rows, EdgeId)
    ensures forall i :: 0 <= i < |rows| ==> Annotation(rows[i])
    decreases |rows|
  {
    hide Annotation, EndsEditable, NewRows, Keys;
    if rows == [] {
      NoNewRows(edges, EdgeId);
      assert edges + rows == edges;
    } else {
      var first, rest := rows[0], rows[1..];
      ConnectRowsAppend(nodes, edges + [first], rest);
      NotYetAt(edges, EdgeId, first.id);
      NewRowsFirst(edges, rows, EdgeId);
      assert edges + [first] + rest == edges + rows;
      assert forall i :: 0 < i < |rows| ==> rows[i] == rest[i - 1];
    }
  }

  /** A list of distinct annotations may be cut, whatever else is in the table. */
  lemma {:induction false} CutRowsAll(edges: seq<Edge>, ids: seq<Id>, seen: set<Id>)
    requires NoDup(ids) && forall id | id in ids :: id !in seen
    requires forall id | id in ids :: At(edges, EdgeId, id).Some? && Annotation(edges[At(edges, EdgeId, id).value])
    ensures CutRows(edges, ids, seen) == Success(seen + Elements(ids))
    decreases |ids|
  {
    hide Annotation;
    if ids == [] {
      assert seen + Elements(ids) == seen;
    } else {
      assert ids == [ids[0]] + ids[1..];
      NoDupParts([ids[0]], ids[1..]);
      CutRowsAll(edges, ids[1..], seen + {ids[0]});
      assert seen + {ids[0]} + Elements(ids[1..]) == seen + Elements(ids);
    }
  }

  lemma JoinedAt(edges: seq<Edge>, rows: seq<Edge>, id: Id)
    requires id in Keys(rows, EdgeId) && NewRows(edges, rows, EdgeId) && forall i :: 0 <= i < |rows| ==>
               Annotation(rows[i])
    ensures At(edges + rows, EdgeId, id).Some? && Annotation((edges + rows)[At(edges + rows, EdgeId, id).value])
  {
    hide Annotation;
    NewRowsApart(edges, rows, EdgeId);
    var i :| 0 <= i < |rows| && rows[i].id == id;
    assert (edges + rows)[|edges| + i].id == id;
    NotYetAt(edges + rows, EdgeId, id);
    assert Keys(edges + rows, EdgeId) == Keys(edges, EdgeId) + Keys(rows, EdgeId);
  }

  lemma CutJoined(edges: seq<Edge>, rows: seq<Edge>)
    requires NewRows(edges, rows, EdgeId) && forall i :: 0 <= i < |rows| ==> Annotation(rows[i])
    ensures CutRows(edges + rows, Keys(rows, EdgeId), {}) == Success(Elements(Keys(rows, EdgeId)))
    ensures forall e | e in edges :: e.id !in Elements(Keys(rows, EdgeId))
    ensures forall e | e in rows :: e.id in Elements(Keys(rows, EdgeId))
  {
    NewRowsApart(edges, rows, EdgeId);
    hide Annotation, At;
    forall id | id in Keys(rows, EdgeId)
      ensures At(edges + rows, EdgeId, id).Some? && Annotation((edges + rows)[At(edges + rows, EdgeId, id).value])
    {
      JoinedAt(edges, rows, id);
    }
    CutRowsAll(edges + rows, Keys(rows, EdgeId), {});
    assert {} + Elements(Keys(rows, EdgeId)) == Elements(Keys(rows, EdgeId));
  }

  lemma AfterCut(g: Graph, ids: seq<Id>)
    requires BatchSize(|ids|) && CutRows(g.edges, ids, {}).Success?
    ensures var cut := CutRows(g.edges, ids, {}).value;
            After(g, Disconnect(ids)) == Success(g.(edges := Without(g.edges, (e: Edge) => e.id in cut)))
  {
    hide CutRows;
  }

  lemma AfterJoin(g: Graph, rows: seq<Edge>)
    requires After(g, Connect(rows)).Success?
    ensures BatchSize(|rows|) && ConnectRows(g.nodes, g.edges, rows).Success?
    ensures After(g, Connect(rows)).value == g.(edges := ConnectRows(g.nodes, g.edges, rows).value)
  {
    hide ConnectRows;
  }

  /** Disconnecting the edges that a command has just connected gives back the graph as it was. */
  lemma JoinThenCut(g: Graph, rows: seq<Edge>)
    requires After(g, Connect(rows)).Success?
    ensures After(After(g, Connect(rows)).value, Disconnect(Keys(rows, EdgeId))) == Success(g)
  {
    AfterJoin(g, rows);
    ConnectRowsAppend(g.nodes, g.edges, rows);
    CutJoined(g.edges, rows);
    var more, ids := g.(edges := g.edges + rows), Keys(rows, EdgeId);
    hide After, ConnectRows, CutRows, NewRows, Annotation, Keys;
    AfterCut(more, ids);
    var cut := CutRows(more.edges, ids, {}).value;
    WithoutAdded(g.edges, rows, (e: Edge) => e.id in cut);
  }

  // Editing.

  /** Row `i` after a batch of edits: changed by the one edit that names it, or left as it was. */
  ghost predicate EditedBy(before: Node, after: Node, rows: seq<Edit>) {
    && ((forall j :: 0 <= j < |rows| ==> rows[j].id != before.id) ==> after == before)
    && forall j :: 0 <= j < |rows| && rows[j].id == before.id ==>
          after == Edited(before, rows[j]) && EditOk(before.kind, rows[j])
  }

  /** A batch of edits changes exactly the nodes it names, each once, so their order makes no difference. */
  lemma {:induction false} EditRowsEffect(nodes: seq<Node>, rows: seq<Edit>, seen: set<Id>)
    requires NoDup(Keys(nodes, NodeId)) && EditRows(nodes, rows, seen).Success?
    ensures |EditRows(nodes, rows, seen).value| == |nodes|
    ensures forall i :: 0 <= i < |nodes| ==> EditedBy(nodes[i], EditRows(nodes, rows, seen).value[i], rows)
    ensures forall j :: 0 <= j < |rows| ==> rows[j].id !in seen
    ensures forall i, j :: 0 <= i < j < |rows| ==> rows[i].id != rows[j].id
    decreases |rows|
  {
    hide EditOk, Editable, EditedBy, NoDup;
    if rows == [] {
      NotEdited(nodes);
    } else {
      var e, rest := rows[0], rows[1..];
      var t := Target(nodes, e.id, seen).value;
      var next := nodes[t := Edited(nodes[t], e)];
      assert EditOk(nodes[t].kind, e);
      assert Keys(next, NodeId) == Keys(nodes, NodeId);
      EditRowsEffect(next, rest, seen + {e.id});
      var after := EditRows(next, rest, seen + {e.id}).value;
      hide EditRows, Edited;
      forall i | 0 <= i < |nodes| ensures EditedBy(nodes[i], after[i], rows) {
        assert EditedBy(next[i], after[i], rest);
        if i == t {
          EditedNow(nodes[i], after[i], rows);
        } else {
          OnlyOne(nodes, i, t);
          EditedLater(nodes[i], after[i], rows);
        }
      }
      assert forall j :: 0 < j < |rows| ==> rows[j] == rest[j - 1];
    }
  }

  lemma NotEdited(nodes: seq<Node>)
    ensures forall i :: 0 <= i < |nodes| ==> EditedBy(nodes[i], nodes[i], [])
  {
  }

  lemma OnlyOne(nodes: seq<Node>, i: nat, t: nat)
    requires NoDup(Keys(nodes, NodeId)) && i < |nodes| && t < |nodes| && i != t
    ensures nodes[i].id != nodes[t].id
  {
    assert Keys(nodes, NodeId)[i] == nodes[i].id && Keys(nodes, NodeId)[t] == nodes[t].id;
  }

  lemma EditedNow(before: Node, after: Node, rows: seq<Edit>)
    requires rows != [] && rows[0].id == before.id && EditOk(before.kind, rows[0])
    requires EditedBy(Edited(before, rows[0]), after, rows[1..])
    requires forall j :: 0 <= j < |rows[1..]| ==> rows[1..][j].id != before.id
    ensures EditedBy(before, after, rows)
  {
    assert Edited(before, rows[0]).id == before.id;
    assert forall j :: 0 < j < |rows| ==> rows[j] == rows[1..][j - 1];
  }

  lemma EditedLater(before: Node, after: Node, rows: seq<Edit>)
    requires rows != [] && rows[0].id != before.id && EditedBy(before, after, rows[1..])
    ensures EditedBy(before, after, rows)
  {
    assert forall j :: 0 < j < |rows| ==> rows[j] == rows[1..][j - 1];
    assert forall j :: 0 <= j < |rows[1..]| ==> rows[1..][j] == rows[j + 1];
  }

  // Applying.

  /** Applying two lists of commands in turn is applying them as one; failures are counted through both. */
  lemma {:induction false} ApplyInTwo(g: Graph, cs: seq<Command>, ds: seq<Command>, index: nat)
    ensures AfterAll(g, cs + ds, index) ==
            if AfterAll(g, cs, index).Failure? then AfterAll(g, cs, index)
            else AfterAll(AfterAll(g, cs, index).value, ds, index + |cs|)
    decreases |cs|
  {
    hide After, Sound;
    if cs == [] {
      assert cs + ds == ds;
    } else {
      assert (cs + ds)[0] == cs[0] && (cs + ds)[1..] == cs[1..] + ds;
      if After(g, cs[0]).Success? {
        ApplyInTwo(After(g, cs[0]).value, cs[1..], ds, index + 1);
      }
    }
  }
}
