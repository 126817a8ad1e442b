/** When a canvas command is refused, and with which error: the first row that may not be carried out decides. */
module CanvasRefusals {
  import opened Wrappers
  import opened Ids
  import opened Rows
  import opened CanvasNodes
  import opened CanvasCommands
  import opened CanvasGraph
  import opened CanvasDelete
  import opened CanvasUndo

  /** How many rows a command has. */
  function RowCount(c: Command): nat {
    match c
    case AddNodes(rows) => |rows|
    case EditNodes(rows) => |rows|
    case DeleteNodes(ids) => |ids|
    case Connect(rows) => |rows|
    case Disconnect(ids) => |ids|
    case _ => 1
  }

  predicate Batch(c: Command) {
    c.AddNodes? || c.EditNodes? || c.DeleteNodes? || c.Connect? || c.Disconnect?
  }

  /** The node that a row names is missing or was named before, or it is protected. */
  ghost function TargetFault(nodes: seq<Node>, id: Id, again: bool): Option<Error> {
    if again || id !in ById(nodes) then Some(InvalidCommand)
    else if !Editable(ById(nodes)[id]) then Some(UnsupportedCommand)
    else None
  }

  ghost function AddFault(nodes: seq<Node>, rows: seq<Node>, j: nat): Option<Error>
    requires j < |rows|
  {
    if !Editable(rows[j]) then Some(UnsupportedCommand)
    else if rows[j].id == NIL || rows[j].id in Keys(nodes + rows[..j], NodeId)
            || !NodeOk(rows[j]) then Some(InvalidCommand)
    else None
  }

  ghost function EditFault(nodes: seq<Node>, rows: seq<Edit>, j: nat): Option<Error>
    requires j < |rows|
  {
    if TargetFault(nodes, rows[j].id, exists k :: 0 <= k < j && rows[k].id == rows[j].id).Some?
    then TargetFault(nodes, rows[j].id, exists k :: 0 <= k < j && rows[k].id == rows[j].id)
    else if !EditOk(ById(nodes)[rows[j].id].kind, rows[j]) then Some(InvalidCommand)
    else None
  }

  ghost function ConfigFault(nodes: seq<Node>, id: Id, config: Config): Option<Error> {
    if TargetFault(nodes, id, false).Some? then TargetFault(nodes, id, false)
    else if !ConfigOk(ById(nodes)[id].kind, config) then Some(InvalidCommand)
    else None
  }

  ghost function JoinFault(g: Graph, rows: seq<Edge>, j: nat): Option<Error>
    requires j < |rows|
  {
    var e := rows[j];
    if !Annotation(e) then Some(UnsupportedCommand)
    else if e.id == NIL || e.source == e.target || e.source !in ById(g.nodes) || e.target !in ById(g.nodes)
            || e.id in Keys(g.edges + rows[..j], EdgeId) then Some(InvalidCommand)
    else if !Editable(ById(g.nodes)[e.source]) || !Editable(ById(g.nodes)[e.target]) then Some(UnsupportedCommand)
    else None
  }

  ghost function CutFault(edges: seq<Edge>, ids: seq<Id>, j: nat): Option<Error>
    requires j < |ids|
  {
    if ids[j] !in Keys(edges, EdgeId) || ids[j] in ids[..j] then Some(InvalidCommand)
    else if exists e | e in edges :: e.id == ids[j] && !Annotation(e) then Some(UnsupportedCommand)
    else None
  }

  /** What is wrong with one row of a command, on the graph as it is before the command. */
  ghost function Fault(g: Graph, c: Command, j: nat): Option<Error>
    requires j < RowCount(c)
  {
    match c
    case AddNodes(rows) => AddFault(g.nodes, rows, j)
    case EditNodes(rows) => EditFault(g.nodes, rows, j)
    case UpdateConfig(id, config) => ConfigFault(g.nodes, id, config)
    case DeleteNodes(ids) => TargetFault(g.nodes, ids[j], ids[j] in ids[..j])
    case Connect(rows) => JoinFault(g, rows, j)
    case Disconnect(ids) => CutFault(g.edges, ids, j)
    case SetViewport(v) => if ViewportOk(v) then None else Some(InvalidCommand)
    case Malformed => Some(InvalidCommand)
    case Unknown => Some(UnsupportedCommand)
  }

  ghost predicate FirstFault(g: Graph, c: Command, error: Error, j: nat) {
    && j < RowCount(c) && Fault(g, c, j) == Some(error)
    && forall k :: 0 <= k < j ==> Fault(g, c, k) == None
  }

  ghost predicate NoFault(g: Graph, c: Command) {
    forall j :: 0 <= j < RowCount(c) ==> Fault(g, c, j) == None
  }

  /** Deleting would take a business edge, or a node that a protected one is grouped under. */
  ghost predicate TakesProtected(g: Graph, ids: seq<Id>) {
    || (exists e | e in g.edges :: (e.source in ids || e.target in ids) && !Annotation(e))
    || (exists n | n in g.nodes :: n.id !in ids && n.parent.Some? && n.parent.value in ids && !Editable(n))
  }

  ghost predicate Refuses(g: Graph, c: Command, error: Error) {
    if Batch(c) && !BatchSize(RowCount(c)) then error == InvalidCommand
    else
      || (exists j: nat :: FirstFault(g, c, error, j))
      || (NoFault(g, c) && c.DeleteNodes? && TakesProtected(g, c.ids) && error == UnsupportedCommand)
  }

  // Row by row.

  lemma {:induction false} AddsFrom(nodes: seq<Node>, rows: seq<Node>, n: nat)
    requires n <= |rows| && forall k :: 0 <= k < n ==> AddFault(nodes, rows, k) == None
    ensures AddRows(nodes + rows[..n], rows[n..]).Success? <==>
              forall k :: 0 <= k < |rows| ==> AddFault(nodes, rows, k) == None
    ensures AddRows(nodes + rows[..n], rows[n..]).Failure? ==>
              exists j: nat ::
                j < |rows| && AddFault(nodes, rows, j) == Some(AddRows(nodes + rows[..n], rows[n..]).error)
                && forall k :: 0 <= k < j ==> AddFault(nodes, rows, k) == None
    decreases |rows| - n
  {
    hide Editable, NodeOk;
    if n < |rows| {
      assert rows[n..][0] == rows[n] && rows[n..][1..] == rows[n + 1..];
      NotYetAt(nodes + rows[..n], NodeId, rows[n].id);
      assert Refused(nodes + rows[..n], rows[n]) == AddFault(nodes, rows, n);
      hide AddFault, Refused;
      if AddFault(nodes, rows, n) == None {
        assert nodes + rows[..n] + [rows[n]] == nodes + rows[..n + 1];
        AddsFrom(nodes, rows, n + 1);
      }
    }
  }

  /** The same nodes, as far as edits are concerned. */
  ghost predicate SameTargets(nodes: seq<Node>, now: seq<Node>) {
    |now| == |nodes| && forall i :: 0 <= i < |nodes| ==> SameFace(nodes[i], now[i])
  }

  function Named(rows: seq<Edit>, n: nat): set<Id>
    requires n <= |rows|
  {
    set k | 0 <= k < n :: rows[k].id
  }

  lemma TargetIs(nodes: seq<Node>, now: seq<Node>, id: Id, seen: set<Id>)
    requires NoDup(Keys(nodes, NodeId)) && SameTargets(nodes, now)
    ensures var r := Target(now, id, seen);
            && (r.Failure? ==> TargetFault(nodes, id, id in seen) == Some(r.error))
            && (r.Success? ==> TargetFault(nodes, id, id in seen) == None && now[r.value].kind == ById(nodes)[id].kind)
  {
    IndexHolds(nodes, NodeId);
    var i := At(now, NodeId, id);
    if i.Some? {
      assert nodes[i.value] in nodes && nodes[i.value].id == id;
      FaceDecides(nodes[i.value], now[i.value]);
    }
    hide Editable, Index;
  }

  lemma {:induction false} EditsFrom(nodes: seq<Node>, now: seq<Node>, rows: seq<Edit>, n: nat)
    requires NoDup(Keys(nodes, NodeId)) && SameTargets(nodes, now)
    requires n <= |rows| && forall k :: 0 <= k < n ==> EditFault(nodes, rows, k) == None
    ensures var r := EditRows(now, rows[n..], Named(rows, n));
            && (r.Success? <==> forall k :: 0 <= k < |rows| ==> EditFault(nodes, rows, k) == None)
            && (r.Failure? ==> exists j: nat :: j < |rows| && EditFault(nodes, rows, j) == Some(r.error)
                                 && forall k :: 0 <= k < j ==> EditFault(nodes, rows, k) == None)
    decreases |rows| - n
  {
    hide Editable, EditOk, Index;
    if n < |rows| {
      assert rows[n..][0] == rows[n] && rows[n..][1..] == rows[n + 1..];
      TargetIs(nodes, now, rows[n].id, Named(rows, n));
      assert Named(rows, n + 1) == Named(rows, n) + {rows[n].id};
      if EditFault(nodes, rows, n) == None {
        var i := Target(now, rows[n].id, Named(rows, n)).value;
        var next := now[i := Edited(now[i], rows[n])];
        assert SameTargets(nodes, next);
        hide Edited, EditFault, Target;
        EditsFrom(nodes, next, rows, n + 1);
      }
    }
  }

  lemma {:induction false} TargetsFrom(nodes: seq<Node>, ids: seq<Id>, n: nat)
    requires NoDup(Keys(nodes, NodeId)) && n <= |ids|
    requires forall k :: 0 <= k < n ==> TargetFault(nodes, ids[k], ids[k] in ids[..k]) == None
    ensures var r := Targets(nodes, ids[n..], Elements(ids[..n]));
            && (r.Success? <==> forall k :: 0 <= k < |ids| ==> TargetFault(nodes, ids[k], ids[k] in ids[..k]) == None)
            && (r.Failure? ==>
                  exists j: nat :: j < |ids| && TargetFault(nodes, ids[j], ids[j] in ids[..j]) == Some(r.error)
                                 && forall k :: 0 <= k < j ==> TargetFault(nodes, ids[k], ids[k] in ids[..k]) == None)
    decreases |ids| - n
  {
    hide Editable, Index;
    if n < |ids| {
      assert ids[n..][0] == ids[n] && ids[n..][1..] == ids[n + 1..];
      TargetIs(nodes, nodes, ids[n], Elements(ids[..n]));
      assert ids[..n + 1] == ids[..n] + [ids[n]];
      assert Elements(ids[..n + 1]) == Elements(ids[..n]) + {ids[n]};
      hide TargetFault, Target;
      if TargetFault(nodes, ids[n], ids[n] in ids[..n]) == None {
        TargetsFrom(nodes, ids, n + 1);
      }
    }
  }

  lemma EndAt(nodes: seq<Node>, id: Id)
    requires NoDup(Keys(nodes, NodeId))
    ensures At(nodes, NodeId, id).Some? <==> id in ById(nodes)
    ensures At(nodes, NodeId, id).Some? ==> nodes[At(nodes, NodeId, id).value] == ById(nodes)[id]
  {
    IndexHolds(nodes, NodeId);
    if At(nodes, NodeId, id).Some? {
      assert nodes[At(nodes, NodeId, id).value] in nodes;
    }
  }

  lemma JoinFaultIs(g: Graph, rows: seq<Edge>, n: nat)
    requires NoDup(Keys(g.nodes, NodeId)) && n < |rows|
    ensures NotJoined(g.nodes, g.edges + rows[..n], rows[n]) == JoinFault(g, rows, n)
  {
    EndAt(g.nodes, rows[n].source);
    EndAt(g.nodes, rows[n].target);
    NotYetAt(g.edges + rows[..n], EdgeId, rows[n].id);
    hide Editable, Annotation, Index, At;
  }

  lemma {:induction false} JoinsFrom(g: Graph, rows: seq<Edge>, n: nat)
    requires NoDup(Keys(g.nodes, NodeId)) && n <= |rows| && forall k :: 0 <= k < n ==> JoinFault(g, rows, k) == None
    ensures var r := ConnectRows(g.nodes, g.edges + rows[..n], rows[n..]);
            && (r.Success? <==> forall k :: 0 <= k < |rows| ==> JoinFault(g, rows, k) == None)
            && (r.Failure? ==> exists j: nat :: j < |rows| && JoinFault(g, rows, j) == Some(r.error)
                                 && forall k :: 0 <= k < j ==> JoinFault(g, rows, k) == None)
    decreases |rows| - n
  {
    if n < |rows| {
      assert rows[n..][0] == rows[n] && rows[n..][1..] == rows[n + 1..];
      JoinFaultIs(g, rows, n);
      hide JoinFault, NotJoined;
      if JoinFault(g, rows, n) == None {
        assert g.edges + rows[..n] + [rows[n]] == g.edges + rows[..n + 1];
        JoinsFrom(g, rows, n + 1);
      }
    }
  }

  lemma EdgeAt(edges: seq<Edge>, id: Id)
    requires NoDup(Keys(edges, EdgeId)) && At(edges, EdgeId, id).Some?
    ensures (exists e | e in edges :: e.id == id && !Annotation(e)) <==> !Annotation(edges[At(edges, EdgeId, id).value])
  {
    IndexHolds(edges, EdgeId);
    assert edges[At(edges, EdgeId, id).value] in edges;
    hide Annotation;
  }

  lemma {:induction false} CutsFrom(edges: seq<Edge>, ids: seq<Id>, n: nat)
    requires NoDup(Keys(edges, EdgeId)) && n <= |ids| && forall k :: 0 <= k < n ==> CutFault(edges, ids, k) == None
    ensures var r := CutRows(edges, ids[n..], Elements(ids[..n]));
            && (r.Success? <==> forall k :: 0 <= k < |ids| ==> CutFault(edges, ids, k) == None)
            && (r.Failure? ==> exists j: nat :: j < |ids| && CutFault(edges, ids, j) == Some(r.error)
                                 && forall k :: 0 <= k < j ==> CutFault(edges, ids, k) == None)
    decreases |ids| - n
  {
    hide Annotation;
    if n < |ids| {
      assert ids[n..][0] == ids[n] && ids[n..][1..] == ids[n + 1..];
      NotYetAt(edges, EdgeId, ids[n]);
      if At(edges, EdgeId, ids[n]).Some? {
        EdgeAt(edges, ids[n]);
      }
      assert ids[..n + 1] == ids[..n] + [ids[n]];
      assert Elements(ids[..n + 1]) == Elements(ids[..n]) + {ids[n]};
      if CutFault(edges, ids, n) == None {
        CutsFrom(edges, ids, n + 1);
      }
    }
  }

  // Whole commands.

  lemma DeleteTargets(g: Graph, ids: seq<Id>)
    requires NoDup(Keys(g.nodes, NodeId))
    ensures var r := Targets(g.nodes, ids, {});
            && (r.Success? ==> NoFault(g, DeleteNodes(ids)) && r.value == Elements(ids))
            && (r.Failure? ==> exists j: nat :: FirstFault(g, DeleteNodes(ids), r.error, j))
  {
    TargetsFrom(g.nodes, ids, 0);
    assert ids[0..] == ids && Elements(ids[..0]) == {};
    TargetsTake(g.nodes, ids, {});
    assert {} + Elements(ids) == Elements(ids);
    hide TargetFault, Targets, Editable, Index, NoDup, Keys;
    var r := Targets(g.nodes, ids, {});
    if r.Failure? {
      var j: nat :| j < |ids| && TargetFault(g.nodes, ids[j], ids[j] in ids[..j]) == Some(r.error)
        && forall k :: 0 <= k < j ==> TargetFault(g.nodes, ids[k], ids[k] in ids[..k]) == None;
      assert FirstFault(g, DeleteNodes(ids), r.error, j);
    }
  }

  lemma DeleteFaults(g: Graph, ids: seq<Id>, error: Error)
    requires NoDup(Keys(g.nodes, NodeId)) && Deleted(g, ids) == Failure(error)
    ensures (exists j: nat :: FirstFault(g, DeleteNodes(ids), error, j))
         || (NoFault(g, DeleteNodes(ids)) && TakesProtected(g, ids) && error == UnsupportedCommand)
  {
    DeleteTargets(g, ids);
    hide FirstFault, NoFault, Targets, Editable, Annotation, NoDup, Keys, Removed;
  }

  lemma DeleteDone(g: Graph, ids: seq<Id>)
    requires NoDup(Keys(g.nodes, NodeId)) && Deleted(g, ids).Success?
    ensures NoFault(g, DeleteNodes(ids)) && !TakesProtected(g, ids)
  {
    DeleteTargets(g, ids);
    hide FirstFault, NoFault, Targets, Editable, Annotation, NoDup, Keys, Removed;
  }

  /** A row list that is carried out has no fault, and one that is refused is refused for its first fault. */
  lemma RowFaults(g: Graph, c: Command)
    requires WellFormed(g) && Batch(c) && !c.DeleteNodes? && BatchSize(RowCount(c))
    ensures After(g, c).Success? <==> NoFault(g, c)
    ensures After(g, c).Failure? ==> exists j: nat :: FirstFault(g, c, After(g, c).error, j)
  {
    hide AddFault, EditFault, JoinFault, CutFault, AddRows, EditRows, ConnectRows, CutRows, Without;
    match c {
      case AddNodes(rows) =>
        AddsFrom(g.nodes, rows, 0);
        assert rows[0..] == rows && g.nodes + rows[..0] == g.nodes;
        AddsSay(g, rows);
      case EditNodes(rows) =>
        EditsFrom(g.nodes, g.nodes, rows, 0);
        assert rows[0..] == rows && Named(rows, 0) == {};
        EditsSay(g, rows);
      case Connect(rows) =>
        JoinsFrom(g, rows, 0);
        assert rows[0..] == rows && g.edges + rows[..0] == g.edges;
        JoinsSay(g, rows);
      case Disconnect(ids) =>
        CutsFrom(g.edges, ids, 0);
        assert ids[0..] == ids && Elements(ids[..0]) == {};
        CutsSay(g, ids);
    }
  }

  lemma AddsSay(g: Graph, rows: seq<Node>)
    ensures forall error, j: nat :: FirstFault(g, AddNodes(rows), error, j) <==>
              j < |rows| && AddFault(g.nodes, rows, j) == Some(error)
              && forall k :: 0 <= k < j ==> AddFault(g.nodes, rows, k) == None
    ensures NoFault(g, AddNodes(rows)) <==> forall k :: 0 <= k < |rows| ==> AddFault(g.nodes, rows, k) == None
  {
    hide AddFault;
    assert forall k: nat :: k < |rows| ==> Fault(g, AddNodes(rows), k) == AddFault(g.nodes, rows, k);
  }

  lemma EditsSay(g: Graph, rows: seq<Edit>)
    ensures forall error, j: nat :: FirstFault(g, EditNodes(rows), error, j) <==>
              j < |rows| && EditFault(g.nodes, rows, j) == Some(error)
              && forall k :: 0 <= k < j ==> EditFault(g.nodes, rows, k) == None
    ensures NoFault(g, EditNodes(rows)) <==> forall k :: 0 <= k < |rows| ==> EditFault(g.nodes, rows, k) == None
  {
    hide EditFault;
    assert forall k: nat :: k < |rows| ==> Fault(g, EditNodes(rows), k) == EditFault(g.nodes, rows, k);
  }

  lemma JoinsSay(g: Graph, rows: seq<Edge>)
    ensures forall error, j: nat :: FirstFault(g, Connect(rows), error, j) <==>
              j < |rows| && JoinFault(g, rows, j) == Some(error)
              && forall k :: 0 <= k < j ==> JoinFault(g, rows, k) == None
    ensures NoFault(g, Connect(rows)) <==> forall k :: 0 <= k < |rows| ==> JoinFault(g, rows, k) == None
  {
    hide JoinFault;
    assert forall k: nat :: k < |rows| ==> Fault(g, Connect(rows), k) == JoinFault(g, rows, k);
  }

  lemma CutsSay(g: Graph, ids: seq<Id>)
    ensures forall error, j: nat :: FirstFault(g, Disconnect(ids), error, j) <==>
              j < |ids| && CutFault(g.edges, ids, j) == Some(error)
              && forall k :: 0 <= k < j ==> CutFault(g.edges, ids, k) == None
    ensures NoFault(g, Disconnect(ids)) <==> forall k :: 0 <= k < |ids| ==> CutFault(g.edges, ids, k) == None
  {
    hide CutFault;
    assert forall k: nat :: k < |ids| ==> Fault(g, Disconnect(ids), k) == CutFault(g.edges, ids, k);
  }

  lemma SingleFault(g: Graph, c: Command, error: Error)
    requires WellFormed(g) && !Batch(c)
    ensures After(g, c) == Failure(error) <==> Fault(g, c, 0) == Some(error)
    ensures After(g, c).Success? <==> Fault(g, c, 0) == None
    ensures FirstFault(g, c, error, 0) <==> Fault(g, c, 0) == Some(error)
    ensures forall j: nat :: FirstFault(g, c, error, j) ==> j == 0
  {
    if c.UpdateConfig? {
      TargetIs(g.nodes, g.nodes, c.id, {});
    }
    hide Editable, ConfigOk, Index, NodeOk, Target, TargetFault, ContentOk, EdgesOk;
  }

  lemma OneFirst(g: Graph, c: Command, a: Error, i: nat, b: Error, j: nat)
    requires FirstFault(g, c, a, i) && FirstFault(g, c, b, j)
    ensures a == b
  {
    hide Fault;
  }

  /** A command is refused with an error exactly if its size, its first faulty row or what it would take says so. */
  lemma RefusedIff(g: Graph, c: Command, error: Error)
    requires WellFormed(g)
    ensures After(g, c) == Failure(error) <==> Refuses(g, c, error)
  {
    if !Batch(c) {
      SingleFault(g, c, error);
      hide Fault, FirstFault, After;
    } else if BatchSize(RowCount(c)) {
      if c.DeleteNodes? {
        DeleteRefused(g, c.ids, error);
      } else {
        RowFaults(g, c);
        hide After, Fault;
        if j: nat :| FirstFault(g, c, error, j) {
          assert After(g, c).Failure?;
          var i: nat :| FirstFault(g, c, After(g, c).error, i);
          OneFirst(g, c, error, j, After(g, c).error, i);
        }
      }
    } else {
      hide AddRows, EditRows, ConnectRows, CutRows, Deleted, Fault, Without;
    }
  }

  lemma DeleteRefused(g: Graph, ids: seq<Id>, error: Error)
    requires WellFormed(g) && BatchSize(|ids|)
    ensures After(g, DeleteNodes(ids)) == Failure(error) <==> Refuses(g, DeleteNodes(ids), error)
  {
    AfterDelete(g, ids);
    assert NoDup(Keys(g.nodes, NodeId));
    var c := DeleteNodes(ids);
    if Deleted(g, ids).Success? {
      DeleteDone(g, ids);
    } else {
      DeleteFaults(g, ids, Deleted(g, ids).error);
    }
    hide After, Deleted, Fault, TakesProtected, WellFormed, NoDup;
    if j: nat :| FirstFault(g, c, error, j) {
      assert Deleted(g, ids).Failure?;
      if i: nat :| FirstFault(g, c, Deleted(g, ids).error, i) {
        OneFirst(g, c, error, j, Deleted(g, ids).error, i);
      }
    }
  }

  // Whole batches.

  /** The index of a failure is that of the first command that is refused, or whose result is not sound. */
  lemma {:induction false} FailureIndex(g: Graph, cs: seq<Command>, index: nat)
    requires AfterAll(g, cs, index).Failure?
    ensures var k := AfterAll(g, cs, index).error.index - index;
            var cause := AfterAll(g, cs, index).error.cause;
            && 0 <= k < |cs| && AfterAll(g, cs[..k], index).Success?
            && var h := AfterAll(g, cs[..k], index).value;
               && (After(h, cs[k]).Failure? ==> cause == After(h, cs[k]).error)
               && (After(h, cs[k]).Success? ==> !Sound(After(h, cs[k]).value) && cause == InvalidCommand)
    decreases |cs|
  {
    hide After, Sound;
    var error := AfterAll(g, cs, index).error;
    if After(g, cs[0]).Success? && Sound(After(g, cs[0]).value) {
      var next := After(g, cs[0]).value;
      FailureIndex(next, cs[1..], index + 1);
      var k := error.index - index;
      assert cs[1..][..k - 1] == cs[..k][1..] && cs[1..][k - 1] == cs[k] && cs[..k][0] == cs[0];
    } else {
      assert cs[..0] == [];
    }
  }
}
