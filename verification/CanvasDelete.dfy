/** DeleteNodes keeps the graph sound and the meaning of everything that stays. */
module CanvasDelete {
  import opened Wrappers
  import opened Ids
  import opened Rows
  import opened CanvasNodes
  import opened CanvasCommands
  import opened CanvasGraph

  // Which nodes are there afterwards.

  lemma KeysLeft(nodes: seq<Node>, byId: map<Id, Node>, removed: set<Id>)
    requires Distinct(Keys(nodes, NodeId))
    ensures Distinct(Keys(Each(nodes, n => Left(byId, removed, n)), NodeId))
  {
    assert Keys(Each(nodes, n => Left(byId, removed, n)), NodeId) == Keys(nodes, NodeId);
  }

  lemma RemovedMembers(g: Graph, removed: set<Id>)
    requires Distinct(Keys(g.nodes, NodeId))
    ensures var after := Removed(g, removed).nodes;
            && Distinct(Keys(after, NodeId)) && |after| <= |g.nodes|
            && (forall n | n in g.nodes && n.id !in removed :: Left(ById(g.nodes), removed, n) in after)
            && (forall m | m in after :: exists n | n in g.nodes && n.id !in removed ::
                  m == Left(ById(g.nodes), removed, n))
  {
    hide Left;
    var kept := Without(g.nodes, (n: Node) => n.id in removed);
    WithoutKeys(g.nodes, NodeId, (n: Node) => n.id in removed);
    KeysLeft(kept, ById(g.nodes), removed);
    EachMembers(kept, n => Left(ById(g.nodes), removed, n));
  }

  /** The nodes after a deletion, by identity. */
  ghost predicate LeftOver(a: map<Id, Node>, removed: set<Id>, b: map<Id, Node>) {
    && (forall id | id in b :: id in a && id !in removed)
    && (forall id | id in a && id !in removed :: id in b && b[id] == Left(a, removed, a[id]))
  }

  lemma RemovedIndex(g: Graph, removed: set<Id>)
    requires Distinct(Keys(g.nodes, NodeId))
    ensures LeftOver(ById(g.nodes), removed, ById(Removed(g, removed).nodes))
  {
    var a, after := ById(g.nodes), Removed(g, removed).nodes;
    RemovedMembers(g, removed);
    IndexHolds(g.nodes, NodeId);
    IndexHolds(after, NodeId);
    forall id | id in ById(after) ensures id in a && id !in removed {
      var n :| n in g.nodes && n.id !in removed && ById(after)[id] == Left(a, removed, n);
    }
    forall id | id in a && id !in removed ensures id in ById(after) && ById(after)[id] == Left(a, removed, a[id]) {
      assert Left(a, removed, a[id]) in after;
    }
  }

  // The forest.

  lemma {:induction false} ClimbsLeft(a: map<Id, Node>, removed: set<Id>, b: map<Id, Node>, id: Id, k: nat)
    requires LeftOver(a, removed, b) && id in b && Climbs(a, id, k)
    ensures Climbs(b, id, k)
    decreases k
  {
    hide Cleared;
    if b[id].parent.Some? {
      ClimbsLeft(a, removed, b, b[id].parent.value, k - 1);
    }
  }

  lemma ForestLeft(g: Graph, removed: set<Id>)
    requires Distinct(Keys(g.nodes, NodeId)) && Forest(g.nodes)
    ensures Forest(Removed(g, removed).nodes)
  {
    var a, b := ById(g.nodes), ById(Removed(g, removed).nodes);
    RemovedIndex(g, removed);
    hide Index, Removed;
    forall id | id in b ensures Rooted(b, id) {
      assert Rooted(a, id);
      var k: nat :| Climbs(a, id, k);
      ClimbsLeft(a, removed, b, id, k);
    }
  }

  // References.

  lemma MediaLeft(a: map<Id, Node>, removed: set<Id>, b: map<Id, Node>, id: Id, kind: Kind)
    requires LeftOver(a, removed, b) && id !in removed && MediaNode(a, id, kind)
    ensures MediaNode(b, id, kind) && b[id].ref == a[id].ref
  {
  }

  lemma ResolvesLeft(a: map<Id, Node>, removed: set<Id>, b: map<Id, Node>, c: Config)
    requires LeftOver(a, removed, b) && Resolves(a, c)
    ensures Resolves(b, Cleared(a, removed, c))
  {
    if c.timeline.Some? {
      ClipsResolve(a, removed, b, c.timeline.value);
    }
    if c.director.Some? {
      ObjectsResolve(a, removed, b, c.director.value);
    }
    if c.batch.Some? {
      RowsResolve(a, removed, b, c.batch.value);
    }
  }

  lemma ClipsResolve(a: map<Id, Node>, removed: set<Id>, b: map<Id, Node>, c: TimelineConfig)
    requires LeftOver(a, removed, b) && forall i :: 0 <= i < |c.clips| ==> ClipResolves(a, c.clips[i])
    ensures var d := ClearTimeline(a, removed, c); forall i :: 0 <= i < |d.clips| ==> ClipResolves(b, d.clips[i])
  {
    var d := ClearTimeline(a, removed, c);
    forall i | 0 <= i < |d.clips| ensures ClipResolves(b, d.clips[i]) {
      hide LeftOver;
      if d.clips[i].node.Some? {
        MediaLeft(a, removed, b, c.clips[i].node.value, c.clips[i].kind);
      }
    }
  }

  lemma ObjectsResolve(a: map<Id, Node>, removed: set<Id>, b: map<Id, Node>, c: DirectorConfig)
    requires LeftOver(a, removed, b) && forall i :: 0 <= i < |c.objects| ==> ObjectResolves(a, c.objects[i])
    ensures var d := ClearDirector(a, removed, c); forall i :: 0 <= i < |d.objects| ==> ObjectResolves(b, d.objects[i])
  {
    var d := ClearDirector(a, removed, c);
    forall i | 0 <= i < |d.objects| ensures ObjectResolves(b, d.objects[i]) {
      hide LeftOver;
      var x := c.objects[i];
      if d.objects[i].node.Some? {
        MediaLeft(a, removed, b, x.node.value, if x.kind == Billboard then Image else Model);
      }
    }
  }

  lemma RowsResolve(a: map<Id, Node>, removed: set<Id>, b: map<Id, Node>, c: BatchConfig)
    requires LeftOver(a, removed, b) && forall i :: 0 <= i < |c.rows| ==> RowResolves(a, c.rows[i])
    ensures var d := ClearBatch(removed, c); forall i :: 0 <= i < |d.rows| ==> RowResolves(b, d.rows[i])
  {
    var d := ClearBatch(removed, c);
    forall i | 0 <= i < |d.rows| ensures RowResolves(b, d.rows[i]) {
      hide LeftOver;
      forall j | 0 <= j < |d.rows[i].inputs| ensures SlotResolves(b, d.rows[i].inputs[j]) {
        assert SlotResolves(a, c.rows[i].inputs[j]);
        if d.rows[i].inputs[j].Some? {
          MediaLeft(a, removed, b, c.rows[i].inputs[j].value, Image);
        }
      }
    }
  }

  lemma ToolsLeft(g: Graph, removed: set<Id>)
    requires Distinct(Keys(g.nodes, NodeId)) && ToolsResolve(g.nodes)
    ensures ToolsResolve(Removed(g, removed).nodes)
  {
    var a, after := ById(g.nodes), Removed(g, removed).nodes;
    RemovedIndex(g, removed);
    RemovedMembers(g, removed);
    hide LeftOver, Resolves, Removed, Index;
    forall i | 0 <= i < |after| ensures Resolves(ById(after), after[i].config) {
      hide Cleared;
      assert after[i] in after;
      var n :| n in g.nodes && n.id !in removed && after[i] == Left(a, removed, n);
      var j :| 0 <= j < |g.nodes| && g.nodes[j] == n;
      ResolvesLeft(a, removed, ById(after), n.config);
    }
  }

  // Content.

  /** Only editable nodes are removed. */
  ghost predicate OnlyEditable(a: map<Id, Node>, removed: set<Id>) {
    forall id | id in removed :: id in a && Editable(a[id])
  }

  lemma ClipLeft(a: map<Id, Node>, removed: set<Id>, c: Clip)
    requires OnlyEditable(a, removed) && ClipResolves(a, c) && ClipOk(c)
    ensures ClipOk(ClearClip(a, removed, c))
  {
  }

  lemma ClipsLeft(a: map<Id, Node>, removed: set<Id>, c: TimelineConfig)
    requires OnlyEditable(a, removed) && TimelineOk(c)
    requires forall i :: 0 <= i < |c.clips| ==> ClipResolves(a, c.clips[i])
    ensures TimelineOk(ClearTimeline(a, removed, c))
  {
    var d := ClearTimeline(a, removed, c);
    forall i | 0 <= i < |d.clips| ensures OnTrack(Index(d.tracks, TrackId), d.clips[i]) && ClipOk(d.clips[i]) {
      hide OnlyEditable, ClipOk, ClipResolves;
      ClipLeft(a, removed, c.clips[i]);
    }
    hide ClipOk, OnTrack, OnlyEditable, ClipResolves, Index;
    assert Keys(d.clips, ClipId) == Keys(c.clips, ClipId);
    forall i, j | 0 <= i < j < |d.clips| && d.clips[i].track == d.clips[j].track
      ensures !Overlap(d.clips[i], d.clips[j])
    {
      assert !Overlap(c.clips[i], c.clips[j]);
    }
  }

  lemma ObjectLeft(a: map<Id, Node>, removed: set<Id>, x: Object)
    requires OnlyEditable(a, removed) && ObjectResolves(a, x) && ObjectOk(x)
    ensures ObjectOk(ClearObject(a, removed, x))
  {
    hide FramesOk, BonesOk, Distinct, Keys;
  }

  lemma ObjectsLeft(a: map<Id, Node>, removed: set<Id>, c: DirectorConfig)
    requires OnlyEditable(a, removed) && DirectorOk(c)
    requires forall i :: 0 <= i < |c.objects| ==> ObjectResolves(a, c.objects[i])
    ensures DirectorOk(ClearDirector(a, removed, c))
  {
    var d := ClearDirector(a, removed, c);
    forall i | 0 <= i < |d.objects| ensures ObjectOk(d.objects[i]) {
      hide OnlyEditable, ObjectOk, ObjectResolves;
      ObjectLeft(a, removed, c.objects[i]);
    }
    hide ObjectOk, OutputsOk, OnlyEditable, ObjectResolves, ClearObject;
    assert Keys(d.objects, ObjectId) == Keys(c.objects, ObjectId) by {
      assert forall i :: 0 <= i < |c.objects| ==> ClearObject(a, removed, c.objects[i]).id == c.objects[i].id by {
        ClearedObjectIds(a, removed, c.objects);
      }
    }
    SameOutputs(c, d);
  }

  lemma ClearedObjectIds(a: map<Id, Node>, removed: set<Id>, objects: seq<Object>)
    ensures forall i :: 0 <= i < |objects| ==> ClearObject(a, removed, objects[i]).id == objects[i].id
  {
  }

  lemma SameOutputs(c: DirectorConfig, d: DirectorConfig)
    requires OutputsOk(c) && d == c.(objects := d.objects)
    ensures OutputsOk(d)
  {
  }

  lemma RowsLeft(removed: set<Id>, c: BatchConfig)
    requires BatchOk(c)
    ensures BatchOk(ClearBatch(removed, c))
  {
    var d := ClearBatch(removed, c);
    forall i | 0 <= i < |d.rows| ensures RowOk(d.rows[i], |d.columns|) {
      assert RowOk(c.rows[i], |c.columns|);
    }
    assert Keys(d.rows, RowId) == Keys(c.rows, RowId);
  }

  lemma ConfigLeft(a: map<Id, Node>, removed: set<Id>, kind: Kind, c: Config)
    requires OnlyEditable(a, removed) && Resolves(a, c) && ConfigOk(kind, c)
    ensures ConfigOk(kind, Cleared(a, removed, c))
  {
    hide OnlyEditable, TimelineOk, DirectorOk, BatchOk, GenerationOk;
    if c.timeline.Some? {
      ClipsLeft(a, removed, c.timeline.value);
    }
    if c.director.Some? {
      ObjectsLeft(a, removed, c.director.value);
    }
    if c.batch.Some? {
      RowsLeft(removed, c.batch.value);
    }
  }

  lemma NodeLeft(a: map<Id, Node>, removed: set<Id>, n: Node)
    requires OnlyEditable(a, removed) && Resolves(a, n.config)
    ensures Editable(Left(a, removed, n)) == Editable(n)
    ensures Editable(n) && NodeOk(n) ==> NodeOk(Left(a, removed, n))
  {
    hide Resolves, ConfigOk, Cleared, OnlyEditable;
    if ConfigOk(n.kind, n.config) {
      ConfigLeft(a, removed, n.kind, n.config);
    }
  }

  lemma ContentLeft(g: Graph, removed: set<Id>)
    requires Distinct(Keys(g.nodes, NodeId)) && ToolsResolve(g.nodes) && ContentOk(g.nodes)
    requires OnlyEditable(ById(g.nodes), removed)
    ensures ContentOk(Removed(g, removed).nodes)
  {
    var a, after := ById(g.nodes), Removed(g, removed).nodes;
    RemovedMembers(g, removed);
    hide OnlyEditable, Resolves, Removed, Index, Left, NodeOk, Editable;
    forall m | m in after && Editable(m) ensures NodeOk(m) {
      var n :| n in g.nodes && n.id !in removed && m == Left(a, removed, n);
      var j :| 0 <= j < |g.nodes| && g.nodes[j] == n;
      NodeLeft(a, removed, n);
    }
  }

  lemma EdgesLeft(g: Graph, removed: set<Id>)
    requires WellFormed(g)
    ensures var after := Removed(g, removed); EdgesOk(ById(after.nodes), after.edges) && |after.edges| <= |g.edges|
    ensures forall e | e in g.edges && !Touches(e, removed) :: e in Removed(g, removed).edges
  {
    hide NodeOk, Editable, Left;
    RemovedIndex(g, removed);
    WithoutKeys(g.edges, EdgeId, e => Touches(e, removed));
  }

  /** Removing editable nodes from a valid graph gives a valid graph: no later check can refuse it. */
  lemma RemovedGraphOk(g: Graph, removed: set<Id>)
    requires GraphOk(g) && OnlyEditable(ById(g.nodes), removed)
    ensures GraphOk(Removed(g, removed))
  {
    RemovedMembers(g, removed);
    ForestLeft(g, removed);
    ToolsLeft(g, removed);
    ContentLeft(g, removed);
    EdgesLeft(g, removed);
    hide Removed, Forest, ToolsResolve, OnlyEditable, NodeOk, Editable;
  }

  // Exactly when a deletion succeeds.

  ghost predicate DeleteAllowed(g: Graph, ids: seq<Id>) {
    && NoDup(ids)
    && (forall id | id in ids :: id in ById(g.nodes) && Editable(ById(g.nodes)[id]))
    && (forall e | e in g.edges && !Annotation(e) :: !Touches(e, Elements(ids)))
    && (forall n | n in g.nodes && !Editable(n) && n.parent.Some? && n.id !in ids :: n.parent.value !in ids)
  }

  lemma TargetById(nodes: seq<Node>, id: Id, seen: set<Id>)
    requires NoDup(Keys(nodes, NodeId))
    ensures Target(nodes, id, seen).Success? <==> id in ById(nodes) && Editable(ById(nodes)[id]) && id !in seen
  {
    hide Editable;
    IndexHolds(nodes, NodeId);
    var at := At(nodes, NodeId, id);
    if at.Some? {
      assert nodes[at.value] in nodes;
    }
    if id in ById(nodes) {
      var i :| 0 <= i < |nodes| && nodes[i] == ById(nodes)[id];
    }
  }

  lemma {:induction false} TargetsTake(nodes: seq<Node>, ids: seq<Id>, seen: set<Id>)
    requires NoDup(Keys(nodes, NodeId))
    ensures Targets(nodes, ids, seen).Success? <==>
              NoDup(ids) && forall id | id in ids :: id in ById(nodes) && Editable(ById(nodes)[id]) && id !in seen
    ensures Targets(nodes, ids, seen).Success? ==> Targets(nodes, ids, seen).value == seen + Elements(ids)
    decreases |ids|
  {
    if ids != [] {
      var first, rest := ids[0], ids[1..];
      assert ids == [first] + rest;
      NoDupParts([first], rest);
      TargetById(nodes, first, seen);
      TargetsTake(nodes, rest, seen + {first});
      hide Editable, Index, Keys, NoDup;
      assert forall id :: id in ids <==> id == first || id in rest;
    }
  }

  lemma DeletedIff(g: Graph, ids: seq<Id>)
    requires NoDup(Keys(g.nodes, NodeId))
    ensures Deleted(g, ids).Success? <==> DeleteAllowed(g, ids)
    ensures Deleted(g, ids).Success? ==>
              Deleted(g, ids).value == Removed(g, Elements(ids)) && OnlyEditable(ById(g.nodes), Elements(ids))
  {
    hide Editable, Removed, Targets, Index, NoDup, Keys;
    TargetsTake(g.nodes, ids, {});
    assert {} + Elements(ids) == Elements(ids);
  }

  lemma AppliedOne(g: Graph, c: Command)
    ensures Applied(g, [c]).Success? <==> After(g, c).Success? && Sound(After(g, c).value)
    ensures Applied(g, [c]).Success? ==> Applied(g, [c]).value == After(g, c).value
  {
    hide After, Sound;
    assert [c][1..] == [];
    if After(g, c).Success? {
      assert AfterAll(After(g, c).value, [], 1) == Success(After(g, c).value);
    }
  }

  lemma AfterDelete(g: Graph, ids: seq<Id>)
    ensures After(g, DeleteNodes(ids)) == if BatchSize(|ids|) then Deleted(g, ids) else Failure(InvalidCommand)
  {
  }

  /** On a valid graph a DeleteNodes command is accepted exactly when the user may delete these nodes. */
  lemma DeletionNeverRejected(g: Graph, ids: seq<Id>)
    requires GraphOk(g)
    ensures Applied(g, [DeleteNodes(ids)]).Success? <==> BatchSize(|ids|) && DeleteAllowed(g, ids)
    ensures BatchSize(|ids|) && DeleteAllowed(g, ids) ==>
              Applied(g, [DeleteNodes(ids)]) == Success(Removed(g, Elements(ids)))
  {
    DeletedIff(g, ids);
    if DeleteAllowed(g, ids) {
      RemovedGraphOk(g, Elements(ids));
    }
    hide DeleteAllowed, Removed, OnlyEditable, WellFormed, Forest, ToolsResolve, Deleted, After, Applied;
    AppliedOne(g, DeleteNodes(ids));
    AfterDelete(g, ids);
  }
}
