/** Apply: a private graph in memory that a list of commands is worked out on. */
module CanvasDraft {
  import opened Wrappers
  import opened Ids
  import opened Rows
  import opened CanvasNodes
  import opened CanvasChecks
  import opened CanvasCommands
  import opened CanvasHeap

  method ValidNode(n: Node) returns (ok: bool)
    ensures ok == NodeOk(n)
  {
    if !TitleOk(n.title) || !Coordinate(n.x) || !Coordinate(n.y)
       || !Dimension(n.kind, n.width) || !Dimension(n.kind, n.height) {
      return false;
    }
    hide ConfigOk;
    ok := ValidConfig(n.kind, n.config);
    ok := ok && ZOk(n.z);
  }

  // Rewriting the references to removed nodes. No configuration that existed before is written to.

  method Clone<T>(a: array<T>) returns (b: array<T>)
    ensures fresh(b) && b[..] == a[..]
  {
    b := new T[a.Length](i requires 0 <= i < a.Length reads a => a[i]);
  }

  /** What the removed nodes stood for. */
  ghost predicate AssetsFor(assets: map<Id, Option<Id>>, byId: map<Id, Node>, removed: set<Id>) {
    forall id | id in removed :: id in assets && assets[id] == RefOf(byId, id)
  }

  /** The same nodes, standing for the same assets. */
  ghost predicate SameRefs(a: map<Id, Node>, b: map<Id, Node>) {
    a.Keys == b.Keys && forall id | id in a :: a[id].ref == b[id].ref
  }

  method AssetsOf(nodes: seq<HeapNode>, ghost values: seq<Node>, ghost byId: map<Id, Node>, removed: set<Id>)
    returns (assets: map<Id, Option<Id>>)
    requires values == Values(nodes) && removed <= byId.Keys && SameRefs(Index(values, NodeId), byId)
    ensures AssetsFor(assets, byId, removed) && Values(nodes) == values
  {
    assets := map[];
    NoAssets(values, removed);
    assert |values| == |nodes|;
    hide *;
    for i := 0 to |nodes|
      invariant Values(nodes) == values && AssetsTo(assets, values, removed, i)
    {
      NextAssets(assets, values, removed, i);
      ValueAt(nodes, i);
      if nodes[i].face.id in removed {
        assets := assets[nodes[i].face.id := nodes[i].face.ref];
      }
    }
    AllAssets(assets, values, byId, removed);
  }

  /** The table as far as `n`. */
  ghost predicate AssetsTo(assets: map<Id, Option<Id>>, values: seq<Node>, removed: set<Id>, n: nat) {
    && n <= |values|
    && (forall id | id in removed :: id in assets <==> id in Index(values[..n], NodeId))
    && (forall id | id in removed && id in assets :: assets[id] == Index(values[..n], NodeId)[id].ref)
  }

  lemma NoAssets(values: seq<Node>, removed: set<Id>)
    ensures AssetsTo(map[], values, removed, 0)
  {
  }

  lemma NextAssets(assets: map<Id, Option<Id>>, values: seq<Node>, removed: set<Id>, i: nat)
    requires i < |values| && AssetsTo(assets, values, removed, i)
    ensures AssetsTo(
              if values[i].id in removed then assets[values[i].id := values[i].ref] else assets,
              values, removed, i + 1)
  {
    NextRow(values, i, NodeId, {});
    hide Index;
  }

  lemma AllAssets(assets: map<Id, Option<Id>>, values: seq<Node>, byId: map<Id, Node>, removed: set<Id>)
    requires AssetsTo(assets, values, removed, |values|)
    requires removed <= byId.Keys && SameRefs(Index(values, NodeId), byId)
    ensures AssetsFor(assets, byId, removed)
  {
    assert values[..|values|] == values;
    hide Index;
  }

  method ClearClips(assets: map<Id, Option<Id>>, ghost byId: map<Id, Node>, removed: set<Id>, clips: array<Clip>)
    requires AssetsFor(assets, byId, removed)
    modifies clips
    ensures clips[..] == Each(old(clips[..]), x => ClearClip(byId, removed, x))
  {
    for j := 0 to clips.Length
      invariant forall i :: 0 <= i < j ==> clips[i] == ClearClip(byId, removed, old(clips[i]))
      invariant forall i :: j <= i < clips.Length ==> clips[i] == old(clips[i])
    {
      if clips[j].node.Some? && clips[j].node.value in removed {
        clips[j] := clips[j].(asset := assets[clips[j].node.value]);
        clips[j] := clips[j].(node := None);
      }
    }
  }

  method ClearObjects(assets: map<Id, Option<Id>>, ghost byId: map<Id, Node>, removed: set<Id>, objects: array<Object>)
    requires AssetsFor(assets, byId, removed)
    modifies objects
    ensures objects[..] == Each(old(objects[..]), x => ClearObject(byId, removed, x))
  {
    for j := 0 to objects.Length
      invariant forall i :: 0 <= i < j ==> objects[i] == ClearObject(byId, removed, old(objects[i]))
      invariant forall i :: j <= i < objects.Length ==> objects[i] == old(objects[i])
    {
      if objects[j].node.Some? && objects[j].node.value in removed {
        objects[j] := objects[j].(asset := assets[objects[j].node.value]);
        objects[j] := objects[j].(node := None);
      }
    }
  }

  method ClearSlots(removed: set<Id>, inputs: array<Option<Id>>)
    modifies inputs
    ensures inputs[..] == Each(old(inputs[..]), slot => ClearSlot(removed, slot))
  {
    for slot := 0 to inputs.Length
      invariant forall i :: 0 <= i < slot ==> inputs[i] == ClearSlot(removed, old(inputs[i]))
      invariant forall i :: slot <= i < inputs.Length ==> inputs[i] == old(inputs[i])
    {
      if inputs[slot].Some? && inputs[slot].value in removed {
        inputs[slot] := None;
      }
    }
  }

  /** The struct is copied, then its clips, then the copied clips are rewritten. */
  method ClearedTimeline(t: TimelineBox, assets: map<Id, Option<Id>>, ghost byId: map<Id, Node>, removed: set<Id>)
    returns (config: TimelineBox)
    requires AssetsFor(assets, byId, removed)
    ensures fresh(config) && fresh(config.clips) && config.Value() == ClearTimeline(byId, removed, t.Value())
  {
    config := new TimelineBox(t.tracks, t.clips, t.settings);
    config.clips := Clone(config.clips);
    ClearClips(assets, byId, removed, config.clips);
  }

  method ClearedDirector(d: DirectorBox, assets: map<Id, Option<Id>>, ghost byId: map<Id, Node>, removed: set<Id>)
    returns (config: DirectorBox)
    requires AssetsFor(assets, byId, removed)
    ensures fresh(config) && fresh(config.objects) && config.Value() == ClearDirector(byId, removed, d.Value())
  {
    config := new DirectorBox(d.rest, d.objects);
    config.objects := Clone(config.objects);
    ClearObjects(assets, byId, removed, config.objects);
  }

  method ClearedLine(x: Line, removed: set<Id>) returns (r: Line)
    ensures fresh(r.inputs) && LineValue(r) == ClearRow(removed, LineValue(x))
  {
    var inputs := Clone(x.inputs);
    ClearSlots(removed, inputs);
    r := x.(inputs := inputs);
  }

  /** Every row gets its own slots; the slots that were there are not written to. */
  method ClearLines(rows: array<Line>, removed: set<Id>)
    modifies rows
    ensures LineValues(rows[..]) == Each(old(LineValues(rows[..])), x => ClearRow(removed, x))
  {
    ghost var lines, values := rows[..], LineValues(rows[..]);
    hide LineValues, ClearRow;
    for j := 0 to rows.Length
      invariant forall i :: 0 <= i < j ==> LineValue(rows[i]) == ClearRow(removed, values[i])
      invariant forall i :: j <= i < rows.Length ==> rows[i] == lines[i]
      invariant forall i :: 0 <= i < |lines| ==> LineValue(lines[i]) == values[i]
    {
      var line := ClearedLine(rows[j], removed);
      rows[j] := line;
    }
  }

  method ClonedLines(b: BatchBox, removed: set<Id>) returns (rows: array<Line>)
    ensures fresh(rows) && LineValues(rows[..]) == Each(old(LineValues(b.rows[..])), x => ClearRow(removed, x))
  {
    hide ClearRow, LineValues;
    rows := Clone(b.rows);
    ClearLines(rows, removed);
  }

  method ClearedBatch(b: BatchBox, removed: set<Id>) returns (config: BatchBox)
    ensures fresh(config) && config.Value() == ClearBatch(removed, b.Value())
  {
    var rows := ClonedLines(b, removed);
    config := new BatchBox(b.profile, b.columns, rows, b.settings);
  }

  // The three steps of a deletion that rewrite configurations, over all nodes.

  function TimelineCleared(byId: map<Id, Node>, removed: set<Id>): Node -> Node {
    (n: Node) => n.(config := n.config.(timeline :=
      if n.config.timeline.Some? then Some(ClearTimeline(byId, removed, n.config.timeline.value)) else None))
  }

  function DirectorCleared(byId: map<Id, Node>, removed: set<Id>): Node -> Node {
    (n: Node) => n.(config := n.config.(director :=
      if n.config.director.Some? then Some(ClearDirector(byId, removed, n.config.director.value)) else None))
  }

  function BatchCleared(removed: set<Id>): Node -> Node {
    (n: Node) => n.(config := n.config.(batch :=
      if n.config.batch.Some? then Some(ClearBatch(removed, n.config.batch.value)) else None))
  }

  lemma EachNext<T>(s: seq<T>, i: nat, f: T -> T)
    requires i < |s|
    ensures Each(s[..i + 1], f) == Each(s[..i], f) + [f(s[i])]
  {
  }

  lemma EachAll<T>(s: seq<T>, f: T -> T)
    ensures Each(s[..0], f) == [] && s[..|s|] == s
  {
  }

  method ClearTimelineReferences(
    nodes: seq<HeapNode>, ghost values: seq<Node>, ghost byId: map<Id, Node>, removed: set<Id>)
    returns (r: seq<HeapNode>)
    requires values == Values(nodes) && removed <= byId.Keys && SameRefs(Index(values, NodeId), byId)
    ensures Values(r) == Each(values, TimelineCleared(byId, removed))
  {
    hide *;
    var assets := AssetsOf(nodes, values, byId, removed);
    r := ClearTimelines(nodes, assets, byId, removed, values);
  }

  method ClearTimelines(
    nodes: seq<HeapNode>, assets: map<Id, Option<Id>>, ghost byId: map<Id, Node>, removed: set<Id>,
    ghost values: seq<Node>)
    returns (r: seq<HeapNode>)
    requires AssetsFor(assets, byId, removed) && values == Values(nodes)
    ensures Values(r) == Each(values, TimelineCleared(byId, removed))
  {
    r := [];
    assert Values(r) == [] && |values| == |nodes|;
    EachAll(values, TimelineCleared(byId, removed));
    hide *;
    for i := 0 to |nodes|
      invariant Values(nodes) == values && Values(r) == Each(values[..i], TimelineCleared(byId, removed))
    {
      ValueAt(nodes, i);
      EachNext(values, i, TimelineCleared(byId, removed));
      var n := ClearTimelineNode(nodes, r, nodes[i], assets, byId, removed);
      r := r + [n];
    }
  }

  /** One turn of the loop: what was there, and what is done so far, does not change. */
  method ClearTimelineNode(
    ghost nodes: seq<HeapNode>, ghost done: seq<HeapNode>, n: HeapNode, assets: map<Id, Option<Id>>,
    ghost byId: map<Id, Node>, removed: set<Id>)
    returns (r: HeapNode)
    requires AssetsFor(assets, byId, removed)
    ensures Values(nodes) == old(Values(nodes))
    ensures Values(done + [r]) == old(Values(done)) + [TimelineCleared(byId, removed)(old(NodeValue(n)))]
  {
    ghost var all, a, b := nodes + done, Values(nodes), Values(done);
    ValuesJoin(nodes, done);
    hide AllBoxes, AllArrays, AllSlots, Values, ClearTimeline;
    r := n;
    if n.config.timeline.Some? {
      var config := ClearedTimeline(n.config.timeline.value, assets, byId, removed);
      r := r.(config := r.config.(timeline := Some(config)));
    }
    assert Values(all) == old(Values(all));
    ValuesJoin(nodes, done);
    SameParts(a, b, Values(nodes), Values(done));
    ValuesAppend(done, r);
  }

  method ClearDirectorReferences(
    nodes: seq<HeapNode>, ghost values: seq<Node>, ghost byId: map<Id, Node>, removed: set<Id>)
    returns (r: seq<HeapNode>)
    requires values == Values(nodes) && removed <= byId.Keys && SameRefs(Index(values, NodeId), byId)
    ensures Values(r) == Each(values, DirectorCleared(byId, removed))
  {
    hide *;
    var assets := AssetsOf(nodes, values, byId, removed);
    r := ClearDirectors(nodes, assets, byId, removed, values);
  }

  method ClearDirectors(
    nodes: seq<HeapNode>, assets: map<Id, Option<Id>>, ghost byId: map<Id, Node>, removed: set<Id>,
    ghost values: seq<Node>)
    returns (r: seq<HeapNode>)
    requires AssetsFor(assets, byId, removed) && values == Values(nodes)
    ensures Values(r) == Each(values, DirectorCleared(byId, removed))
  {
    r := [];
    assert Values(r) == [] && |values| == |nodes|;
    EachAll(values, DirectorCleared(byId, removed));
    hide *;
    for i := 0 to |nodes|
      invariant Values(nodes) == values && Values(r) == Each(values[..i], DirectorCleared(byId, removed))
    {
      ValueAt(nodes, i);
      EachNext(values, i, DirectorCleared(byId, removed));
      var n := ClearDirectorNode(nodes, r, nodes[i], assets, byId, removed);
      r := r + [n];
    }
  }

  /** One turn of the loop: what was there, and what is done so far, does not change. */
  method ClearDirectorNode(
    ghost nodes: seq<HeapNode>, ghost done: seq<HeapNode>, n: HeapNode, assets: map<Id, Option<Id>>,
    ghost byId: map<Id, Node>, removed: set<Id>)
    returns (r: HeapNode)
    requires AssetsFor(assets, byId, removed)
    ensures Values(nodes) == old(Values(nodes))
    ensures Values(done + [r]) == old(Values(done)) + [DirectorCleared(byId, removed)(old(NodeValue(n)))]
  {
    ghost var all, a, b := nodes + done, Values(nodes), Values(done);
    ValuesJoin(nodes, done);
    hide AllBoxes, AllArrays, AllSlots, Values, ClearDirector;
    r := n;
    if n.config.director.Some? {
      var config := ClearedDirector(n.config.director.value, assets, byId, removed);
      r := r.(config := r.config.(director := Some(config)));
    }
    assert Values(all) == old(Values(all));
    ValuesJoin(nodes, done);
    SameParts(a, b, Values(nodes), Values(done));
    ValuesAppend(done, r);
  }

  method ClearBatchReferences(nodes: seq<HeapNode>, removed: set<Id>, ghost values: seq<Node>)
    returns (r: seq<HeapNode>)
    requires values == Values(nodes)
    ensures Values(r) == Each(values, BatchCleared(removed))
  {
    r := [];
    assert Values(r) == [] && |values| == |nodes|;
    EachAll(values, BatchCleared(removed));
    hide *;
    for i := 0 to |nodes|
      invariant Values(nodes) == values && Values(r) == Each(values[..i], BatchCleared(removed))
    {
      ValueAt(nodes, i);
      EachNext(values, i, BatchCleared(removed));
      var n := ClearBatchNode(nodes, r, nodes[i], removed);
      r := r + [n];
    }
  }

  method ClearBatchNode(ghost nodes: seq<HeapNode>, ghost done: seq<HeapNode>, n: HeapNode, removed: set<Id>)
    returns (r: HeapNode)
    ensures Values(nodes) == old(Values(nodes))
    ensures Values(done + [r]) == old(Values(done)) + [BatchCleared(removed)(old(NodeValue(n)))]
  {
    ghost var all, a, b := nodes + done, Values(nodes), Values(done);
    ValuesJoin(nodes, done);
    hide AllBoxes, AllArrays, AllSlots, Values, ClearBatch;
    r := n;
    if n.config.batch.Some? {
      var config := ClearedBatch(n.config.batch.value, removed);
      r := r.(config := r.config.(batch := Some(config)));
    }
    assert Values(all) == old(Values(all));
    ValuesJoin(nodes, done);
    SameParts(a, b, Values(nodes), Values(done));
    ValuesAppend(done, r);
  }

  lemma NoneKept(values: seq<Node>, removed: set<Id>)
    ensures Without(values[..0], (n: Node) => n.id in removed) == []
  {
  }

  lemma NextKept(values: seq<Node>, removed: set<Id>, i: nat)
    requires i < |values|
    ensures Without(values[..i + 1], (n: Node) => n.id in removed) ==
              Without(values[..i], (n: Node) => n.id in removed) + if values[i].id in removed then [] else [values[i]]
  {
    assert values[..i + 1][..i] == values[..i];
  }

  /** slices.DeleteFunc over the nodes: the ones that stay keep their configurations. */
  method KeepNodes(nodes: seq<HeapNode>, removed: set<Id>, ghost values: seq<Node>) returns (r: seq<HeapNode>)
    requires values == Values(nodes)
    ensures Values(r) == Without(values, (n: Node) => n.id in removed)
  {
    r := [];
    NoneKept(values, removed);
    assert Values(r) == [] && |values| == |nodes|;
    hide *;
    for i := 0 to |nodes|
      invariant Values(nodes) == values && Values(r) == Without(values[..i], (n: Node) => n.id in removed)
    {
      ValueAt(nodes, i);
      NextKept(values, removed, i);
      if nodes[i].face.id !in removed {
        ValuesAppend(r, nodes[i]);
        r := r + [nodes[i]];
      }
    }
    assert values[..|nodes|] == values;
  }

  predicate HeldBack(n: Node, removed: set<Id>) {
    n.parent.Some? && n.parent.value in removed && !Editable(n)
  }

  function Detached(removed: set<Id>): Node -> Node {
    (n: Node) => n.(parent := if n.parent.Some? && n.parent.value in removed then None else n.parent)
  }

  ghost predicate NoneHeldBack(values: seq<Node>, removed: set<Id>, n: nat) {
    forall j :: 0 <= j < |values| && j < n ==> !HeldBack(values[j], removed)
  }

  lemma NextHeldBack(values: seq<Node>, removed: set<Id>, i: nat)
    requires i < |values|
    ensures NoneHeldBack(values, removed, i + 1) <==> NoneHeldBack(values, removed, i) && !HeldBack(values[i], removed)
    ensures NoneHeldBack(values, removed, |values|) ==> NoneHeldBack(values, removed, i + 1)
  {
  }

  method DetachNodes(nodes: seq<HeapNode>, removed: set<Id>, ghost values: seq<Node>)
    returns (error: Option<Error>, r: seq<HeapNode>)
    requires values == Values(nodes)
    ensures error == if NoneHeldBack(values, removed, |values|) then None else Some(UnsupportedCommand)
    ensures error == None ==> Values(r) == Each(values, Detached(removed))
  {
    r := [];
    assert Values(r) == [] && |values| == |nodes| && NoneHeldBack(values, removed, 0);
    EachAll(values, Detached(removed));
    hide *;
    for i := 0 to |nodes|
      invariant Values(nodes) == values && Values(r) == Each(values[..i], Detached(removed))
      invariant NoneHeldBack(values, removed, i)
    {
      ValueAt(nodes, i);
      EachNext(values, i, Detached(removed));
      NextHeldBack(values, removed, i);
      var held, n := DetachNode(nodes, r, nodes[i], removed);
      if held {
        return Some(UnsupportedCommand), r;
      }
      r := r + [n];
    }
    return None, r;
  }

  method DetachNode(ghost nodes: seq<HeapNode>, ghost done: seq<HeapNode>, n: HeapNode, removed: set<Id>)
    returns (held: bool, r: HeapNode)
    ensures held == HeldBack(old(NodeValue(n)), removed)
    ensures Values(nodes) == old(Values(nodes))
    ensures Values(done + [r]) == old(Values(done)) + [Detached(removed)(old(NodeValue(n)))]
  {
    held, r := false, n;
    if n.face.parent.Some? && n.face.parent.value in removed {
      held := !Editable(NodeValue(n));
      r := n.(face := n.face.(parent := None));
    }
    ValuesAppend(done, r);
  }

  // The steps of a deletion together.

  lemma {:induction false} EachWithout(s: seq<Node>, f: Node -> Node, removed: set<Id>)
    requires forall n :: f(n).id == n.id
    ensures Without(Each(s, f), (n: Node) => n.id in removed) == Each(Without(s, (n: Node) => n.id in removed), f)
  {
    if s != [] {
      var front, last := s[..|s| - 1], s[|s| - 1];
      EachWithout(front, f, removed);
      assert Each(s, f) == Each(front, f) + [f(last)];
      var kept := Without(front, (n: Node) => n.id in removed);
      assert Each(kept + [last], f) == Each(kept, f) + [f(last)];
    }
  }

  lemma EachTwice(s: seq<Node>, f: Node -> Node, g: Node -> Node, h: Node -> Node)
    requires forall n :: h(n) == g(f(n))
    ensures Each(Each(s, f), g) == Each(s, h)
  {
  }

  /** What is left of a node: the configurations rewritten, but the parent not yet. */
  function ConfigsCleared(byId: map<Id, Node>, removed: set<Id>): Node -> Node {
    (n: Node) => n.(config := Cleared(byId, removed, n.config))
  }

  function MediaCleared(byId: map<Id, Node>, removed: set<Id>): Node -> Node {
    (n: Node) => DirectorCleared(byId, removed)(TimelineCleared(byId, removed)(n))
  }

  /** The nodes that stay, after the steps before the parents. */
  function StillThere(nodes: seq<Node>, byId: map<Id, Node>, removed: set<Id>): seq<Node> {
    Each(
      Without(
        Each(Each(nodes, TimelineCleared(byId, removed)), DirectorCleared(byId, removed)),
        (n: Node) => n.id in removed),
      BatchCleared(removed))
  }

  lemma ConfigInSteps(byId: map<Id, Node>, removed: set<Id>, n: Node)
    ensures MediaCleared(byId, removed)(n) == DirectorCleared(byId, removed)(TimelineCleared(byId, removed)(n))
    ensures BatchCleared(removed)(MediaCleared(byId, removed)(n)) == ConfigsCleared(byId, removed)(n)
    ensures MediaCleared(byId, removed)(n).id == n.id
  {
    hide ClearTimeline, ClearDirector, ClearBatch;
  }

  lemma NodeInSteps(byId: map<Id, Node>, removed: set<Id>, n: Node)
    ensures Detached(removed)(ConfigsCleared(byId, removed)(n)) == Left(byId, removed, n)
    ensures n.id !in removed ==> (HeldBack(ConfigsCleared(byId, removed)(n), removed) <==> Orphaned(n, removed))
  {
    hide Cleared;
  }

  lemma StillThereIs(nodes: seq<Node>, byId: map<Id, Node>, removed: set<Id>)
    ensures StillThere(nodes, byId, removed) ==
              Each(Without(nodes, (n: Node) => n.id in removed), ConfigsCleared(byId, removed))
  {
    hide TimelineCleared, DirectorCleared, BatchCleared, MediaCleared, ConfigsCleared, Detached, Left, Orphaned;
    hide HeldBack, Without, Each;
    var media := MediaCleared(byId, removed);
    forall n ensures media(n) == DirectorCleared(byId, removed)(TimelineCleared(byId, removed)(n))
      && media(n).id == n.id
                  && BatchCleared(removed)(media(n)) == ConfigsCleared(byId, removed)(n)
    {
      ConfigInSteps(byId, removed, n);
    }
    EachTwice(nodes, TimelineCleared(byId, removed), DirectorCleared(byId, removed), media);
    EachWithout(nodes, media, removed);
    EachTwice(Without(nodes, (n: Node) => n.id in removed), media,
      BatchCleared(removed), ConfigsCleared(byId, removed));
  }

  lemma DeletedInSteps(nodes: seq<Node>, byId: map<Id, Node>, removed: set<Id>)
    ensures var kept := StillThere(nodes, byId, removed);
            && Each(kept, Detached(removed)) ==
                  Each(Without(nodes, (n: Node) => n.id in removed), n => Left(byId, removed, n))
            && (NoneHeldBack(kept, removed, |kept|) <==> !exists n | n in nodes :: Orphaned(n, removed))
  {
    StillThereIs(nodes, byId, removed);
    var staying := Without(nodes, (n: Node) => n.id in removed);
    var kept := Each(staying, ConfigsCleared(byId, removed));
    NoOrphans(nodes, byId, removed, staying, kept);
    hide StillThere, TimelineCleared, DirectorCleared, BatchCleared, MediaCleared, ConfigsCleared, Detached, Left;
    hide Orphaned, HeldBack, Without;
    forall n ensures Detached(removed)(ConfigsCleared(byId, removed)(n)) == Left(byId, removed, n) {
      NodeInSteps(byId, removed, n);
    }
    assert Each(kept, Detached(removed)) == Each(staying, n => Left(byId, removed, n));
  }

  lemma NoOrphans(nodes: seq<Node>, byId: map<Id, Node>, removed: set<Id>, staying: seq<Node>, kept: seq<Node>)
    requires staying == Without(nodes, (n: Node) => n.id in removed)
    requires kept == Each(staying, ConfigsCleared(byId, removed))
    ensures NoneHeldBack(kept, removed, |kept|) <==> !exists n | n in nodes :: Orphaned(n, removed)
  {
    hide TimelineCleared, DirectorCleared, BatchCleared, MediaCleared, ConfigsCleared, Detached, Left, HeldBack;
    hide Editable, Orphaned, Without;
    forall i | 0 <= i < |staying| ensures HeldBack(kept[i], removed) <==> Orphaned(staying[i], removed) {
      assert staying[i] in staying;
      NodeInSteps(byId, removed, staying[i]);
    }
    if n :| n in nodes && Orphaned(n, removed) {
      OrphansStay(n, removed);
      assert n in staying;
      var i :| 0 <= i < |staying| && staying[i] == n;
      assert HeldBack(kept[i], removed);
    }
    if !NoneHeldBack(kept, removed, |kept|) {
      var i :| 0 <= i < |kept| && HeldBack(kept[i], removed);
      assert staying[i] in staying;
    }
  }

  lemma OrphansStay(n: Node, removed: set<Id>)
    ensures Orphaned(n, removed) ==> n.id !in removed
  {
  }

  method TakeTargets(nodes: seq<Node>, ids: seq<Id>) returns (r: Result<set<Id>, Error>)
    ensures r == Targets(nodes, ids, {})
    ensures r.Success? ==> r.value <= Index(nodes, NodeId).Keys
  {
    hide Editable, Index;
    var seen := {};
    for j := 0 to |ids|
      invariant Targets(nodes, ids[j..], seen) == Targets(nodes, ids, {})
      invariant forall id | id in seen :: exists i :: 0 <= i < |nodes| && nodes[i].id == id
    {
      assert ids[j..][0] == ids[j] && ids[j..][1..] == ids[j + 1..];
      var found := Target(nodes, ids[j], seen);
      if found.Failure? {
        return Failure(found.error);
      }
      seen := seen + {ids[j]};
    }
    IndexHolds(nodes, NodeId);
    return Success(seen);
  }

  method TargetNodes(nodes: seq<HeapNode>, ghost values: seq<Node>, ids: seq<Id>) returns (r: Result<set<Id>, Error>)
    requires values == Values(nodes)
    ensures r == Targets(values, ids, {}) && Values(nodes) == values
    ensures r.Success? ==> r.value <= Index(values, NodeId).Keys
  {
    hide Targets, Values, AllBoxes, AllArrays, AllSlots;
    r := TakeTargets(Values(nodes), ids);
  }

  method FitsNode(nodes: seq<HeapNode>, i: nat, config: HeapConfig) returns (valid: bool)
    requires i < |nodes|
    ensures valid == ConfigOk(old(Values(nodes))[i].kind, old(ConfigValue(config)))
    ensures Values(nodes) == old(Values(nodes)) && ConfigValue(config) == old(ConfigValue(config))
  {
    hide ConfigOk, Values, AllBoxes, AllArrays, AllSlots;
    ValueAt(nodes, i);
    valid := ValidConfig(nodes[i].face.kind, ConfigValue(config));
  }

  method CheckNodes(nodes: seq<HeapNode>, ghost beside: seq<HeapNode>) returns (ok: bool)
    ensures ok == (Forest(old(Values(nodes))) && ToolsResolve(old(Values(nodes))))
    ensures Values(nodes) == old(Values(nodes)) && Values(beside) == old(Values(beside))
  {
    ghost var all := nodes + beside;
    ghost var a, b := Values(nodes), Values(beside);
    ValuesJoin(nodes, beside);
    hide Forest, ToolsResolve, Values, AllBoxes, AllArrays, AllSlots;
    ok := CheckValues(Values(nodes));
    assert Values(all) == old(Values(all));
    ValuesJoin(nodes, beside);
    SameParts(a, b, Values(nodes), Values(beside));
  }

  method CheckValues(nodes: seq<Node>) returns (ok: bool)
    ensures ok == (Forest(nodes) && ToolsResolve(nodes))
  {
    hide Forest, ToolsResolve;
    var parents := ValidParents(nodes);
    var tools := ValidToolReferences(nodes);
    ok := parents && tools;
  }

  /** Everything that a deletion does to the nodes. */
  method RemoveNodes(nodes: seq<HeapNode>, ghost values: seq<Node>, removed: set<Id>)
    returns (error: Option<Error>, r: seq<HeapNode>)
    requires values == Values(nodes) && removed <= Index(values, NodeId).Keys
    ensures error == if exists n | n in values :: Orphaned(n, removed) then Some(UnsupportedCommand) else None
    ensures error == None ==>
              Values(r) == Each(Without(values, (n: Node) => n.id in removed),
                n => Left(Index(values, NodeId), removed, n))
  {
    ghost var byId := Index(values, NodeId);
    DeletedInSteps(values, byId, removed);
    TimelinesKeepRefs(values, byId, removed);
    StillThereSteps(values, byId, removed);
    hide *;
    r := ClearTimelineReferences(nodes, values, byId, removed);
    ghost var step1 := Each(values, TimelineCleared(byId, removed));
    r := ClearDirectorReferences(r, step1, byId, removed);
    ghost var step2 := Each(step1, DirectorCleared(byId, removed));
    r := KeepNodes(r, removed, step2);
    ghost var step3 := Without(step2, (n: Node) => n.id in removed);
    r := ClearBatchReferences(r, removed, step3);
    error, r := DetachNodes(r, removed, Each(step3, BatchCleared(removed)));
  }

  lemma TimelinesKeepRefs(values: seq<Node>, byId: map<Id, Node>, removed: set<Id>)
    ensures SameRefs(Index(Each(values, TimelineCleared(byId, removed)), NodeId), Index(values, NodeId))
  {
    hide ClearTimeline;
    SameRefsEach(values, TimelineCleared(byId, removed));
  }

  lemma StillThereSteps(values: seq<Node>, byId: map<Id, Node>, removed: set<Id>)
    ensures var step2 := Each(Each(values, TimelineCleared(byId, removed)), DirectorCleared(byId, removed));
            StillThere(values, byId, removed) ==
              Each(Without(step2, (n: Node) => n.id in removed), BatchCleared(removed))
    ensures SameRefs(Index(values, NodeId), Index(values, NodeId))
  {
  }

  lemma {:induction false} SameRefsEach(values: seq<Node>, f: Node -> Node)
    requires forall n :: f(n).id == n.id && f(n).ref == n.ref
    ensures SameRefs(Index(Each(values, f), NodeId), Index(values, NodeId))
  {
    if values != [] {
      var front, last := values[..|values| - 1], values[|values| - 1];
      SameRefsEach(front, f);
      assert Each(values, f) == Each(front, f) + [f(last)];
      IndexAppend(Each(front, f), f(last), NodeId);
    }
  }

  /** Checking a node allocates at most; what other nodes point to stays as it is. */
  method RefuseRow(nodes: seq<HeapNode>, ghost rows: seq<HeapNode>, row: HeapNode) returns (error: Option<Error>)
    ensures error == Refused(old(Values(nodes)), old(NodeValue(row)))
    ensures Values(nodes + [row]) == old(Values(nodes)) + [old(NodeValue(row))] && Values(rows) == old(Values(rows))
  {
    hide Refused, AllBoxes, AllArrays, AllSlots, Values;
    ValuesAppend(nodes, row);
    ghost var more := nodes + [row];
    error := Refuse(Values(nodes), NodeValue(row));
  }

  method Refuse(nodes: seq<Node>, n: Node) returns (error: Option<Error>)
    ensures error == Refused(nodes, n)
  {
    hide NodeOk, Editable;
    if !Editable(n) {
      return Some(UnsupportedCommand);
    }
    var content := ValidNode(n);
    if n.id == NIL || At(nodes, NodeId, n.id).Some? || !content {
      return Some(InvalidCommand);
    }
    return None;
  }

  /** Whether the next edge may join the others, and what that means for the rows from it on. */
  method Joined(nodes: seq<Node>, edges: seq<Edge>, rows: seq<Edge>, i: nat, ghost beside: seq<HeapNode>)
    returns (error: Option<Error>)
    requires i < |rows|
    ensures Values(beside) == old(Values(beside))
    ensures error.Some? ==> ConnectRows(nodes, edges, rows[i..]) == Failure(error.value)
    ensures error.None? ==> ConnectRows(nodes, edges, rows[i..]) == ConnectRows(nodes, edges + [rows[i]], rows[i + 1..])
  {
    hide Editable;
    assert rows[i..][0] == rows[i] && rows[i..][1..] == rows[i + 1..];
    var e := rows[i];
    if !Annotation(e) {
      return Some(UnsupportedCommand);
    }
    var source, target := At(nodes, NodeId, e.source), At(nodes, NodeId, e.target);
    if e.id == NIL || e.source == e.target || source.None? || target.None? || At(edges, EdgeId, e.id).Some? {
      return Some(InvalidCommand);
    }
    if !Editable(nodes[source.value]) || !Editable(nodes[target.value]) {
      return Some(UnsupportedCommand);
    }
    return None;
  }

  lemma ConnectNone(nodes: seq<Node>, edges: seq<Edge>)
    ensures ConnectRows(nodes, edges, []) == Success(edges)
  {
  }

  lemma SameParts<T>(a: seq<T>, b: seq<T>, c: seq<T>, d: seq<T>)
    requires a + b == c + d && |a| == |c|
    ensures a == c && b == d
  {
    assert (a + b)[..|a|] == a && (c + d)[..|c|] == c;
    assert (a + b)[|a|..] == b && (c + d)[|c|..] == d;
  }

  /** A deletion case by case. */
  lemma DeletionSpec(g: Graph, ids: seq<Id>)
    ensures var targets := Targets(g.nodes, ids, {});
            if targets.Failure? then Deleted(g, ids) == Failure(targets.error)
            else if (exists e | e in g.edges :: Touches(e, targets.value) && !Annotation(e))
                    || (exists n | n in g.nodes :: Orphaned(n, targets.value)) then
                          Deleted(g, ids) == Failure(UnsupportedCommand)
            else Deleted(g, ids) == Success(Graph(g.viewport,
              Each(Without(g.nodes, (n: Node) => n.id in targets.value),
                n => Left(Index(g.nodes, NodeId), targets.value, n)),
              Without(g.edges, e => Touches(e, targets.value))))
  {
  }

  class Draft {
    var viewport: Viewport
    var nodes: seq<HeapNode>
    var edges: seq<Edge>

    constructor (g: HeapGraph)
      ensures viewport == g.viewport && nodes == g.nodes && edges == g.edges
    {
      viewport, nodes, edges := g.viewport, g.nodes, g.edges;
    }

    function Document(): (r: HeapGraph)
      reads this, AllBoxes(nodes), AllArrays(nodes), AllSlots(nodes)
      ensures GraphValue(r) == Content()
    {
      Graph(viewport, nodes, edges)
    }

    function Content(): Graph
      reads this, AllBoxes(nodes), AllArrays(nodes), AllSlots(nodes)
    {
      Graph(viewport, Values(nodes), edges)
    }

    /** The list of nodes is replaced; what these and other nodes point to stays as it is. */
    method SetNodes(more: seq<HeapNode>, ghost beside: seq<HeapNode>)
      modifies this`nodes
      ensures nodes == more && Values(more) == old(Values(more)) && Values(beside) == old(Values(beside))
    {
      ghost var all := more + beside;
      ghost var a, b := Values(more), Values(beside);
      ValuesJoin(more, beside);
      hide Values, AllBoxes, AllArrays, AllSlots;
      nodes := more;
      assert Values(all) == old(Values(all));
      ValuesJoin(more, beside);
      SameParts(a, b, Values(more), Values(beside));
    }

    method Add(rows: seq<HeapNode>, ghost values: seq<Node>) returns (error: Option<Error>)
      requires values == Values(rows)
      modifies this`nodes
      ensures var spec := AddRows(old(Values(nodes)), values);
              && (spec.Failure? ==> error == Some(spec.error))
              && (spec.Success? ==> error == None && Values(nodes) == spec.value)
    {
      ghost var before := Values(nodes);
      hide NodeOk, Editable;
      for i := 0 to |rows|
        invariant AddRows(Values(nodes), values[i..]) == AddRows(before, values) && Values(rows) == values
      {
        assert values[i..][0] == values[i] && values[i..][1..] == values[i + 1..];
        ValueAt(rows, i);
        error := AddNode(rows, rows[i], values[i]);
        if error.Some? {
          return;
        }
      }
      return None;
    }

    method AddNode(ghost rows: seq<HeapNode>, row: HeapNode, ghost value: Node) returns (error: Option<Error>)
      requires value == NodeValue(row)
      modifies this`nodes
      ensures error == Refused(old(Values(nodes)), value) && Values(rows) == old(Values(rows))
      ensures error == None ==> Values(nodes) == old(Values(nodes)) + [value]
      ensures error != None ==> nodes == old(nodes)
    {
      hide Refused, AllBoxes, AllArrays, AllSlots, Values;
      error := RefuseRow(nodes, rows, row);
      if error == None {
        SetNodes(nodes + [row], rows);
      }
    }

    method Edit(rows: seq<Edit>) returns (error: Option<Error>)
      modifies this`nodes
      ensures var spec := EditRows(old(Values(nodes)), rows, {});
              && (spec.Failure? ==> error == Some(spec.error))
              && (spec.Success? ==> error == None && Values(nodes) == spec.value)
    {
      ghost var before := Values(nodes);
      hide Editable, EditOk, Edited, Values, AllBoxes, AllArrays, AllSlots;
      var seen := {};
      for j := 0 to |rows|
        invariant EditRows(Values(nodes), rows[j..], seen) == EditRows(before, rows, {})
      {
        assert rows[j..][0] == rows[j] && rows[j..][1..] == rows[j + 1..];
        var e := rows[j];
        var found := Target(Values(nodes), e.id, seen);
        if found.Failure? {
          return Some(found.error);
        }
        seen := seen + {e.id};
        var i := found.value;
        if !EditOk(Values(nodes)[i].kind, e) {
          return Some(InvalidCommand);
        }
        EditNode(i, e);
      }
      return None;
    }

    method EditNode(i: nat, e: Edit)
      requires i < |nodes|
      modifies this`nodes
      ensures Values(nodes) == old(Values(nodes))[i := Edited(old(Values(nodes))[i], e)]
    {
      hide Values, AllBoxes, AllArrays, AllSlots;
      var face := nodes[i].face;
      match e {
        case Move(_, x, y) => face := face.(x := x, y := y);
        case Resize(_, width, height) => face := face.(width := Some(width), height := Some(height));
        case Rename(_, title) => face := face.(title := title);
        case SetParent(_, parent) => face := face.(parent := parent);
        case SetZ(_, z) => face := face.(z := z);
      }
      var n := nodes[i].(face := face);
      ValueAt(nodes, i);
      ValuesUpdate(nodes, i, n);
      SetNodes(nodes[i := n], []);
    }

    /** The node points to the configuration that the command brought along. */
    method Update(id: Id, config: HeapConfig, ghost value: Config) returns (error: Option<Error>)
      requires value == ConfigValue(config)
      modifies this`nodes
      ensures var spec := Updated(old(Values(nodes)), id, value);
              && (spec.Failure? ==> error == Some(spec.error))
              && (spec.Success? ==> error == None && Values(nodes) == spec.value)
    {
      hide ConfigOk, Values, AllBoxes, AllArrays, AllSlots, Editable;
      var found := Target(Values(nodes), id, {});
      if found.Failure? {
        return Some(found.error);
      }
      var i := found.value;
      var valid := FitsNode(nodes, i, config);
      if !valid {
        return Some(InvalidCommand);
      }
      ValueAt(nodes, i);
      ValuesUpdate(nodes, i, nodes[i].(config := config));
      SetNodes(nodes[i := nodes[i].(config := config)], []);
      return None;
    }

    method Delete(ids: seq<Id>) returns (error: Option<Error>)
      modifies this`nodes, this`edges
      ensures var spec := Deleted(old(Content()), ids);
              && (spec.Failure? ==> error == Some(spec.error))
              && (spec.Success? ==> error == None && Content() == spec.value)
    {
      ghost var values := Values(nodes);
      hide Deleted, Values, AllBoxes, AllArrays, AllSlots, Without, Each, Left, Orphaned, Targets, Index;
      DeletionSpec(Content(), ids);
      var found := TargetNodes(nodes, values, ids);
      if found.Failure? {
        return Some(found.error);
      }
      var removed := found.value;
      if exists e | e in edges :: Touches(e, removed) && !Annotation(e) {
        return Some(UnsupportedCommand);
      }
      var kept;
      error, kept := RemoveNodes(nodes, values, removed);
      if error == None {
        Settle(kept, Without(edges, e => Touches(e, removed)), Values(kept));
      }
    }

    method SetEdges(more: seq<Edge>)
      modifies this`edges
      ensures edges == more && Values(nodes) == old(Values(nodes))
    {
      hide Values, AllBoxes, AllArrays, AllSlots;
      edges := more;
    }

    method Settle(kept: seq<HeapNode>, rest: seq<Edge>, ghost values: seq<Node>)
      requires values == Values(kept)
      modifies this`nodes, this`edges
      ensures Content() == Graph(viewport, values, rest)
    {
      hide Values, AllBoxes, AllArrays, AllSlots;
      SetNodes(kept, []);
      SetEdges(rest);
    }

    method Join(rows: seq<Edge>) returns (error: Option<Error>)
      modifies this`edges
      ensures var spec := ConnectRows(old(Values(nodes)), old(edges), rows);
              && (spec.Failure? ==> error == Some(spec.error))
              && (spec.Success? ==> error == None && edges == spec.value)
      ensures Values(nodes) == old(Values(nodes))
    {
      var values := Values(nodes);
      hide *;
      for i := 0 to |rows|
        invariant Values(nodes) == values
        invariant ConnectRows(values, edges, rows[i..]) == ConnectRows(values, old(edges), rows)
      {
        error := Joined(values, edges, rows, i, nodes);
        if error.Some? {
          return;
        }
        SetEdges(edges + [rows[i]]);
      }
      assert rows[|rows|..] == [];
      ConnectNone(values, edges);
      return None;
    }

    method Cut(ids: seq<Id>) returns (error: Option<Error>)
      modifies this`edges
      ensures var spec := CutRows(old(edges), ids, {});
              && (spec.Failure? ==> error == Some(spec.error))
              && (spec.Success? ==> error == None && edges == Without(old(edges), (e: Edge) => e.id in spec.value))
      ensures Values(nodes) == old(Values(nodes))
    {
      ghost var values := Values(nodes);
      hide Values, AllBoxes, AllArrays, AllSlots;
      var seen := {};
      for j := 0 to |ids|
        invariant edges == old(edges) && Values(nodes) == values
        invariant CutRows(edges, ids[j..], seen) == CutRows(edges, ids, {})
      {
        assert ids[j..][0] == ids[j] && ids[j..][1..] == ids[j + 1..];
        var i := At(edges, EdgeId, ids[j]);
        if i.None? || ids[j] in seen {
          return Some(InvalidCommand);
        }
        if !Annotation(edges[i.value]) {
          return Some(UnsupportedCommand);
        }
        seen := seen + {ids[j]};
      }
      SetEdges(Without(edges, (e: Edge) => e.id in seen));
      return None;
    }

    method MoveCamera(v: Viewport)
      modifies this`viewport
      ensures viewport == v && Values(nodes) == old(Values(nodes))
    {
      hide Values, AllBoxes, AllArrays, AllSlots;
      viewport := v;
    }

    /** One command; after an error the draft is of no more use. */
    method ApplyOne(c: HeapCommand, ghost value: Command) returns (error: Option<Error>)
      requires value == CommandValue(c)
      modifies this
      ensures var spec := After(old(Content()), value);
              && (spec.Failure? ==> error == Some(spec.error))
              && (spec.Success? ==> error == None && Content() == spec.value)
    {
      hide AddRows, EditRows, Updated, Deleted, ConnectRows, CutRows, Values, AllBoxes, AllArrays, AllSlots;
      match c {
        case AddNodes(rows) =>
          if !BatchSize(|rows|) { return Some(InvalidCommand); }
          error := Add(rows, Values(rows));
        case EditNodes(rows) =>
          if !BatchSize(|rows|) { return Some(InvalidCommand); }
          error := Edit(rows);
        case UpdateConfig(id, config) =>
          ValueAt(Carried(c), 0);
          error := Update(id, config, ConfigValue(config));
        case DeleteNodes(ids) =>
          if !BatchSize(|ids|) { return Some(InvalidCommand); }
          error := Delete(ids);
        case Connect(rows) =>
          if !BatchSize(|rows|) { return Some(InvalidCommand); }
          error := Join(rows);
        case Disconnect(ids) =>
          if !BatchSize(|ids|) { return Some(InvalidCommand); }
          error := Cut(ids);
        case SetViewport(v) =>
          if !ViewportOk(v) { return Some(InvalidCommand); }
          MoveCamera(v);
          error := None;
        case Malformed =>
          error := Some(InvalidCommand);
        case Unknown =>
          error := Some(UnsupportedCommand);
      }
    }

    /** What else is in memory does not change with it. */
    method ApplyBeside(c: HeapCommand, ghost value: Command, ghost beside: seq<HeapNode>) returns (error: Option<Error>)
      requires value == CommandValue(c)
      modifies this
      ensures var spec := After(old(Content()), value);
              && (spec.Failure? ==> error == Some(spec.error))
              && (spec.Success? ==> error == None && Content() == spec.value)
      ensures Values(beside) == old(Values(beside))
    {
      hide After, Values, AllBoxes, AllArrays, AllSlots;
      error := ApplyOne(c, value);
    }

    method Check(ghost beside: seq<HeapNode>) returns (ok: bool)
      ensures ok == Sound(old(Content())) && Content() == old(Content()) && Values(beside) == old(Values(beside))
    {
      hide Forest, ToolsResolve;
      if |nodes| > MAX_NODES || |edges| > MAX_EDGES {
        return false;
      }
      ok := CheckNodes(nodes, beside);
    }
  }

  /**
    Works on a private graph: no object that existed before the call is written to, so the given document and the
    given commands, with every configuration they point to, are as they were, whatever the outcome.
   */
  method Apply(document: HeapGraph, commands: seq<HeapCommand>) returns (r: Result<HeapGraph, CommandError>)
    ensures GraphValue(document) == old(GraphValue(document)) && CommandValues(commands) == old(CommandValues(commands))
    ensures var spec := Applied(old(GraphValue(document)), old(CommandValues(commands)));
            && (r.Success? <==> spec.Success?) && (r.Failure? ==> r.error == spec.error)
            && (r.Success? ==> GraphValue(r.value) == spec.value)
  {
    ghost var all := document.nodes + AllCarried(commands);
    ValuesJoin(document.nodes, AllCarried(commands));
    ghost var nodes, carried := Values(document.nodes), Values(AllCarried(commands));
    hide Values, AllBoxes, AllArrays, AllSlots, Applied;
    r := ApplyAll(document, commands, GraphValue(document), CommandValues(commands));
    assert Values(all) == old(Values(all));
    ValuesJoin(document.nodes, AllCarried(commands));
    SameParts(nodes, carried, Values(document.nodes), Values(AllCarried(commands)));
  }

  method ApplyAll(document: HeapGraph, commands: seq<HeapCommand>, ghost g: Graph, ghost values: seq<Command>)
    returns (r: Result<HeapGraph, CommandError>)
    requires g == GraphValue(document) && values == CommandValues(commands)
    ensures var spec := Applied(g, values);
            && (r.Success? <==> spec.Success?) && (r.Failure? ==> r.error == spec.error)
            && (r.Success? ==> GraphValue(r.value) == spec.value)
  {
    if |commands| < 1 || |commands| > MAX_COMMANDS {
      return Failure(CommandError(-1, InvalidCommand));
    }
    ghost var carried := AllCarried(commands);
    assert values == CommandsWith(commands, Values(carried)) && Applied(g, values) == AfterAll(g, values, 0);
    assert values[0..] == values;
    hide *;
    var draft := NewDraft(document, carried, g);
    for index := 0 to |commands|
      invariant fresh(draft) && AfterAll(draft.Content(), values[index..], index) == AfterAll(g, values, 0)
      invariant Values(carried) == old(Values(carried))
    {
      var error := ApplyNext(draft, commands, index, carried, values);
      if error.Some? {
        return Failure(CommandError(index, error.value));
      }
    }
    AfterNothing(draft.Content(), values[|commands|..], |commands|);
    return Success(draft.Document());
  }

  lemma AfterNothing(g: Graph, cs: seq<Command>, index: nat)
    requires cs == []
    ensures AfterAll(g, cs, index) == Success(g)
  {
  }

  /** One turn of the loop: a command, and the checks after it. */
  method ApplyNext(
    draft: Draft, commands: seq<HeapCommand>, index: nat, ghost carried: seq<HeapNode>, ghost values: seq<Command>)
    returns (error: Option<Error>)
    requires index < |commands| && carried == AllCarried(commands) && values == CommandsWith(commands, Values(carried))
    modifies draft
    ensures Values(carried) == old(Values(carried))
    ensures error.Some? ==>
              AfterAll(old(draft.Content()), values[index..], index) == Failure(CommandError(index, error.value))
    ensures error.None? ==>
              AfterAll(old(draft.Content()), values[index..], index) ==
                AfterAll(draft.Content(), values[index + 1..], index + 1)
  {
    assert values[index..][0] == values[index] && values[index..][1..] == values[index + 1..];
    CommandAt(commands, index);
    hide *;
    error := draft.ApplyBeside(commands[index], values[index], carried);
    if error.None? {
      var sound := draft.Check(carried);
      if !sound {
        error := Some(InvalidCommand);
      }
    }
    AfterOne(old(draft.Content()), values[index..], index);
  }

  lemma AfterOne(g: Graph, cs: seq<Command>, index: nat)
    requires cs != []
    ensures After(g, cs[0]).Failure? ==> AfterAll(g, cs, index) == Failure(CommandError(index, After(g, cs[0]).error))
    ensures After(g, cs[0]).Success? ==>
              AfterAll(g, cs, index) == if Sound(After(g, cs[0]).value) then
                AfterAll(After(g, cs[0]).value, cs[1..], index + 1)
                                        else Failure(CommandError(index, InvalidCommand))
  {
  }

  method NewDraft(document: HeapGraph, ghost carried: seq<HeapNode>, ghost g: Graph) returns (draft: Draft)
    requires g == GraphValue(document)
    ensures fresh(draft) && draft.Content() == g && Values(carried) == old(Values(carried))
  {
    ghost var all := document.nodes + carried;
    ValuesJoin(document.nodes, carried);
    ghost var a, b := Values(document.nodes), Values(carried);
    hide Values, AllBoxes, AllArrays, AllSlots;
    draft := new Draft(document);
    assert Values(all) == old(Values(all));
    ValuesJoin(document.nodes, carried);
    SameParts(a, b, Values(document.nodes), Values(carried));
  }
}
