/** What each canvas command does to the graph. */
module CanvasCommands {
  import opened Wrappers
  import opened Ids
  import opened Rows
  import opened CanvasNodes

  const MAX_COMMANDS := 100
  const MAX_BATCH := 2000
  const MAX_NODES := 2000
  const MAX_EDGES := 4000

  datatype Error = InvalidCommand | UnsupportedCommand

  datatype CommandError = CommandError(index: int, cause: Error)

  /** A graph over some representation of its nodes. */
  datatype GraphOf<N> = Graph(viewport: Viewport, nodes: seq<N>, edges: seq<Edge>)

  type Graph = GraphOf<Node>

  /** One row of MoveNodes, ResizeNodes, RenameNodes, SetNodeParents or SetNodeZIndex. */
  datatype Edit =
    | Move(id: Id, x: real, y: real)
    | Resize(id: Id, width: real, height: real)
    | Rename(id: Id, title: string)
    | SetParent(id: Id, parent: Option<Id>)
    | SetZ(id: Id, z: int)

  /** The closed union of commands. A malformed command has fields of another one; an unknown one no known type. */
  datatype CommandOf<N, C> =
    | AddNodes(nodes: seq<N>)
    | EditNodes(edits: seq<Edit>)
    | UpdateConfig(id: Id, config: C)
    | DeleteNodes(ids: seq<Id>)
    | Connect(edges: seq<Edge>)
    | Disconnect(ids: seq<Id>)
    | SetViewport(viewport: Viewport)
    | Malformed
    | Unknown

  type Command = CommandOf<Node, Config>

  predicate BatchSize(n: nat) {
    0 < n <= MAX_BATCH
  }

  /** The position of the first row with an identity. */
  function At<T>(s: seq<T>, key: T -> Id, id: Id): (r: Option<nat>)
    ensures r.Some? ==> r.value < |s| && key(s[r.value]) == id && forall i :: 0 <= i < r.value ==> key(s[i]) != id
    ensures r.None? ==> forall i :: 0 <= i < |s| ==> key(s[i]) != id
  {
    if s == [] then None
    else if key(s[0]) == id then Some(0)
    else
      var later := At(s[1..], key, id);
      if later.Some? then Some(later.value + 1) else None
  }

  // Adding.

  ghost function Refused(nodes: seq<Node>, n: Node): Option<Error> {
    if !Editable(n) then Some(UnsupportedCommand)
    else if n.id == NIL || At(nodes, NodeId, n.id).Some? || !NodeOk(n) then Some(InvalidCommand)
    else None
  }

  ghost function AddRows(nodes: seq<Node>, rows: seq<Node>): Result<seq<Node>, Error>
    decreases |rows|
  {
    if rows == [] then Success(nodes)
    else if Refused(nodes, rows[0]).Some? then Failure(Refused(nodes, rows[0]).value)
    else AddRows(nodes + [rows[0]], rows[1..])
  }

  // Editing.

  /** The node a row may change: present, not named before in this command, and not protected. */
  function Target(nodes: seq<Node>, id: Id, seen: set<Id>): (r: Result<nat, Error>)
    ensures r.Success? ==> r.value < |nodes| && nodes[r.value].id == id && Editable(nodes[r.value]) && id !in seen
  {
    var i := At(nodes, NodeId, id);
    if i.None? || id in seen then Failure(InvalidCommand)
    else if !Editable(nodes[i.value]) then Failure(UnsupportedCommand)
    else Success(i.value)
  }

  predicate EditOk(kind: Kind, e: Edit) {
    match e
    case Move(_, x, y) => Coordinate(x) && Coordinate(y)
    case Resize(_, w, h) => Dimension(kind, Some(w)) && Dimension(kind, Some(h))
    case Rename(_, title) => TitleOk(title)
    case SetParent(_, _) => true
    case SetZ(_, z) => ZOk(z)
  }

  function Edited(n: Node, e: Edit): Node {
    match e
    case Move(_, x, y) => n.(x := x, y := y)
    case Resize(_, w, h) => n.(width := Some(w), height := Some(h))
    case Rename(_, title) => n.(title := title)
    case SetParent(_, parent) => n.(parent := parent)
    case SetZ(_, z) => n.(z := z)
  }

  function EditRows(nodes: seq<Node>, rows: seq<Edit>, seen: set<Id>): Result<seq<Node>, Error>
    decreases |rows|
  {
    if rows == [] then Success(nodes) else
      var e := rows[0];
      var i :- Target(nodes, e.id, seen);
      if !EditOk(nodes[i].kind, e) then Failure(InvalidCommand)
      else EditRows(nodes[i := Edited(nodes[i], e)], rows[1..], seen + {e.id})
  }

  // Deleting.

  function Targets(nodes: seq<Node>, ids: seq<Id>, seen: set<Id>): Result<set<Id>, Error>
    decreases |ids|
  {
    if ids == [] then Success(seen) else
      var i :- Target(nodes, ids[0], seen);
      Targets(nodes, ids[1..], seen + {ids[0]})
  }

  predicate Touches(e: Edge, removed: set<Id>) {
    e.source in removed || e.target in removed
  }

  function RefOf(nodes: map<Id, Node>, id: Id): Option<Id> {
    if id in nodes then nodes[id].ref else None
  }

  /** A clip whose node goes away keeps the asset that the node stood for. */
  function ClearClip(nodes: map<Id, Node>, removed: set<Id>, c: Clip): Clip {
    if c.node.Some? && c.node.value in removed then c.(asset := RefOf(nodes, c.node.value), node := None) else c
  }

  function ClearObject(nodes: map<Id, Node>, removed: set<Id>, x: Object): Object {
    if x.node.Some? && x.node.value in removed then x.(asset := RefOf(nodes, x.node.value), node := None) else x
  }

  /** A slot whose node goes away stays, empty. */
  function ClearSlot(removed: set<Id>, slot: Option<Id>): Option<Id> {
    if slot.Some? && slot.value in removed then None else slot
  }

  function ClearRow(removed: set<Id>, x: Row): Row {
    x.(inputs := Each(x.inputs, slot => ClearSlot(removed, slot)))
  }

  function ClearTimeline(nodes: map<Id, Node>, removed: set<Id>, c: TimelineConfig): TimelineConfig {
    c.(clips := Each(c.clips, x => ClearClip(nodes, removed, x)))
  }

  function ClearDirector(nodes: map<Id, Node>, removed: set<Id>, c: DirectorConfig): DirectorConfig {
    c.(objects := Each(c.objects, x => ClearObject(nodes, removed, x)))
  }

  function ClearBatch(removed: set<Id>, c: BatchConfig): BatchConfig {
    c.(rows := Each(c.rows, x => ClearRow(removed, x)))
  }

  function Cleared(nodes: map<Id, Node>, removed: set<Id>, c: Config): Config {
    c.(timeline := if c.timeline.Some? then Some(ClearTimeline(nodes, removed, c.timeline.value)) else None,
       director := if c.director.Some? then Some(ClearDirector(nodes, removed, c.director.value)) else None,
       batch := if c.batch.Some? then Some(ClearBatch(removed, c.batch.value)) else None)
  }

  /** What is left of a node that stays when others are removed. */
  function Left(nodes: map<Id, Node>, removed: set<Id>, n: Node): Node {
    n.(config := Cleared(nodes, removed, n.config),
       parent := if n.parent.Some? && n.parent.value in removed then None else n.parent)
  }

  function Without<T(!new)>(s: seq<T>, gone: T -> bool): (r: seq<T>)
    ensures forall x :: x in r <==> x in s && !gone(x)
  {
    if s == [] then [] else
      var front, last := Without(s[..|s| - 1], gone), s[|s| - 1];
      assert s == s[..|s| - 1] + [last];
      if gone(last) then front else front + [last]
  }

  /** A protected node whose parent is removed. */
  predicate Orphaned(n: Node, removed: set<Id>) {
    n.id !in removed && n.parent.Some? && n.parent.value in removed && !Editable(n)
  }

  function Removed(g: Graph, removed: set<Id>): Graph {
    g.(nodes := Each(Without(g.nodes, (n: Node) => n.id in removed), n => Left(Index(g.nodes, NodeId), removed, n)),
       edges := Without(g.edges, e => Touches(e, removed)))
  }

  function Deleted(g: Graph, ids: seq<Id>): Result<Graph, Error> {
    var removed :- Targets(g.nodes, ids, {});
    if exists e | e in g.edges :: Touches(e, removed) && !Annotation(e) then Failure(UnsupportedCommand)
    else if exists n | n in g.nodes :: Orphaned(n, removed) then Failure(UnsupportedCommand)
    else Success(Removed(g, removed))
  }

  // Edges.

  predicate EndsEditable(nodes: seq<Node>, e: Edge)
    requires At(nodes, NodeId, e.source).Some? && At(nodes, NodeId, e.target).Some?
  {
    Editable(nodes[At(nodes, NodeId, e.source).value]) && Editable(nodes[At(nodes, NodeId, e.target).value])
  }

  function NotJoined(nodes: seq<Node>, edges: seq<Edge>, e: Edge): Option<Error> {
    if !Annotation(e) then Some(UnsupportedCommand)
    else if e.id == NIL || e.source == e.target || At(nodes, NodeId, e.source).None?
            || At(nodes, NodeId, e.target).None?
      || At(edges, EdgeId, e.id).Some? then Some(InvalidCommand)
    else if !EndsEditable(nodes, e) then Some(UnsupportedCommand)
    else None
  }

  function ConnectRows(nodes: seq<Node>, edges: seq<Edge>, rows: seq<Edge>): Result<seq<Edge>, Error>
    decreases |rows|
  {
    if rows == [] then Success(edges)
    else if NotJoined(nodes, edges, rows[0]).Some? then Failure(NotJoined(nodes, edges, rows[0]).value)
    else ConnectRows(nodes, edges + [rows[0]], rows[1..])
  }

  function CutRows(edges: seq<Edge>, ids: seq<Id>, seen: set<Id>): Result<set<Id>, Error>
    decreases |ids|
  {
    if ids == [] then Success(seen) else
      var i := At(edges, EdgeId, ids[0]);
      if i.None? || ids[0] in seen then Failure(InvalidCommand)
      else if !Annotation(edges[i.value]) then Failure(UnsupportedCommand)
      else CutRows(edges, ids[1..], seen + {ids[0]})
  }

  // Commands.

  ghost function Updated(nodes: seq<Node>, id: Id, config: Config): Result<seq<Node>, Error> {
    var i :- Target(nodes, id, {});
    if !ConfigOk(nodes[i].kind, config) then Failure(InvalidCommand)
    else Success(nodes[i := nodes[i].(config := config)])
  }

  ghost function After(g: Graph, c: Command): Result<Graph, Error> {
    match c
    case AddNodes(rows) =>
      if !BatchSize(|rows|) then Failure(InvalidCommand) else
        var nodes :- AddRows(g.nodes, rows);
        Success(g.(nodes := nodes))
    case EditNodes(rows) =>
      if !BatchSize(|rows|) then Failure(InvalidCommand) else
        var nodes :- EditRows(g.nodes, rows, {});
        Success(g.(nodes := nodes))
    case UpdateConfig(id, config) =>
      var nodes :- Updated(g.nodes, id, config);
      Success(g.(nodes := nodes))
    case DeleteNodes(ids) =>
      if !BatchSize(|ids|) then Failure(InvalidCommand) else Deleted(g, ids)
    case Connect(rows) =>
      if !BatchSize(|rows|) then Failure(InvalidCommand) else
        var edges :- ConnectRows(g.nodes, g.edges, rows);
        Success(g.(edges := edges))
    case Disconnect(ids) =>
      if !BatchSize(|ids|) then Failure(InvalidCommand) else
        var cut :- CutRows(g.edges, ids, {});
        Success(g.(edges := Without(g.edges, (e: Edge) => e.id in cut)))
    case SetViewport(v) => if ViewportOk(v) then Success(g.(viewport := v)) else Failure(InvalidCommand)
    case Malformed => Failure(InvalidCommand)
    case Unknown => Failure(UnsupportedCommand)
  }

  /** What is checked again after every command. */
  ghost predicate Sound(g: Graph) {
    |g.nodes| <= MAX_NODES && |g.edges| <= MAX_EDGES && Forest(g.nodes) && ToolsResolve(g.nodes)
  }

  ghost function AfterAll(g: Graph, cs: seq<Command>, index: nat): Result<Graph, CommandError>
    decreases |cs|
  {
    if cs == [] then Success(g)
    else if After(g, cs[0]).Failure? then Failure(CommandError(index, After(g, cs[0]).error))
    else if !Sound(After(g, cs[0]).value) then Failure(CommandError(index, InvalidCommand))
    else AfterAll(After(g, cs[0]).value, cs[1..], index + 1)
  }

  /** Apply as a whole. */
  ghost function Applied(g: Graph, cs: seq<Command>): Result<Graph, CommandError> {
    if 1 <= |cs| <= MAX_COMMANDS then AfterAll(g, cs, 0) else Failure(CommandError(-1, InvalidCommand))
  }
}
