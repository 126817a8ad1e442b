/** Documents as they are in memory: copies of a node share the configurations that it points to. */
module CanvasHeap {
  import opened Wrappers
  import opened Ids
  import opened Rows
  import opened CanvasNodes
  import opened CanvasCommands

  /** A timeline; its clips are an array that copies of the struct share. */
  class TimelineBox {
    var tracks: seq<Track>
    var clips: array<Clip>
    var settings: string

    constructor (tracks: seq<Track>, clips: array<Clip>, settings: string)
      ensures this.tracks == tracks && this.clips == clips && this.settings == settings
    {
      this.tracks, this.clips, this.settings := tracks, clips, settings;
    }

    function Value(): TimelineConfig
      reads this, clips
    {
      TimelineConfig(tracks, clips[..], settings)
    }
  }

  /** A scene; `rest` holds everything but its objects. */
  class DirectorBox {
    var rest: DirectorConfig
    var objects: array<Object>

    constructor (rest: DirectorConfig, objects: array<Object>)
      ensures this.rest == rest && this.objects == objects
    {
      this.rest, this.objects := rest, objects;
    }

    function Value(): DirectorConfig
      reads this, objects
    {
      rest.(objects := objects[..])
    }
  }

  datatype Line = Line(id: Id, enabled: bool, prompt: string, inputs: array<Option<Id>>)

  function LineValue(x: Line): Row
    reads x.inputs
  {
    Row(x.id, x.enabled, x.prompt, x.inputs[..])
  }

  function LineValues(xs: seq<Line>): (r: seq<Row>)
    reads set x | x in xs :: x.inputs
    ensures |r| == |xs| && forall i :: 0 <= i < |xs| ==> r[i] == LineValue(xs[i])
  {
    if xs == [] then [] else LineValues(xs[..|xs| - 1]) + [LineValue(xs[|xs| - 1])]
  }

  /** A batch table; its rows are an array, and so are the slots of each row. */
  class BatchBox {
    var profile: Option<Id>
    var columns: seq<Column>
    var rows: array<Line>
    var settings: string

    constructor (profile: Option<Id>, columns: seq<Column>, rows: array<Line>, settings: string)
      ensures this.profile == profile && this.columns == columns && this.rows == rows && this.settings == settings
    {
      this.profile, this.columns, this.rows, this.settings := profile, columns, rows, settings;
    }

    function Value(): BatchConfig
      reads this, rows, set x | x in rows[..] :: x.inputs
    {
      BatchConfig(profile, columns, LineValues(rows[..]), settings)
    }
  }

  datatype HeapConfig = HeapConfig(
    text: Option<string>, collapsed: Option<bool>, batch: Option<BatchBox>,
    timeline: Option<TimelineBox>, director: Option<DirectorBox>, generation: Option<GenerationConfig>)

  /** A node in memory; `face` holds everything but its configuration. */
  datatype HeapNode = HeapNode(face: Node, config: HeapConfig)

  // The objects that a configuration consists of.

  function Boxes(c: HeapConfig): set<object> {
    (if c.batch.Some? then {c.batch.value as object} else {})
    + (if c.timeline.Some? then {c.timeline.value as object} else {})
    + (if c.director.Some? then {c.director.value as object} else {})
  }

  function Arrays(c: HeapConfig): set<object>
    reads Boxes(c)
  {
    (if c.batch.Some? then {c.batch.value.rows as object} else {})
    + (if c.timeline.Some? then {c.timeline.value.clips as object} else {})
    + (if c.director.Some? then {c.director.value.objects as object} else {})
  }

  function Slots(c: HeapConfig): set<object>
    reads Boxes(c), Arrays(c)
  {
    if c.batch.Some? then set x | x in c.batch.value.rows[..] :: x.inputs as object else {}
  }

  function ConfigValue(c: HeapConfig): Config
    reads Boxes(c), Arrays(c), Slots(c)
  {
    Config(c.text, c.collapsed,
      if c.batch.Some? then Some(c.batch.value.Value()) else None,
      if c.timeline.Some? then Some(c.timeline.value.Value()) else None,
      if c.director.Some? then Some(c.director.value.Value()) else None,
      c.generation)
  }

  function NodeValue(n: HeapNode): Node
    reads Boxes(n.config), Arrays(n.config), Slots(n.config)
  {
    n.face.(config := ConfigValue(n.config))
  }

  // The objects of a list of nodes.

  function AllBoxes(ns: seq<HeapNode>): set<object> {
    set n, o | n in ns && o in Boxes(n.config) :: o
  }

  function AllArrays(ns: seq<HeapNode>): set<object>
    reads AllBoxes(ns)
  {
    set n, o | n in ns && o in Arrays(n.config) :: o
  }

  function AllSlots(ns: seq<HeapNode>): set<object>
    reads AllBoxes(ns), AllArrays(ns)
  {
    set n, o | n in ns && o in Slots(n.config) :: o
  }

  function Values(ns: seq<HeapNode>): (r: seq<Node>)
    reads AllBoxes(ns), AllArrays(ns), AllSlots(ns)
    ensures |r| == |ns| && forall i :: 0 <= i < |ns| ==> r[i] == NodeValue(ns[i])
  {
    if ns == [] then [] else
      var front, last := ns[..|ns| - 1], ns[|ns| - 1];
      Values(front) + [NodeValue(last)]
  }

  lemma ValuesAppend(ns: seq<HeapNode>, n: HeapNode)
    ensures Values(ns + [n]) == Values(ns) + [NodeValue(n)]
  {
  }

  lemma {:induction false} ValuesJoin(a: seq<HeapNode>, b: seq<HeapNode>)
    ensures Values(a + b) == Values(a) + Values(b)
  {
    assert forall i :: 0 <= i < |b| ==> (a + b)[|a| + i] == b[i];
  }

  lemma ValuesUpdate(ns: seq<HeapNode>, i: nat, n: HeapNode)
    requires i < |ns|
    ensures |Values(ns)| == |ns| && Values(ns[i := n]) == Values(ns)[i := NodeValue(n)]
  {
  }

  lemma ValueAt(ns: seq<HeapNode>, i: nat)
    requires i < |ns|
    ensures |Values(ns)| == |ns| && Values(ns)[i] == NodeValue(ns[i])
    ensures Values(ns)[i].id == ns[i].face.id && Values(ns)[i].ref == ns[i].face.ref
  {
  }

  // Documents and commands.

  type HeapGraph = GraphOf<HeapNode>

  type HeapCommand = CommandOf<HeapNode, HeapConfig>

  function GraphValue(g: HeapGraph): Graph
    reads AllBoxes(g.nodes), AllArrays(g.nodes), AllSlots(g.nodes)
  {
    Graph(g.viewport, Values(g.nodes), g.edges)
  }

  const NO_CONFIG := Config(None, None, None, None, None, None)

  const NO_FACE := Node(NIL, "", Text, Resource, NO_CONFIG, 0.0, 0.0, None, None, NoRef, None, None, None, 0)

  /** The nodes, or the configuration, that a command brings along. */
  function Carried(c: HeapCommand): seq<HeapNode> {
    match c
    case AddNodes(rows) => rows
    case UpdateConfig(_, config) => [HeapNode(NO_FACE, config)]
    case _ => []
  }

  /** The command with the values of what it carries. */
  function CommandWith(c: HeapCommand, values: seq<Node>): Command
    requires |values| == |Carried(c)|
  {
    match c
    case AddNodes(_) => AddNodes(values)
    case EditNodes(rows) => EditNodes(rows)
    case UpdateConfig(id, _) => UpdateConfig(id, values[0].config)
    case DeleteNodes(ids) => DeleteNodes(ids)
    case Connect(rows) => Connect(rows)
    case Disconnect(ids) => Disconnect(ids)
    case SetViewport(v) => SetViewport(v)
    case Malformed => Malformed
    case Unknown => Unknown
  }

  function CommandValue(c: HeapCommand): Command
    reads AllBoxes(Carried(c)), AllArrays(Carried(c)), AllSlots(Carried(c))
  {
    CommandWith(c, Values(Carried(c)))
  }

  function AllCarried(cs: seq<HeapCommand>): seq<HeapNode> {
    if cs == [] then [] else AllCarried(cs[..|cs| - 1]) + Carried(cs[|cs| - 1])
  }

  function CommandsWith(cs: seq<HeapCommand>, values: seq<Node>): (r: seq<Command>)
    requires |values| == |AllCarried(cs)|
    ensures |r| == |cs|
  {
    if cs == [] then [] else
      var n := |AllCarried(cs[..|cs| - 1])|;
      CommandsWith(cs[..|cs| - 1], values[..n]) + [CommandWith(cs[|cs| - 1], values[n..])]
  }

  function CommandValues(cs: seq<HeapCommand>): (r: seq<Command>)
    reads AllBoxes(AllCarried(cs)), AllArrays(AllCarried(cs)), AllSlots(AllCarried(cs))
    ensures |r| == |cs|
  {
    CommandsWith(cs, Values(AllCarried(cs)))
  }

  lemma LastCommand(cs: seq<HeapCommand>)
    requires cs != []
    ensures CommandValues(cs) == CommandValues(cs[..|cs| - 1]) + [CommandValue(cs[|cs| - 1])]
  {
    var front, last := cs[..|cs| - 1], cs[|cs| - 1];
    ValuesJoin(AllCarried(front), Carried(last));
    var a, b := Values(AllCarried(front)), Values(Carried(last));
    hide Values, AllBoxes, AllArrays, AllSlots, Carried, CommandWith;
    assert (a + b)[..|a|] == a && (a + b)[|a|..] == b;
  }

  lemma {:induction false} CommandAt(cs: seq<HeapCommand>, i: nat)
    requires i < |cs|
    ensures CommandValues(cs)[i] == CommandValue(cs[i])
    decreases |cs|
  {
    LastCommand(cs);
    hide CommandValues, CommandValue;
    if i < |cs| - 1 {
      CommandAt(cs[..|cs| - 1], i);
    }
  }

  // Putting values into memory, as decoding does.

  method PlaceTimeline(c: TimelineConfig) returns (r: TimelineBox)
    ensures fresh(r) && fresh(r.clips) && r.Value() == c
  {
    var clips := new Clip[|c.clips|](i requires 0 <= i < |c.clips| => c.clips[i]);
    r := new TimelineBox(c.tracks, clips, c.settings);
    assert clips[..] == c.clips;
  }

  method PlaceDirector(c: DirectorConfig) returns (r: DirectorBox)
    ensures fresh(r) && fresh(r.objects) && r.Value() == c
  {
    var objects := new Object[|c.objects|](i requires 0 <= i < |c.objects| => c.objects[i]);
    r := new DirectorBox(c, objects);
    assert objects[..] == c.objects;
  }

  method PlaceLine(ghost done: seq<Line>, x: Row) returns (r: Line)
    ensures fresh(r.inputs) && LineValues(done + [r]) == old(LineValues(done)) + [x]
  {
    var inputs := new Option<Id>[|x.inputs|](i requires 0 <= i < |x.inputs| => x.inputs[i]);
    assert inputs[..] == x.inputs;
    r := Line(x.id, x.enabled, x.prompt, inputs);
    assert (done + [r])[..|done|] == done;
  }

  method PlaceLines(rows: seq<Row>) returns (r: seq<Line>)
    ensures LineValues(r) == rows
  {
    r := [];
    for i := 0 to |rows|
      invariant LineValues(r) == rows[..i]
    {
      hide LineValues;
      var line := PlaceLine(r, rows[i]);
      r := r + [line];
    }
  }

  method PlaceBatch(c: BatchConfig) returns (r: BatchBox)
    ensures fresh(r) && r.Value() == c
  {
    var lines := PlaceLines(c.rows);
    var rows := new Line[|lines|](i requires 0 <= i < |lines| => lines[i]);
    assert rows[..] == lines;
    r := new BatchBox(c.profile, c.columns, rows, c.settings);
  }

  method WithTimeline(ghost done: seq<HeapNode>, n: HeapNode, c: Option<TimelineConfig>) returns (r: HeapNode)
    requires n.config.timeline == None
    ensures Values(done) == old(Values(done))
    ensures r.face == n.face && NodeValue(r) == old(NodeValue(n)).(config := old(NodeValue(n)).config.(timeline := c))
    ensures r.config == n.config.(timeline := r.config.timeline)
  {
    hide Values, AllBoxes, AllArrays, AllSlots;
    r := n;
    if c.Some? {
      var box := PlaceTimeline(c.value);
      r := r.(config := r.config.(timeline := Some(box)));
    }
  }

  method WithDirector(ghost done: seq<HeapNode>, n: HeapNode, c: Option<DirectorConfig>) returns (r: HeapNode)
    requires n.config.director == None
    ensures Values(done) == old(Values(done))
    ensures r.face == n.face && NodeValue(r) == old(NodeValue(n)).(config := old(NodeValue(n)).config.(director := c))
    ensures r.config == n.config.(director := r.config.director)
  {
    hide Values, AllBoxes, AllArrays, AllSlots;
    r := n;
    if c.Some? {
      var box := PlaceDirector(c.value);
      r := r.(config := r.config.(director := Some(box)));
    }
  }

  method WithBatch(ghost done: seq<HeapNode>, n: HeapNode, c: Option<BatchConfig>) returns (r: HeapNode)
    requires n.config.batch == None
    ensures Values(done) == old(Values(done))
    ensures r.face == n.face && NodeValue(r) == old(NodeValue(n)).(config := old(NodeValue(n)).config.(batch := c))
  {
    hide Values, AllBoxes, AllArrays, AllSlots;
    r := n;
    if c.Some? {
      var box := PlaceBatch(c.value);
      r := r.(config := r.config.(batch := Some(box)));
    }
  }

  method PlaceNode(ghost done: seq<HeapNode>, n: Node) returns (r: HeapNode)
    ensures Values(done + [r]) == old(Values(done)) + [n]
  {
    r := HeapNode(n, HeapConfig(n.config.text, n.config.collapsed, None, None, None, n.config.generation));
    hide Values, AllBoxes, AllArrays, AllSlots;
    assert NodeValue(r) == n.(config := n.config.(timeline := None, director := None, batch := None));
    hide *;
    r := WithTimeline(done, r, n.config.timeline);
    r := WithDirector(done, r, n.config.director);
    r := WithBatch(done, r, n.config.batch);
    ValuesAppend(done, r);
  }

  method PlaceNodes(ns: seq<Node>) returns (r: seq<HeapNode>)
    ensures Values(r) == ns
  {
    r := [];
    assert Values(r) == [];
    hide *;
    for i := 0 to |ns|
      invariant Values(r) == ns[..i]
    {
      var n := PlaceNode(r, ns[i]);
      r := r + [n];
    }
  }
}
