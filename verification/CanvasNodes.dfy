/** Canvas nodes and edges, and what makes the content of a node acceptable. */
module CanvasNodes {
  import opened Wrappers
  import opened Ids
  import opened Rows

  const DAY_MS: int := 24 * 60 * 60 * 1000

  /** Node types, and the kinds of a clip or track, which share their names. */
  datatype Kind =
    | Text | Group | Image | Video | Audio | Model | BatchTable | Timeline | Director | Generation
    | Subtitle | OtherKind(name: string)

  datatype NodeAction = Resource | Tool | OtherAction

  datatype RefType = NoRef | MediaAsset | OtherRef

  // Tool configurations. `settings` stands for the fields that have no rule here.

  datatype Input = Input(role: string, asset: Id)

  datatype GenerationConfig = GenerationConfig(profile: Option<Id>, inputs: seq<Input>, settings: string)

  datatype Column = Column(id: Id, caption: string)

  datatype Row = Row(id: Id, enabled: bool, prompt: string, inputs: seq<Option<Id>>)

  datatype BatchConfig = BatchConfig(profile: Option<Id>, columns: seq<Column>, rows: seq<Row>, settings: string)

  datatype Track = Track(id: Id, kind: Kind, caption: string, settings: string)

  datatype Clip = Clip(
    id: Id, track: Id, kind: Kind, node: Option<Id>, asset: Option<Id>, title: string,
    start: int, duration: int, sourceStart: int, sourceDuration: Option<int>, settings: string)

  datatype TimelineConfig = TimelineConfig(tracks: seq<Track>, clips: seq<Clip>, settings: string)

  datatype Frame = Frame(id: Id, settings: string)

  datatype BoneTrack = BoneTrack(bone: string, frames: seq<Frame>)

  datatype ObjectKind = Primitive | ModelObject | Actor | Billboard | OtherObject

  datatype Object = Object(
    id: Id, kind: ObjectKind, builtin: bool, node: Option<Id>, asset: Option<Id>, activeMotion: Option<Id>,
    motions: seq<Frame>, frames: seq<Frame>, bones: seq<BoneTrack>, settings: string)

  datatype Camera = Camera(id: Id, follow: Option<Id>, lookAt: Option<Id>, frames: seq<Frame>, settings: string)

  datatype Light = Light(id: Id, settings: string)

  datatype Screenshot = Screenshot(id: Id, asset: Id, settings: string)

  datatype Shot = Shot(id: Id, camera: Id, screenshots: seq<Screenshot>, settings: string)

  datatype Cover = Cover(asset: Id, shot: Id)

  datatype DirectorConfig = DirectorConfig(
    id: Id, objects: seq<Object>, cameras: seq<Camera>, lights: seq<Light>, shots: seq<Shot>,
    activeShot: Id, cover: Option<Cover>, panorama: Option<Id>, settings: string)

  datatype Config = Config(
    text: Option<string>, collapsed: Option<bool>, batch: Option<BatchConfig>,
    timeline: Option<TimelineConfig>, director: Option<DirectorConfig>, generation: Option<GenerationConfig>)

  datatype Node = Node(
    id: Id, title: string, kind: Kind, action: NodeAction, config: Config, x: real, y: real,
    width: Option<real>, height: Option<real>, refType: RefType, ref: Option<Id>,
    parent: Option<Id>, operation: Option<Id>, z: int)

  datatype Edge = Edge(id: Id, isAnnotation: bool, source: Id, target: Id, role: string, binding: string)

  datatype Viewport = Viewport(x: real, y: real, zoom: real)

  function NodeId(n: Node): Id { n.id }
  function EdgeId(e: Edge): Id { e.id }
  function ColumnId(x: Column): Id { x.id }
  function RowId(x: Row): Id { x.id }
  function TrackId(x: Track): Id { x.id }
  function ClipId(x: Clip): Id { x.id }
  function FrameId(x: Frame): Id { x.id }
  function ObjectId(x: Object): Id { x.id }
  function CameraId(x: Camera): Id { x.id }
  function LightId(x: Light): Id { x.id }
  function ShotId(x: Shot): Id { x.id }

  // Small rules.

  predicate Blank(s: string) {
    forall i :: 0 <= i < |s| ==> s[i] == ' ' || s[i] == '\t' || s[i] == '\n' || s[i] == '\r'
  }

  predicate TitleOk(s: string) {
    !Blank(s) && |s| <= 128
  }

  predicate PromptOk(s: string) {
    |s| <= 10000
  }

  predicate Coordinate(v: real) {
    -1000000.0 <= v <= 1000000.0
  }

  predicate Dimension(kind: Kind, v: Option<real>) {
    v.Some? ==> 40.0 <= v.value <= if kind == Group then 100000.0 else 2000.0
  }

  predicate ZOk(z: int) {
    -1000000 <= z <= 1000000
  }

  predicate ViewportOk(v: Viewport) {
    Coordinate(v.x) && Coordinate(v.y) && 0.05 <= v.zoom <= 4.0
  }

  predicate MediaKind(k: Kind) {
    k == Image || k == Video || k == Audio || k == Model
  }

  predicate ToolKind(k: Kind) {
    k == BatchTable || k == Timeline || k == Director || k == Generation
  }

  /** Nodes the user may change; every other node is a protected projection of business data. */
  predicate Editable(n: Node) {
    && n.operation == None
    && if ToolKind(n.kind) then n.action == Tool && n.refType == NoRef && n.ref == None
       else if n.action != Resource then false
       else if n.kind == Text || n.kind == Group then n.refType == NoRef && n.ref == None
       else MediaKind(n.kind) && n.refType == MediaAsset && n.ref.Some? && n.ref.value != NIL
  }

  predicate Annotation(e: Edge) {
    e.isAnnotation && e.role == "" && e.binding == ""
  }

  /** Identities of a list are neither nil nor repeated. */
  ghost predicate Distinct(ids: seq<Id>) {
    NIL !in ids && NoDup(ids)
  }

  // Rules of the four tools.

  predicate InputOk(x: Input) {
    x.asset != NIL && !Blank(x.role) && x.role != "prompt" && |x.role| <= 128
  }

  predicate GenerationOk(c: GenerationConfig) {
    && c.profile != Some(NIL)
    && |c.inputs| <= 255
    && (forall i :: 0 <= i < |c.inputs| ==> InputOk(c.inputs[i]))
  }

  predicate RowOk(x: Row, columns: nat) {
    PromptOk(x.prompt) && |x.inputs| == columns && forall i :: 0 <= i < |x.inputs| ==> x.inputs[i] != Some(NIL)
  }

  ghost predicate BatchOk(c: BatchConfig) {
    && c.profile != Some(NIL)
    && 1 <= |c.columns| <= 6 && |c.rows| <= 500
    && Distinct(Keys(c.columns, ColumnId))
    && (forall i :: 0 <= i < |c.columns| ==> TitleOk(c.columns[i].caption))
    && Distinct(Keys(c.rows, RowId))
    && (forall i :: 0 <= i < |c.rows| ==> RowOk(c.rows[i], |c.columns|))
  }

  predicate TrackKind(k: Kind) {
    k == Video || k == Audio || k == Image || k == Text || k == Subtitle
  }

  predicate TimesOk(c: Clip) {
    && c.start >= 0
    && 100 <= c.duration <= DAY_MS && c.start <= DAY_MS - c.duration
    && 0 <= c.sourceStart <= DAY_MS
    && (c.sourceDuration.Some? ==>
          && 100 <= c.sourceDuration.value <= DAY_MS
          && c.sourceStart <= c.sourceDuration.value
          && (c.kind == Video || c.kind == Audio ==> c.duration <= c.sourceDuration.value - c.sourceStart))
  }

  /** Text has no media; every other clip names its media by node, by asset, or by both. */
  predicate ClipOk(c: Clip) {
    && TitleOk(c.title) && TimesOk(c)
    && c.node != Some(NIL) && c.asset != Some(NIL)
    && if c.kind == Text || c.kind == Subtitle then c.node == None && c.asset == None
       else c.node.Some? || c.asset.Some?
  }

  predicate OnTrack(tracks: map<Id, Track>, c: Clip) {
    c.track in tracks && tracks[c.track].kind == c.kind
  }

  predicate Overlap(a: Clip, b: Clip) {
    a.start < b.start + b.duration && b.start < a.start + a.duration
  }

  /** Two clips on one track never play at the same time. */
  ghost predicate NoOverlap(clips: seq<Clip>) {
    forall i, j :: 0 <= i < j < |clips| && clips[i].track == clips[j].track ==> !Overlap(clips[i], clips[j])
  }

  ghost predicate TimelineOk(c: TimelineConfig) {
    && |c.tracks| <= 32 && |c.clips| <= 1000
    && Distinct(Keys(c.tracks, TrackId))
    && (forall i :: 0 <= i < |c.tracks| ==> TrackKind(c.tracks[i].kind) && TitleOk(c.tracks[i].caption))
    && Distinct(Keys(c.clips, ClipId))
    && (forall i :: 0 <= i < |c.clips| ==> OnTrack(Index(c.tracks, TrackId), c.clips[i]) && ClipOk(c.clips[i]))
    && NoOverlap(c.clips)
  }

  ghost predicate FramesOk(frames: seq<Frame>) {
    |frames| <= 256 && Distinct(Keys(frames, FrameId))
  }

  ghost predicate BonesOk(bones: seq<BoneTrack>) {
    && |bones| <= 50
    && (forall i, j :: 0 <= i < j < |bones| ==> bones[i].bone != bones[j].bone)
    && (forall i :: 0 <= i < |bones| ==> FramesOk(bones[i].frames))
  }

  predicate ObjectMediaOk(x: Object) {
    && x.asset != Some(NIL) && x.node != Some(NIL)
    && match x.kind
       case Primitive => true
       case ModelObject => x.asset.Some?
       case Actor => x.asset.Some? || x.builtin
       case Billboard => x.asset.Some? || x.node.Some?
       case OtherObject => false
  }

  ghost predicate ObjectOk(x: Object) {
    && ObjectMediaOk(x)
    && |x.motions| <= 128 && Distinct(Keys(x.motions, FrameId))
    && (x.activeMotion.Some? ==> x.activeMotion.value in Keys(x.motions, FrameId))
    && FramesOk(x.frames)
    && BonesOk(x.bones)
  }

  ghost predicate CameraOk(x: Camera, objects: seq<Id>) {
    && (x.follow.Some? ==> x.follow.value in objects)
    && (x.lookAt.Some? ==> x.lookAt.value in objects)
    && FramesOk(x.frames)
  }

  function ScreenshotIds(shots: seq<Shot>): seq<Id> {
    if shots == [] then [] else
      ScreenshotIds(shots[..|shots| - 1]) + Keys(shots[|shots| - 1].screenshots, (s: Screenshot) => s.id)
  }

  ghost predicate ShotOk(x: Shot, cameras: seq<Id>) {
    && x.camera in cameras
    && |x.screenshots| <= 64
    && (forall i :: 0 <= i < |x.screenshots| ==> x.screenshots[i].asset != NIL)
  }

  ghost predicate OutputsOk(c: DirectorConfig) {
    && (c.cover.Some? ==> c.cover.value.asset != NIL && c.cover.value.shot in Keys(c.shots, ShotId))
    && |ScreenshotIds(c.shots)| <= 512
    && Distinct(ScreenshotIds(c.shots))
    && (forall i :: 0 <= i < |c.shots| ==> ShotOk(c.shots[i], Keys(c.cameras, CameraId)))
  }

  ghost predicate SceneOk(c: DirectorConfig) {
    && Distinct(Keys(c.objects, ObjectId)) && Distinct(Keys(c.cameras, CameraId))
    && Distinct(Keys(c.lights, LightId)) && Distinct(Keys(c.shots, ShotId))
    && c.activeShot in Keys(c.shots, ShotId)
    && (forall i :: 0 <= i < |c.objects| ==> ObjectOk(c.objects[i]))
    && (forall i :: 0 <= i < |c.cameras| ==> CameraOk(c.cameras[i], Keys(c.objects, ObjectId)))
  }

  ghost predicate DirectorOk(c: DirectorConfig) {
    && c.id != NIL && c.panorama != Some(NIL)
    && |c.objects| <= 128 && 1 <= |c.cameras| <= 16 && |c.lights| <= 32 && 1 <= |c.shots| <= 128
    && SceneOk(c)
    && OutputsOk(c)
  }

  // Rules of a node.

  predicate OnlyText(c: Config) {
    c.batch == None && c.timeline == None && c.director == None && c.generation == None
  }

  /** Exactly the one configuration that the node type has, and that one valid. */
  ghost predicate ConfigOk(kind: Kind, c: Config) {
    match kind
    case Generation =>
      c == Config(None, None, None, None, None, c.generation) && c.generation.Some? && GenerationOk(c.generation.value)
    case BatchTable => c == Config(None, None, c.batch, None, None, None) && c.batch.Some? && BatchOk(c.batch.value)
    case Timeline => c == Config(None, None, None, c.timeline, None, None)
      && c.timeline.Some? && TimelineOk(c.timeline.value)
    case Director => c == Config(None, None, None, None, c.director, None)
      && c.director.Some? && DirectorOk(c.director.value)
    case Text => OnlyText(c) && c.text.Some? && c.collapsed == None && PromptOk(c.text.value)
    case Group => OnlyText(c) && c.text == None && c.collapsed.Some?
    case Image => OnlyText(c) && c.text == None && c.collapsed == None
    case Video => OnlyText(c) && c.text == None && c.collapsed == None
    case Audio => OnlyText(c) && c.text == None && c.collapsed == None
    case Model => OnlyText(c) && c.text == None && c.collapsed == None
    case _ => false
  }

  ghost predicate NodeOk(n: Node) {
    && TitleOk(n.title)
    && Coordinate(n.x) && Coordinate(n.y)
    && Dimension(n.kind, n.width) && Dimension(n.kind, n.height)
    && ConfigOk(n.kind, n.config)
    && ZOk(n.z)
  }

  // References between nodes.

  /** A node that stands for a media asset of the given kind. */
  predicate MediaNode(nodes: map<Id, Node>, id: Id, kind: Kind) {
    id in nodes && nodes[id].kind == kind && nodes[id].refType == MediaAsset && nodes[id].ref.Some?
  }

  predicate ClipResolves(nodes: map<Id, Node>, c: Clip) {
    c.node.Some? ==> MediaNode(nodes, c.node.value, c.kind) && (c.asset.Some? ==> c.asset == nodes[c.node.value].ref)
  }

  predicate ObjectResolves(nodes: map<Id, Node>, x: Object) {
    x.node.Some? ==>
      && MediaNode(nodes, x.node.value, if x.kind == Billboard then Image else Model)
      && (x.asset.Some? ==> x.asset == nodes[x.node.value].ref)
  }

  predicate SlotResolves(nodes: map<Id, Node>, slot: Option<Id>) {
    slot.Some? ==> MediaNode(nodes, slot.value, Image)
  }

  predicate RowResolves(nodes: map<Id, Node>, x: Row) {
    forall i :: 0 <= i < |x.inputs| ==> SlotResolves(nodes, x.inputs[i])
  }

  predicate Resolves(nodes: map<Id, Node>, c: Config) {
    && (c.director.Some? ==> forall i :: 0 <= i < |c.director.value.objects| ==>
          ObjectResolves(nodes, c.director.value.objects[i]))
    && (c.timeline.Some? ==> forall i :: 0 <= i < |c.timeline.value.clips| ==>
          ClipResolves(nodes, c.timeline.value.clips[i]))
    && (c.batch.Some? ==> forall i :: 0 <= i < |c.batch.value.rows| ==> RowResolves(nodes, c.batch.value.rows[i]))
  }

  predicate ToolsResolve(nodes: seq<Node>) {
    forall i :: 0 <= i < |nodes| ==> Resolves(Index(nodes, NodeId), nodes[i].config)
  }

  // The parent forest.

  predicate ParentOk(nodes: map<Id, Node>, n: Node) {
    n.parent.Some? ==>
      n.parent.value in nodes && nodes[n.parent.value].kind == Group && nodes[n.parent.value].action == Resource
  }

  /** Climbing from `id` through acceptable parents reaches a node without a parent in at most `k` steps. */
  predicate Climbs(nodes: map<Id, Node>, id: Id, k: nat)
    requires id in nodes
    decreases k
  {
    && ParentOk(nodes, nodes[id])
    && (nodes[id].parent.Some? ==> k > 0 && Climbs(nodes, nodes[id].parent.value, k - 1))
  }

  ghost predicate Rooted(nodes: map<Id, Node>, id: Id)
    requires id in nodes
  {
    exists k: nat :: Climbs(nodes, id, k)
  }

  ghost predicate Forest(nodes: seq<Node>) {
    forall id | id in Index(nodes, NodeId) :: Rooted(Index(nodes, NodeId), id)
  }
}
