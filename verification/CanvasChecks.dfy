/** The loops that check tool configurations, references and parents, each against its rule. */
module CanvasChecks {
  import opened Wrappers
  import opened Ids
  import opened Rows
  import opened CanvasNodes

  method CheckIds<T>(s: seq<T>, key: T -> Id) returns (ok: bool, seen: set<Id>)
    ensures ok == Distinct(Keys(s, key))
    ensures ok ==> seen == Elements(Keys(s, key))
  {
    seen := {};
    for n := 0 to |s|
      invariant Fresh({}, Keys(s[..n], key)) && seen == Elements(Keys(s[..n], key))
    {
      NextRow(s, n, key, {});
      if key(s[n]) == NIL || key(s[n]) in seen {
        return false, seen;
      }
      seen := seen + {key(s[n])};
    }
    assert s[..|s|] == s;
    return true, seen;
  }

  method ValidGeneration(c: GenerationConfig) returns (ok: bool)
    ensures ok == GenerationOk(c)
  {
    if c.profile == Some(NIL) || |c.inputs| > 255 {
      return false;
    }
    for i := 0 to |c.inputs|
      invariant forall j :: 0 <= j < i ==> InputOk(c.inputs[j])
    {
      if !InputOk(c.inputs[i]) {
        return false;
      }
    }
    return true;
  }

  method ValidBatch(c: BatchConfig) returns (ok: bool)
    ensures ok == BatchOk(c)
  {
    if c.profile == Some(NIL) || |c.columns| < 1 || |c.columns| > 6 || |c.rows| > 500 {
      return false;
    }
    hide Distinct, Keys, Elements, RowOk, TitleOk;
    var columns, rows;
    ok, columns := CheckIds(c.columns, ColumnId);
    if !ok {
      return;
    }
    for i := 0 to |c.columns|
      invariant forall j :: 0 <= j < i ==> TitleOk(c.columns[j].caption)
    {
      if !TitleOk(c.columns[i].caption) {
        return false;
      }
    }
    ok, rows := CheckIds(c.rows, RowId);
    if !ok {
      return;
    }
    for i := 0 to |c.rows|
      invariant forall j :: 0 <= j < i ==> RowOk(c.rows[j], |c.columns|)
    {
      if !RowOk(c.rows[i], |c.columns|) {
        return false;
      }
    }
    return true;
  }

  // A timeline: the clips of each track are sorted by their start, then compared with their neighbours.

  predicate StartLe(a: Clip, b: Clip) {
    a.start <= b.start
  }

  /** The clips of one track, in the order of the timeline. */
  function OfTrack(clips: seq<Clip>, track: Id): (r: seq<Clip>)
    ensures forall c :: c in r <==> c in clips && c.track == track
  {
    if clips == [] then [] else
      var front, last := OfTrack(clips[..|clips| - 1], track), clips[|clips| - 1];
      assert clips == clips[..|clips| - 1] + [last];
      if last.track == track then front + [last] else front
  }

  lemma {:induction false} OfTrackDistinct(clips: seq<Clip>, track: Id)
    requires NoDup(Keys(clips, ClipId))
    ensures NoDup(OfTrack(clips, track))
  {
    if clips != [] {
      var front, last := clips[..|clips| - 1], clips[|clips| - 1];
      assert Keys(clips, ClipId) == Keys(front, ClipId) + [last.id];
      NoDupParts(Keys(front, ClipId), [last.id]);
      OfTrackDistinct(front, track);
      assert last !in front by {
        forall i | 0 <= i < |front| ensures front[i] != last {
          assert Keys(front, ClipId)[i] != last.id;
        }
      }
    }
  }

  ghost predicate Apart(clips: seq<Clip>) {
    forall i, j :: 0 <= i < j < |clips| ==> !Overlap(clips[i], clips[j])
  }

  ghost predicate NeighboursApart(clips: seq<Clip>, n: nat) {
    forall i :: 0 < i < |clips| && i < n ==> clips[i - 1].start + clips[i - 1].duration <= clips[i].start
  }

  lemma {:induction false} NeighboursFollow(clips: seq<Clip>, i: nat, j: nat)
    requires NeighboursApart(clips, |clips|) && i < j < |clips|
    requires forall k :: 0 <= k < |clips| ==> clips[k].duration > 0
    ensures clips[i].start + clips[i].duration <= clips[j].start
    decreases j
  {
    if j > i + 1 {
      NeighboursFollow(clips, i, j - 1);
    }
  }

  /** After sorting, comparing neighbours finds every overlap. */
  lemma SortedApart(clips: seq<Clip>)
    requires SortedBy(clips, StartLe) && forall k :: 0 <= k < |clips| ==> clips[k].duration > 0
    ensures Apart(clips) <==> NeighboursApart(clips, |clips|)
  {
    if NeighboursApart(clips, |clips|) {
      forall i, j | 0 <= i < j < |clips| ensures !Overlap(clips[i], clips[j]) {
        NeighboursFollow(clips, i, j);
      }
    }
    if Apart(clips) {
      forall i | 0 < i < |clips| ensures clips[i - 1].start + clips[i - 1].duration <= clips[i].start {
        var p := i - 1;
        assert StartLe(clips[p], clips[i]);
        assert !Overlap(clips[p], clips[i]);
      }
    }
  }

  lemma ApartReordered(s: seq<Clip>, t: seq<Clip>)
    requires Reordered(s, t) && NoDup(s) && Apart(s)
    ensures Apart(t)
  {
    ReorderedMembers(s, t);
    NoDupIsMultiset(s);
    NoDupIsMultiset(t);
    forall i, j | 0 <= i < j < |t| ensures !Overlap(t[i], t[j]) {
      assert t[i] in s && t[j] in s && t[i] != t[j];
      var a :| 0 <= a < |s| && s[a] == t[i];
      var b :| 0 <= b < |s| && s[b] == t[j];
      assert a < b || b < a;
    }
  }

  method CheckTrack(clips: seq<Clip>, track: Id) returns (ok: bool)
    requires NoDup(Keys(clips, ClipId)) && forall k :: 0 <= k < |clips| ==> clips[k].duration > 0
    ensures ok == Apart(OfTrack(clips, track))
  {
    var lane := OfTrack(clips, track);
    var sorted := Sort(lane, StartLe);
    LaneSorted(clips, track);
    hide Sort, OfTrack, Apart, SortedBy, Reordered;
    var i := 1;
    while i < |sorted|
      invariant i >= 1 && NeighboursApart(sorted, i)
    {
      if sorted[i].start < sorted[i - 1].start + sorted[i - 1].duration {
        return false;
      }
      i := i + 1;
    }
    return true;
  }

  lemma LaneSorted(clips: seq<Clip>, track: Id)
    requires NoDup(Keys(clips, ClipId)) && forall k :: 0 <= k < |clips| ==> clips[k].duration > 0
    ensures var sorted := Sort(OfTrack(clips, track), StartLe);
            NeighboursApart(sorted, |sorted|) <==> Apart(OfTrack(clips, track))
  {
    var lane := OfTrack(clips, track);
    var sorted := Sort(lane, StartLe);
    SortSorts(lane, StartLe);
    OfTrackDistinct(clips, track);
    ReorderedMembers(lane, sorted);
    forall k | 0 <= k < |sorted| ensures sorted[k].duration > 0 {
      assert sorted[k] in lane;
    }
    hide Sort, OfTrack;
    SortedApart(sorted);
    NoDupIsMultiset(lane);
    NoDupIsMultiset(sorted);
    if Apart(lane) {
      ApartReordered(lane, sorted);
    }
    if Apart(sorted) {
      ApartReordered(sorted, lane);
    }
  }

  lemma OverlapByTrack(clips: seq<Clip>)
    requires NoDup(Keys(clips, ClipId))
    ensures NoOverlap(clips) <==> forall c | c in clips :: Apart(OfTrack(clips, c.track))
  {
    if NoOverlap(clips) {
      forall c | c in clips ensures Apart(OfTrack(clips, c.track)) {
        LaneApart(clips, c.track);
      }
    }
    if forall c | c in clips :: Apart(OfTrack(clips, c.track)) {
      hide Apart, Overlap;
      forall i, j | 0 <= i < j < |clips| && clips[i].track == clips[j].track ensures !Overlap(clips[i], clips[j]) {
        assert clips[i] in clips && Apart(OfTrack(clips, clips[i].track));
        ApartInLane(clips, i, j);
      }
    }
  }

  lemma ApartInLane(clips: seq<Clip>, i: nat, j: nat)
    requires NoDup(Keys(clips, ClipId)) && i < j < |clips| && clips[i].track == clips[j].track
    requires Apart(OfTrack(clips, clips[i].track))
    ensures !Overlap(clips[i], clips[j])
  {
    var lane := OfTrack(clips, clips[i].track);
    assert clips[i] in lane && clips[j] in lane;
    assert clips[i] != clips[j] by {
      assert Keys(clips, ClipId)[i] != Keys(clips, ClipId)[j];
    }
    var a :| 0 <= a < |lane| && lane[a] == clips[i];
    var b :| 0 <= b < |lane| && lane[b] == clips[j];
    assert a < b || b < a;
  }

  lemma LaneApart(clips: seq<Clip>, track: Id)
    requires NoDup(Keys(clips, ClipId)) && NoOverlap(clips)
    ensures Apart(OfTrack(clips, track))
  {
    var lane := OfTrack(clips, track);
    OfTrackDistinct(clips, track);
    forall i, j | 0 <= i < j < |lane| ensures !Overlap(lane[i], lane[j]) {
      assert lane[i] in clips && lane[j] in clips && lane[i] != lane[j];
      var a :| 0 <= a < |clips| && clips[a] == lane[i];
      var b :| 0 <= b < |clips| && clips[b] == lane[j];
      assert a < b || b < a;
    }
  }

  method CheckLanes(clips: seq<Clip>) returns (ok: bool)
    requires NoDup(Keys(clips, ClipId)) && forall k :: 0 <= k < |clips| ==> clips[k].duration > 0
    ensures ok == NoOverlap(clips)
  {
    OverlapByTrack(clips);
    hide NoOverlap, Apart, OfTrack, Keys;
    var used := set c | c in clips :: c.track;
    ok := CheckEachTrack(clips, used);
  }

  method CheckEachTrack(clips: seq<Clip>, used: set<Id>) returns (ok: bool)
    requires NoDup(Keys(clips, ClipId)) && forall k :: 0 <= k < |clips| ==> clips[k].duration > 0
    ensures ok <==> forall t | t in used :: Apart(OfTrack(clips, t))
  {
    hide Apart, OfTrack, Keys, NoDup;
    var todo := used;
    while todo != {}
      invariant todo <= used
      invariant forall t | t in used - todo :: Apart(OfTrack(clips, t))
    {
      var track :| track in todo;
      var apart := CheckTrack(clips, track);
      if !apart {
        return false;
      }
      todo := todo - {track};
    }
    return true;
  }

  method CheckTracks(tracks: seq<Track>) returns (ok: bool, byId: map<Id, Track>)
    ensures ok <==> Distinct(Keys(tracks, TrackId)) && forall i :: 0 <= i < |tracks| ==>
              TrackKind(tracks[i].kind) && TitleOk(tracks[i].caption)
    ensures ok ==> byId == Index(tracks, TrackId)
  {
    hide Index, TitleOk, Elements, Keys;
    byId := map[];
    assert Fresh({}, Keys(tracks[..0], TrackId)) && Index(tracks[..0], TrackId) == map[]
      && Elements(Keys(tracks[..0], TrackId)) == {} by {
      NoTracks(tracks[..0]);
    }
    for n := 0 to |tracks|
      invariant Fresh({}, Keys(tracks[..n], TrackId)) && byId == Index(tracks[..n], TrackId)
      invariant byId.Keys == Elements(Keys(tracks[..n], TrackId))
      invariant forall i :: 0 <= i < n ==> TrackKind(tracks[i].kind) && TitleOk(tracks[i].caption)
    {
      NextRow(tracks, n, TrackId, {});
      if tracks[n].id == NIL || tracks[n].id in byId || !TrackKind(tracks[n].kind) || !TitleOk(tracks[n].caption) {
        return false, byId;
      }
      byId := byId[tracks[n].id := tracks[n]];
    }
    assert tracks[..|tracks|] == tracks;
    return true, byId;
  }

  lemma NoTracks(tracks: seq<Track>)
    requires tracks == []
    ensures Fresh({}, Keys(tracks, TrackId)) && Index(tracks, TrackId) == map[] && Elements(Keys(tracks, TrackId)) == {}
  {
  }

  method ValidTimeline(c: TimelineConfig) returns (ok: bool)
    ensures ok == TimelineOk(c)
  {
    if |c.tracks| > 32 || |c.clips| > 1000 {
      return false;
    }
    hide Keys, Index, Elements, NoOverlap, TitleOk;
    var tracks, ids;
    ok, tracks := CheckTracks(c.tracks);
    if !ok {
      return;
    }
    ok, ids := CheckIds(c.clips, ClipId);
    if !ok {
      return;
    }
    for i := 0 to |c.clips|
      invariant forall j :: 0 <= j < i ==> OnTrack(tracks, c.clips[j]) && ClipOk(c.clips[j])
    {
      if !OnTrack(tracks, c.clips[i]) || !ClipOk(c.clips[i]) {
        return false;
      }
    }
    ok := CheckLanes(c.clips);
  }

  // A director scene.

  method ValidBones(bones: seq<BoneTrack>) returns (ok: bool)
    ensures ok == BonesOk(bones)
  {
    if |bones| > 50 {
      return false;
    }
    hide FramesOk;
    var seen := {};
    for i := 0 to |bones|
      invariant seen == set j | 0 <= j < i :: bones[j].bone
      invariant forall j, k :: 0 <= j < k < i ==> bones[j].bone != bones[k].bone
      invariant forall j :: 0 <= j < i ==> FramesOk(bones[j].frames)
    {
      if bones[i].bone in seen {
        return false;
      }
      seen := seen + {bones[i].bone};
      var frames := ValidFrames(bones[i].frames);
      if !frames {
        return false;
      }
    }
    return true;
  }

  method ValidFrames(frames: seq<Frame>) returns (ok: bool)
    ensures ok == FramesOk(frames)
  {
    if |frames| > 256 {
      return false;
    }
    var seen;
    ok, seen := CheckIds(frames, FrameId);
  }

  method ValidObject(x: Object) returns (ok: bool)
    ensures ok == ObjectOk(x)
  {
    if !ObjectMediaOk(x) || |x.motions| > 128 {
      return false;
    }
    hide Distinct, Keys, FramesOk, BonesOk, ObjectMediaOk;
    ok := ValidFrames(x.frames);
    if !ok {
      return;
    }
    ok := ValidBones(x.bones);
    if !ok {
      return;
    }
    var motions;
    ok, motions := CheckIds(x.motions, FrameId);
    if ok && x.activeMotion.Some? {
      ok := x.activeMotion.value in motions;
    }
  }

  method ValidObjects(objects: seq<Object>) returns (ok: bool)
    ensures ok <==> forall i :: 0 <= i < |objects| ==> ObjectOk(objects[i])
  {
    hide ObjectOk;
    for i := 0 to |objects|
      invariant forall j :: 0 <= j < i ==> ObjectOk(objects[j])
    {
      var valid := ValidObject(objects[i]);
      if !valid {
        return false;
      }
    }
    return true;
  }

  method ValidCameras(cameras: seq<Camera>, objects: seq<Id>, ids: set<Id>) returns (ok: bool)
    requires ids == Elements(objects)
    ensures ok <==> forall i :: 0 <= i < |cameras| ==> CameraOk(cameras[i], objects)
  {
    hide FramesOk;
    for i := 0 to |cameras|
      invariant forall j :: 0 <= j < i ==> CameraOk(cameras[j], objects)
    {
      var x := cameras[i];
      var frames := ValidFrames(x.frames);
      if (x.follow.Some? && x.follow.value !in ids) || (x.lookAt.Some? && x.lookAt.value !in ids) || !frames {
        return false;
      }
    }
    return true;
  }

  function ScreenshotId(x: Screenshot): Id { x.id }

  lemma NextShot(shots: seq<Shot>, n: nat)
    requires n < |shots|
    ensures ScreenshotIds(shots[..n + 1]) == ScreenshotIds(shots[..n]) + Keys(shots[n].screenshots, ScreenshotId)
  {
    assert shots[..n + 1][..n] == shots[..n];
  }

  lemma {:induction false} ScreenshotsUpTo(shots: seq<Shot>, n: nat)
    requires n <= |shots|
    ensures ScreenshotIds(shots[..n]) <= ScreenshotIds(shots)
    decreases |shots| - n
  {
    if n < |shots| {
      ScreenshotsUpTo(shots, n + 1);
      NextShot(shots, n);
    } else {
      assert shots[..n] == shots;
    }
  }

  lemma DistinctPrefix(s: seq<Id>, t: seq<Id>)
    requires s <= t && Distinct(t)
    ensures Distinct(s)
  {
    forall i, j | 0 <= i < j < |s| ensures s[i] != s[j] {
      assert t[i] != t[j];
    }
  }

  lemma DistinctJoin(s: seq<Id>, t: seq<Id>)
    ensures Distinct(s + t) <==> Distinct(s) && Fresh(Elements(s), t)
    ensures Elements(s + t) == Elements(s) + Elements(t)
  {
    FreshJoin(s, t);
  }

  method CheckScreenshots(screenshots: seq<Screenshot>, before: set<Id>) returns (ok: bool, seen: set<Id>)
    ensures ok <==>
              && Fresh(before, Keys(screenshots, ScreenshotId))
              && forall i :: 0 <= i < |screenshots| ==> screenshots[i].asset != NIL
    ensures ok ==> seen == before + Elements(Keys(screenshots, ScreenshotId))
  {
    seen := before;
    for n := 0 to |screenshots|
      invariant Fresh(before, Keys(screenshots[..n], ScreenshotId))
      invariant seen == before + Elements(Keys(screenshots[..n], ScreenshotId))
      invariant forall i :: 0 <= i < n ==> screenshots[i].asset != NIL
    {
      NextRow(screenshots, n, ScreenshotId, before);
      if screenshots[n].id == NIL || screenshots[n].id in seen || screenshots[n].asset == NIL {
        return false, seen;
      }
      seen := seen + {screenshots[n].id};
    }
    assert screenshots[..|screenshots|] == screenshots;
    return true, seen;
  }

  lemma SizeOfDistinct(s: seq<Id>)
    requires NoDup(s)
    ensures |Elements(s)| == |s|
  {
    if s != [] {
      var front, last := s[..|s| - 1], s[|s| - 1];
      assert s == front + [last];
      NoDupParts(front, [last]);
      SizeOfDistinct(front);
      assert Elements(s) == Elements(front) + {last};
    }
  }

  ghost predicate ShotsOk(shots: seq<Shot>, cameras: seq<Id>) {
    && |ScreenshotIds(shots)| <= 512
    && Distinct(ScreenshotIds(shots))
    && (forall i :: 0 <= i < |shots| ==> ShotOk(shots[i], cameras))
  }

  lemma NextShotOk(shots: seq<Shot>, cameras: seq<Id>, n: nat)
    requires n < |shots| && ShotsOk(shots[..n], cameras)
    ensures ShotsOk(shots[..n + 1], cameras) <==>
              && ShotOk(shots[n], cameras)
              && |ScreenshotIds(shots[..n])| + |shots[n].screenshots| <= 512
              && Fresh(Elements(ScreenshotIds(shots[..n])), Keys(shots[n].screenshots, ScreenshotId))
    ensures ShotsOk(shots, cameras) ==> ShotsOk(shots[..n + 1], cameras)
  {
    NextShot(shots, n);
    DistinctJoin(ScreenshotIds(shots[..n]), Keys(shots[n].screenshots, ScreenshotId));
    hide ShotOk, Distinct, Fresh, ScreenshotIds;
    assert shots[..n + 1] == shots[..n] + [shots[n]];
    if ShotsOk(shots, cameras) {
      var m := n + 1;
      ScreenshotsUpTo(shots, m);
      DistinctPrefix(ScreenshotIds(shots[..m]), ScreenshotIds(shots));
    }
  }

  method ValidShots(shots: seq<Shot>, cameras: seq<Id>, ids: set<Id>) returns (ok: bool)
    requires ids == Elements(cameras)
    ensures ok == ShotsOk(shots, cameras)
  {
    hide ShotsOk, ScreenshotIds, Keys, Fresh;
    var seen := {};
    assert ShotsOk(shots[..0], cameras) && ScreenshotIds(shots[..0]) == [] by {
      NoShots(shots[..0], cameras);
    }
    for n := 0 to |shots|
      invariant ShotsOk(shots[..n], cameras) && seen == Elements(ScreenshotIds(shots[..n]))
    {
      NextShotOk(shots, cameras, n);
      NextShot(shots, n);
      DistinctJoin(ScreenshotIds(shots[..n]), Keys(shots[n].screenshots, ScreenshotId));
      assert |seen| == |ScreenshotIds(shots[..n])| by {
        ShotsSeen(shots[..n], cameras);
      }
      var x := shots[n];
      if x.camera !in ids || |x.screenshots| > 64 || |seen| + |x.screenshots| > 512 {
        return false;
      }
      ok, seen := CheckScreenshots(x.screenshots, seen);
      if !ok {
        return;
      }
    }
    assert shots[..|shots|] == shots;
    return true;
  }

  lemma NoShots(shots: seq<Shot>, cameras: seq<Id>)
    requires shots == []
    ensures ShotsOk(shots, cameras) && ScreenshotIds(shots) == []
  {
  }

  lemma ShotsSeen(shots: seq<Shot>, cameras: seq<Id>)
    requires ShotsOk(shots, cameras)
    ensures |Elements(ScreenshotIds(shots))| == |ScreenshotIds(shots)|
  {
    SizeOfDistinct(ScreenshotIds(shots));
  }

  method ValidDirector(c: DirectorConfig) returns (ok: bool)
    ensures ok == DirectorOk(c)
  {
    if c.id == NIL || c.panorama == Some(NIL) || |c.objects| > 128 || |c.cameras| < 1 || |c.cameras| > 16
      || |c.lights| > 32 || |c.shots| < 1 || |c.shots| > 128
    {
      return false;
    }
    hide Distinct, Keys, ObjectOk, CameraOk, ShotOk, ScreenshotIds;
    var objects, cameras, shots, lights;
    ok, objects := CheckIds(c.objects, ObjectId);
    if !ok {
      return;
    }
    ok, cameras := CheckIds(c.cameras, CameraId);
    if !ok {
      return;
    }
    ok, shots := CheckIds(c.shots, ShotId);
    if !ok || c.activeShot !in shots {
      return false;
    }
    ok, lights := CheckIds(c.lights, LightId);
    if !ok {
      return;
    }
    ok := ValidObjects(c.objects);
    if !ok {
      return;
    }
    ok := ValidCameras(c.cameras, Keys(c.objects, ObjectId), objects);
    if !ok || (c.cover.Some? && (c.cover.value.asset == NIL || c.cover.value.shot !in shots)) {
      return false;
    }
    ok := ValidShots(c.shots, Keys(c.cameras, CameraId), cameras);
  }

  method ValidConfig(kind: Kind, c: Config) returns (ok: bool)
    ensures ok == ConfigOk(kind, c)
  {
    hide GenerationOk, BatchOk, TimelineOk, DirectorOk;
    if kind == Generation {
      if c != Config(None, None, None, None, None, c.generation) || c.generation == None {
        return false;
      }
      ok := ValidGeneration(c.generation.value);
      return;
    }
    if c.generation != None {
      return false;
    }
    if kind == BatchTable {
      if c != Config(None, None, c.batch, None, None, None) || c.batch == None {
        return false;
      }
      ok := ValidBatch(c.batch.value);
      return;
    }
    if kind == Timeline {
      if c != Config(None, None, None, c.timeline, None, None) || c.timeline == None {
        return false;
      }
      ok := ValidTimeline(c.timeline.value);
      return;
    }
    if kind == Director {
      if c != Config(None, None, None, None, c.director, None) || c.director == None {
        return false;
      }
      ok := ValidDirector(c.director.value);
      return;
    }
    if c.batch != None || c.timeline != None || c.director != None {
      return false;
    }
    match kind {
      case Text => return c.text.Some? && c.collapsed == None && PromptOk(c.text.value);
      case Group => return c.text == None && c.collapsed.Some?;
      case Image => return c.text == None && c.collapsed == None;
      case Video => return c.text == None && c.collapsed == None;
      case Audio => return c.text == None && c.collapsed == None;
      case Model => return c.text == None && c.collapsed == None;
      case _ => return false;
    }
  }

  // References and parents.

  method ValidToolReferences(nodes: seq<Node>) returns (ok: bool)
    ensures ok == ToolsResolve(nodes)
  {
    hide Resolves;
    var byId := IndexNodes(nodes);
    for i := 0 to |nodes|
      invariant forall j :: 0 <= j < i ==> Resolves(byId, nodes[j].config)
    {
      if !Resolves(byId, nodes[i].config) {
        return false;
      }
    }
    return true;
  }

  method IndexNodes(nodes: seq<Node>) returns (byId: map<Id, Node>)
    ensures byId == Index(nodes, NodeId)
  {
    byId := map[];
    for n := 0 to |nodes|
      invariant byId == Index(nodes[..n], NodeId)
    {
      NextRow(nodes, n, NodeId, {});
      byId := byId[nodes[n].id := nodes[n]];
    }
    assert nodes[..|nodes|] == nodes;
  }

  datatype Colour = Grey | Black

  /** `path` leads from one node to the next by its parent. */
  ghost predicate ParentPath(nodes: map<Id, Node>, path: seq<Id>) {
    && (forall i :: 0 <= i < |path| ==> path[i] in nodes && ParentOk(nodes, nodes[path[i]]))
    && (forall i :: 0 <= i < |path| - 1 ==> nodes[path[i]].parent == Some(path[i + 1]))
  }

  /** Grey nodes are the path to the node being visited; black ones are known to be rooted. */
  ghost predicate Coloured(nodes: map<Id, Node>, state: map<Id, Colour>, path: seq<Id>) {
    && (forall id | id in state :: id in nodes)
    && (forall id | id in state && state[id] == Black :: Rooted(nodes, id))
    && (forall id :: id in state && state[id] == Grey <==> id in path)
  }

  /** A path whose last node's parent is on the path never reaches a root. */
  lemma {:induction false} CycleNotRooted(nodes: map<Id, Node>, path: seq<Id>, from: nat, k: nat)
    requires ParentPath(nodes, path) && from < |path|
    requires exists i :: 0 <= i < |path| && nodes[path[|path| - 1]].parent == Some(path[i])
    ensures !Climbs(nodes, path[from], k)
    decreases k
  {
    assert if from < |path| - 1 then nodes[path[from]].parent == Some(path[from + 1])
      else nodes[path[from]].parent.Some?;
    if k > 0 {
      if from < |path| - 1 {
        CycleNotRooted(nodes, path, from + 1, k - 1);
      } else {
        var i :| 0 <= i < |path| && nodes[path[|path| - 1]].parent == Some(path[i]);
        CycleNotRooted(nodes, path, i, k - 1);
      }
    }
  }

  lemma ParentRooted(nodes: map<Id, Node>, id: Id)
    requires id in nodes && ParentOk(nodes, nodes[id])
    ensures nodes[id].parent == None ==> Rooted(nodes, id)
    ensures nodes[id].parent.Some? ==> (Rooted(nodes, id) <==> Rooted(nodes, nodes[id].parent.value))
  {
    if nodes[id].parent == None {
      assert Climbs(nodes, id, 0);
    } else {
      var p := nodes[id].parent.value;
      if k: nat :| Climbs(nodes, p, k) {
        var m := k + 1;
        assert Climbs(nodes, id, m);
      }
      if k: nat :| Climbs(nodes, id, k) {
        assert Climbs(nodes, p, k - 1);
      }
    }
  }

  /** One visit of the three-colour search; the path is how the visit was reached. */
  method Visit(nodes: map<Id, Node>, id: Id, state: map<Id, Colour>, ghost path: seq<Id>)
    returns (ok: bool, after: map<Id, Colour>)
    requires id in nodes && Coloured(nodes, state, path) && ParentPath(nodes, path)
    requires path != [] ==> nodes[path[|path| - 1]].parent == Some(id)
    ensures ok == Rooted(nodes, id)
    ensures ok ==> Coloured(nodes, after, path) && id in after && after[id] == Black
    ensures ok ==> forall k | k in state :: k in after
    decreases nodes.Keys - state.Keys
  {
    if id in state {
      if state[id] == Grey {
        assert id in path;
        ghost var i :| 0 <= i < |path| && path[i] == id;
        forall k: nat ensures !Climbs(nodes, id, k) {
          CycleNotRooted(nodes, path, i, k);
        }
        return false, state;
      }
      return true, state;
    }
    after := state[id := Grey];
    assert id in nodes.Keys - state.Keys;
    var n := nodes[id];
    if n.parent.Some? {
      if !ParentOk(nodes, n) {
        return false, after;
      }
      ParentRooted(nodes, id);
      assert ParentPath(nodes, path + [id]);
      ok, after := Visit(nodes, n.parent.value, after, path + [id]);
      if !ok {
        return;
      }
    } else {
      ParentRooted(nodes, id);
    }
    after := after[id := Black];
    ok := true;
    assert id !in path;
  }

  method ValidParents(nodes: seq<Node>) returns (ok: bool)
    ensures ok == Forest(nodes)
  {
    var byId := IndexNodes(nodes);
    assert forall id | id in byId :: exists i :: 0 <= i < |nodes| && nodes[i].id == id by {
      IndexHolds(nodes, NodeId);
    }
    assert forall i :: 0 <= i < |nodes| ==> nodes[i].id in byId by {
      IndexHolds(nodes, NodeId);
    }
    hide Index, Rooted;
    var state: map<Id, Colour> := map[];
    for i := 0 to |nodes|
      invariant Coloured(byId, state, [])
      invariant forall j :: 0 <= j < i ==> Rooted(byId, nodes[j].id)
    {
      var rooted;
      rooted, state := Visit(byId, nodes[i].id, state, []);
      if !rooted {
        return false;
      }
    }
    return true;
  }
}
