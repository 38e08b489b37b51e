/**
 * The project store: the single in-memory project together with the editor's
 * selection, the path the project was saved to, the dirty flag and the known
 * displays. Every action replaces the whole state at once; the new state is
 * computed by a pure step function over `StoreState`, and the `Store` class
 * holds the fields that those steps replace.
 */
module ProjectStore {
  import opened Types
  import opened Seqs
  import opened Text

  /** The four fresh ids `uuidv4` supplies for the corners of a new geometry. */
  datatype PointIds = PointIds(p0: string, p1: string, p2: string, p3: string)

  /** Corner positions of a new (or reset) quad: TL, TR, BR, BL. */
  const DefaultCorners: seq<Vec2> := [Vec2(-0.5, -0.5), Vec2(0.5, -0.5), Vec2(0.5, 0.5), Vec2(-0.5, 0.5)]

  function DefaultQuadPoints(ids: PointIds): seq<QuadPoint> {
    [ QuadPoint(ids.p0, DefaultCorners[0]), QuadPoint(ids.p1, DefaultCorners[1]),
      QuadPoint(ids.p2, DefaultCorners[2]), QuadPoint(ids.p3, DefaultCorners[3]) ]
  }

  const DefaultGlobal := GlobalSettings(1.0, Color(1.0, 1.0, 1.0, None), None)

  function DefaultProject(id: string, now: string): Project {
    Project(id, "Untitled Project", "0.1.0", now, now, [], [], [], DefaultGlobal)
  }

  /** Everything the store holds. */
  datatype StoreState = StoreState(
    project: Project,
    selectedLayerId: Option<string>,
    selectedGeometryId: Option<string>,
    currentProjectPath: Option<string>,
    isDirty: bool,
    displays: seq<Display>,
    outputDisplay: Option<Display>)

  function InitialState(projectId: string, now: string): StoreState {
    StoreState(DefaultProject(projectId, now), None, None, None, false, [], None)
  }

  // ---------------------------------------------------------------- geometries

  /** `{ ...g, ...updates }` */
  function ApplyGeometryPatch(g: Geometry, p: GeometryPatch): Geometry {
    Geometry(p.id.GetOr(g.id), p.name.GetOr(g.name), p.points.GetOr(g.points),
             p.transform.GetOr(g.transform), p.visible.GetOr(g.visible))
  }

  /** Merges `p` into every geometry whose id is `id`; the others stay as they are. */
  function UpdateGeometries(gs: seq<Geometry>, id: string, p: GeometryPatch): (r: seq<Geometry>)
    ensures |r| == |gs|
    ensures forall k :: 0 <= k < |gs| ==>
              r[k] == if gs[k].id == id then ApplyGeometryPatch(gs[k], p) else gs[k]
  {
    if gs == [] then []
    else [if gs[0].id == id then ApplyGeometryPatch(gs[0], p) else gs[0]] + UpdateGeometries(gs[1..], id, p)
  }

  /** Replaces the position of point `index`, keeping its id. An index outside
      the point list leaves the points as they are. */
  function SetPointPosition(points: seq<QuadPoint>, index: int, position: Vec2): (r: seq<QuadPoint>)
    ensures |r| == |points|
    ensures forall k :: 0 <= k < |points| ==>
              r[k].id == points[k].id &&
              r[k].position == (if k == index then position else points[k].position)
  {
    if 0 <= index < |points| then points[index := points[index].(position := position)] else points
  }

  /** Moves one corner of every geometry whose id is `geometryId`. */
  function MovePoint(gs: seq<Geometry>, geometryId: string, index: int, position: Vec2): (r: seq<Geometry>)
    ensures |r| == |gs|
    ensures forall k :: 0 <= k < |gs| ==>
              r[k] == if gs[k].id == geometryId
                      then gs[k].(points := SetPointPosition(gs[k].points, index, position))
                      else gs[k]
  {
    if gs == [] then []
    else [if gs[0].id == geometryId then gs[0].(points := SetPointPosition(gs[0].points, index, position)) else gs[0]]
         + MovePoint(gs[1..], geometryId, index, position)
  }

  /** `name || \`Geometry ${count + 1}\``: an absent or empty name gets the default. */
  function GeometryName(name: Option<string>, count: nat): string {
    if name.Some? && name.value != "" then name.value else "Geometry " + NatToString(count + 1)
  }

  /** The number in a default geometry name is one more than the count it was made from. */
  lemma DefaultGeometryNameNumber(count: nat)
    ensures |GeometryName(None, count)| > 9
    ensures GeometryName(None, count)[..9] == "Geometry "
    ensures ParseNat(GeometryName(None, count)[9..]) == Some(count + 1)
  {
    assert GeometryName(None, count)[9..] == NatToString(count + 1);
    NatToStringRoundTrip(count + 1);
  }

  function NewGeometry(id: string, name: string, pointIds: PointIds): Geometry {
    Geometry(id, name, DefaultQuadPoints(pointIds), DefaultTransform, true)
  }

  // -------------------------------------------------------------------- layers

  /** The type-specific part of `{ ...l, ...updates }`: a field only exists on
      the layer types that declare it. */
  function PatchContent(c: Content, p: LayerPatch): (r: Content)
    ensures r.Type() == c.Type()
    ensures p == EmptyLayerPatch ==> r == c
  {
    match c
    case Image(src) => Image(p.source.GetOr(src))
    case Video(src, lp, pl, vol, t, d) =>
      Video(p.source.GetOr(src), p.loop.GetOr(lp), p.playing.GetOr(pl),
            p.volume.GetOr(vol), p.currentTime.GetOr(t), p.duration.GetOr(d))
    case Solid(col) => Solid(p.color.GetOr(col))
    case Shader(frag, vert) => Shader(p.fragmentShader.GetOr(frag), p.vertexShader.GetOr(vert))
    case Pattern(pid, config, animated, playing) =>
      Pattern(p.patternId.GetOr(pid), p.patternConfig.GetOr(config), p.isAnimated.GetOr(animated), p.isPlaying.GetOr(playing))
  }

  /** `{ ...l, ...updates }` */
  function ApplyLayerPatch(l: Layer, p: LayerPatch): Layer {
    Layer(p.id.GetOr(l.id), p.name.GetOr(l.name), p.geometryId.GetOr(l.geometryId),
          p.visible.GetOr(l.visible), p.opacity.GetOr(l.opacity), p.blendMode.GetOr(l.blendMode),
          p.transform.GetOr(l.transform), p.order.GetOr(l.order), p.groupId.GetOr(l.groupId),
          p.locked.GetOr(l.locked), PatchContent(l.content, p))
  }

  /** Merging the same partial layer twice is merging it once. */
  lemma ApplyLayerPatchTwice(l: Layer, p: LayerPatch)
    ensures ApplyLayerPatch(ApplyLayerPatch(l, p), p) == ApplyLayerPatch(l, p)
  {
  }

  /** Merges `p` into every layer whose id is `id`; the others stay as they are. */
  function UpdateLayers(ls: seq<Layer>, id: string, p: LayerPatch): (r: seq<Layer>)
    ensures |r| == |ls|
    ensures forall k :: 0 <= k < |ls| ==>
              r[k] == if ls[k].id == id then ApplyLayerPatch(ls[k], p) else ls[k]
  {
    if ls == [] then []
    else [if ls[0].id == id then ApplyLayerPatch(ls[0], p) else ls[0]] + UpdateLayers(ls[1..], id, p)
  }

  /** The type-specific defaults of a new layer. */
  function DefaultContent(t: LayerType): (c: Content)
    ensures c.Type() == t
    ensures t == ImageType ==> c == Image("")
    ensures t == VideoType ==>
              c.source == "" && c.loop && !c.playing && c.volume == 1.0 && c.currentTime == 0.0 && c.duration == 0.0
    ensures t == ColorType ==> c.color == Color(1.0, 1.0, 1.0, Some(1.0))
    ensures t == ShaderType ==> c.fragmentShader == "" && c.vertexShader == None
    ensures t == PatternType ==>
              c.patternId == "solid" && c.patternConfig.colors == ["#00ff88"] &&
              c.patternConfig.fillOpacity == Some(1.0) && c.patternConfig.borderWidth == Some(0.0) &&
              c.patternConfig.speed == None && c.patternConfig.intensity == None &&
              c.patternConfig.direction == None && c.patternConfig.frequency == None &&
              !c.isAnimated && c.isPlaying
  {
    match t
    case ImageType => Image("")
    case VideoType => Video("", true, false, 1.0, 0.0, 0.0)
    case ColorType => Solid(Color(1.0, 1.0, 1.0, Some(1.0)))
    case ShaderType => Shader("", None)
    case PatternType =>
      Pattern("solid", PatternConfig(["#00ff88"], None, None, None, None, Some(0.0), Some(1.0), None), false, true)
  }

  function NewLayer(t: LayerType, id: string, geometryId: string, order: nat): Layer {
    Layer(id, "Layer " + NatToString(order + 1), geometryId, true, 1.0, Normal, DefaultTransform,
          order, None, None, DefaultContent(t))
  }

  /** The layers' `order` fields number them 0, 1, 2, ... in list order. */
  predicate OrdersMatchIndices(ls: seq<Layer>) {
    forall k :: 0 <= k < |ls| ==> ls[k].order == k
  }

  /** Every entry of the map is keyed by its own id. */
  predicate IndexedById(m: map<string, Layer>) {
    forall id :: id in m ==> m[id].id == id
  }

  /** `new Map(layers.map(l => [l.id, l]))`: with repeated ids the later layer wins. */
  function LayerIndex(ls: seq<Layer>): (m: map<string, Layer>)
    ensures IndexedById(m)
    ensures forall l :: l in ls ==> l.id in m
    ensures forall id :: id in m ==> m[id] in ls
  {
    if ls == [] then map[]
    else
      var m0 := LayerIndex(ls[..|ls| - 1]);
      assert forall l :: l in ls[..|ls| - 1] ==> l in ls;
      assert forall l :: l in ls ==> l in ls[..|ls| - 1] || l == ls[|ls| - 1];
      m0[ls[|ls| - 1].id := ls[|ls| - 1]]
  }

  /** The last layer of the list with a given id is the one indexed under it. */
  predicate LastWithId(ls: seq<Layer>, k: int) {
    0 <= k < |ls| && forall j :: k < j < |ls| ==> ls[j].id != ls[k].id
  }

  /** Later entries overwrite earlier ones in `new Map(...)`: the index holds
      the last layer of each id. */
  lemma {:induction false} LayerIndexLastWins(ls: seq<Layer>)
    ensures forall k :: LastWithId(ls, k) ==> LayerIndex(ls)[ls[k].id] == ls[k]
  {
    if ls != [] {
      var init := ls[..|ls| - 1];
      LayerIndexLastWins(init);
      forall k | LastWithId(ls, k) ensures LayerIndex(ls)[ls[k].id] == ls[k] {
        if k < |ls| - 1 {
          assert init[k] == ls[k];
          assert LastWithId(init, k);
        }
      }
    }
  }

  /** With unique ids the index finds each layer itself. */
  lemma LayerIndexOfUnique(ls: seq<Layer>)
    requires UniqueLayerIds(ls)
    ensures forall k :: 0 <= k < |ls| ==> LayerIndex(ls)[ls[k].id] == ls[k]
  {
    var m := LayerIndex(ls);
    forall k | 0 <= k < |ls| ensures m[ls[k].id] == ls[k] {
      assert ls[k] in ls;
      var j :| 0 <= j < |ls| && ls[j] == m[ls[k].id];
      assert ls[j].id == ls[k].id;
    }
  }

  /** The layers named by `ids`, in that order, each with `order` set to
      `start` plus its position in `ids`; ids the map lacks are skipped. */
  function Reordered(m: map<string, Layer>, ids: seq<string>, start: nat): (r: seq<Layer>)
    ensures |r| <= |ids|
  {
    if ids == [] then []
    else
      var rest := Reordered(m, ids[1..], start + 1);
      if ids[0] in m then [m[ids[0]].(order := start)] + rest else rest
  }

  /** `x` is the layer named by the id at position `x.order - start` of
      `ids`, with only its order changed. */
  predicate Placed(m: map<string, Layer>, ids: seq<string>, start: nat, x: Layer) {
    start <= x.order < start + |ids| && x.id == ids[x.order - start] &&
    x.id in m && x == m[x.id].(order := x.order)
  }

  /** Everything `Reordered` keeps is a known layer, placed at the position
      of its id. */
  lemma {:induction false} ReorderedPlaced(m: map<string, Layer>, ids: seq<string>, start: nat)
    requires IndexedById(m)
    ensures forall x :: x in Reordered(m, ids, start) ==> Placed(m, ids, start, x)
  {
    if ids != [] {
      var rest := Reordered(m, ids[1..], start + 1);
      ReorderedPlaced(m, ids[1..], start + 1);
      forall x | x in Reordered(m, ids, start) ensures Placed(m, ids, start, x) {
        if x in rest {
          assert Placed(m, ids[1..], start + 1, x);
          assert ids[1..][x.order - start - 1] == ids[x.order - start];
        }
      }
    }
  }

  /** `Reordered` drops no layer whose id the map knows. */
  lemma {:induction false} ReorderedKeepsKnown(m: map<string, Layer>, ids: seq<string>, start: nat)
    ensures forall j :: 0 <= j < |ids| && ids[j] in m ==> m[ids[j]].(order := start + j) in Reordered(m, ids, start)
  {
    if ids != [] {
      var rest := Reordered(m, ids[1..], start + 1);
      ReorderedKeepsKnown(m, ids[1..], start + 1);
      forall j | 0 < j < |ids| && ids[j] in m ensures m[ids[j]].(order := start + j) in rest {
        assert ids[1..][j - 1] == ids[j];
      }
    }
  }

  /** `Reordered` yields strictly increasing orders. */
  lemma {:induction false} ReorderedIncreasing(m: map<string, Layer>, ids: seq<string>, start: nat)
    requires IndexedById(m)
    ensures forall i, k :: 0 <= i < k < |Reordered(m, ids, start)| ==>
              Reordered(m, ids, start)[i].order < Reordered(m, ids, start)[k].order
  {
    if ids != [] {
      var rest := Reordered(m, ids[1..], start + 1);
      var r := Reordered(m, ids, start);
      ReorderedIncreasing(m, ids[1..], start + 1);
      ReorderedPlaced(m, ids[1..], start + 1);
      if ids[0] in m {
        assert r == [m[ids[0]].(order := start)] + rest;
        forall i, k | 0 <= i < k < |r| ensures r[i].order < r[k].order {
          assert r[k] == rest[k - 1];
          assert Placed(m, ids[1..], start + 1, rest[k - 1]);
          if i > 0 { assert r[i] == rest[i - 1]; }
        }
      }
    }
  }

  /** When every id is known, nothing is skipped and position k holds the
      layer named `ids[k]` with order `start + k`. */
  lemma {:induction false} ReorderedAllKnown(m: map<string, Layer>, ids: seq<string>, start: nat)
    requires IndexedById(m)
    requires forall j :: 0 <= j < |ids| ==> ids[j] in m
    ensures |Reordered(m, ids, start)| == |ids|
    ensures forall k :: 0 <= k < |ids| ==> Reordered(m, ids, start)[k] == m[ids[k]].(order := start + k)
  {
    if ids != [] {
      ReorderedAllKnown(m, ids[1..], start + 1);
      var rest := Reordered(m, ids[1..], start + 1);
      assert Reordered(m, ids, start) == [m[ids[0]].(order := start)] + rest;
      forall k | 0 < k < |ids| ensures Reordered(m, ids, start)[k] == m[ids[k]].(order := start + k) {
        assert ids[1..][k - 1] == ids[k];
      }
    }
  }

  /** The layers the listed ids name, each at the index of its id: the
      known listed ids all come back, in the order of the list. */
  function ReorderLayers(ls: seq<Layer>, ids: seq<string>): (r: seq<Layer>)
    ensures |r| <= |ids|
    ensures forall x :: x in r ==>
              0 <= x.order < |ids| && ids[x.order] == x.id &&
              exists l :: l in ls && x == l.(order := x.order)
    ensures forall i, k :: 0 <= i < k < |r| ==> r[i].order < r[k].order
    ensures forall j :: 0 <= j < |ids| && (exists l :: l in ls && l.id == ids[j]) ==>
              exists x :: x in r && x.order == j && x.id == ids[j]
    ensures forall x, k :: x in r && LastWithId(ls, k) && ls[k].id == x.id ==> x == ls[k].(order := x.order)
  {
    ReorderedFromLayers(ls, ids);
    ReorderedTakesLast(ls, ids);
    ReorderedIncreasing(LayerIndex(ls), ids, 0);
    ReorderedListsKnown(ls, ids);
    Reordered(LayerIndex(ls), ids, 0)
  }

  lemma ReorderedFromLayers(ls: seq<Layer>, ids: seq<string>)
    ensures forall x :: x in Reordered(LayerIndex(ls), ids, 0) ==>
              0 <= x.order < |ids| && ids[x.order] == x.id &&
              exists l :: l in ls && x == l.(order := x.order)
  {
    var m := LayerIndex(ls);
    ReorderedPlaced(m, ids, 0);
    assert forall x :: x in Reordered(m, ids, 0) ==> Placed(m, ids, 0, x) && m[x.id] in ls;
  }

  lemma ReorderedTakesLast(ls: seq<Layer>, ids: seq<string>)
    ensures forall x, k :: x in Reordered(LayerIndex(ls), ids, 0) && LastWithId(ls, k) && ls[k].id == x.id ==>
              x == ls[k].(order := x.order)
  {
    var m := LayerIndex(ls);
    ReorderedPlaced(m, ids, 0);
    LayerIndexLastWins(ls);
  }

  lemma ReorderedListsKnown(ls: seq<Layer>, ids: seq<string>)
    ensures forall j :: 0 <= j < |ids| && (exists l :: l in ls && l.id == ids[j]) ==>
              exists x :: x in Reordered(LayerIndex(ls), ids, 0) && x.order == j && x.id == ids[j]
  {
    var m := LayerIndex(ls);
    ReorderedKeepsKnown(m, ids, 0);
    forall j | 0 <= j < |ids| && (exists l :: l in ls && l.id == ids[j])
      ensures exists x :: x in Reordered(m, ids, 0) && x.order == j && x.id == ids[j]
    {
      var x := m[ids[j]].(order := j);
      assert x in Reordered(m, ids, 0);
    }
  }

  /** Every id of the layers' own ids is known to their index. */
  lemma IdsOfLayersKnown(ls: seq<Layer>, ids: seq<string>)
    requires multiset(ids) <= multiset(LayerIds(ls))
    ensures forall j :: 0 <= j < |ids| ==> ids[j] in LayerIndex(ls)
  {
    var m := LayerIndex(ls);
    forall j | 0 <= j < |ids| ensures ids[j] in m {
      assert ids[j] in multiset(ids);
      assert ids[j] in multiset(LayerIds(ls));
      assert ids[j] in LayerIds(ls);
      var i :| 0 <= i < |ls| && LayerIds(ls)[i] == ids[j];
      assert ls[i] in ls;
    }
  }

  /** Where a layer's id sits in a permutation of the layer ids. */
  lemma PositionOfId(ls: seq<Layer>, ids: seq<string>, i: nat) returns (k: nat)
    requires multiset(ids) == multiset(LayerIds(ls))
    requires i < |ls|
    ensures k < |ids| && ids[k] == ls[i].id
  {
    assert LayerIds(ls)[i] == ls[i].id;
    assert ls[i].id in multiset(LayerIds(ls));
    assert ls[i].id in ids;
    k :| 0 <= k < |ids| && ids[k] == ls[i].id;
  }

  /** Reordering by a permutation of the layer ids keeps one layer per id:
      position k holds the layer named `ids[k]`, and its order is k. */
  lemma ReorderByPermutation(ls: seq<Layer>, ids: seq<string>)
    requires multiset(ids) == multiset(LayerIds(ls))
    ensures |ReorderLayers(ls, ids)| == |ls|
    ensures LayerIds(ReorderLayers(ls, ids)) == ids
    ensures OrdersMatchIndices(ReorderLayers(ls, ids))
  {
    var m := LayerIndex(ls);
    IdsOfLayersKnown(ls, ids);
    ReorderedAllKnown(m, ids, 0);
    assert |ids| == |LayerIds(ls)| by {
      assert |multiset(ids)| == |multiset(LayerIds(ls))|;
    }
  }

  /** With uniquely named layers, reordering by a permutation of their ids
      loses no layer: each comes back with only its order changed. */
  lemma ReorderLosesNoLayer(ls: seq<Layer>, ids: seq<string>, i: nat)
    requires UniqueLayerIds(ls)
    requires multiset(ids) == multiset(LayerIds(ls))
    requires i < |ls|
    ensures exists k :: 0 <= k < |ReorderLayers(ls, ids)| && ReorderLayers(ls, ids)[k] == ls[i].(order := k)
  {
    var m := LayerIndex(ls);
    IdsOfLayersKnown(ls, ids);
    ReorderedAllKnown(m, ids, 0);
    var k := PositionOfId(ls, ids, i);
    LayerIndexOfUnique(ls);
    assert m[ls[i].id] == ls[i];
    assert ReorderLayers(ls, ids)[k] == ls[i].(order := k);
  }

  /** `{ ...global, ...settings }` */
  function MergeGlobal(g: GlobalSettings, p: GlobalPatch): GlobalSettings {
    GlobalSettings(p.intensity.GetOr(g.intensity), p.tint.GetOr(g.tint), p.outputDisplayId.GetOr(g.outputDisplayId))
  }

  // ---------------------------------------------------------------- the steps

  /** A fresh default project; selection, path and dirty flag are cleared. */
  function NewProjectStep(s: StoreState, projectId: string, now: string): (t: StoreState)
    ensures t.project == Project(projectId, "Untitled Project", "0.1.0", now, now, [], [], [],
                                 GlobalSettings(1.0, Color(1.0, 1.0, 1.0, None), None))
    ensures t.selectedLayerId == None && t.selectedGeometryId == None
    ensures t.currentProjectPath == None && !t.isDirty
    ensures t.displays == s.displays && t.outputDisplay == s.outputDisplay
  {
    s.(project := DefaultProject(projectId, now), selectedLayerId := None, selectedGeometryId := None,
       currentProjectPath := None, isDirty := false)
  }

  /** Installs a loaded project; selection and dirty flag are cleared, the path is kept. */
  function LoadProjectStep(s: StoreState, p: Project): (t: StoreState)
    ensures t.project == p && t.selectedLayerId == None && t.selectedGeometryId == None && !t.isDirty
    ensures t.currentProjectPath == s.currentProjectPath
    ensures t.displays == s.displays && t.outputDisplay == s.outputDisplay
  {
    s.(project := p, selectedLayerId := None, selectedGeometryId := None, isDirty := false)
  }

  /** Records the output display; only `outputDisplayId` of the global settings
      changes, and the modification time is not touched. */
  function SelectOutputDisplayStep(s: StoreState, d: Display): (t: StoreState)
    ensures t.project.global.outputDisplayId == Some(d.id)
    ensures t.project.global.intensity == s.project.global.intensity
    ensures t.project.global.tint == s.project.global.tint
    ensures t.project.(global := s.project.global) == s.project
    ensures t.outputDisplay == Some(d) && t.isDirty
    ensures t.(project := s.project, outputDisplay := s.outputDisplay, isDirty := s.isDirty) == s
  {
    s.(outputDisplay := Some(d),
       project := s.project.(global := s.project.global.(outputDisplayId := Some(d.id))),
       isDirty := true)
  }

  /** Appends one visible geometry with the default corners and selects it. */
  function AddGeometryStep(s: StoreState, name: Option<string>, id: string, pointIds: PointIds, now: string): (t: StoreState)
    ensures |t.project.geometries| == |s.project.geometries| + 1
    ensures t.project.geometries[..|s.project.geometries|] == s.project.geometries
    ensures var g := t.project.geometries[|s.project.geometries|];
            g.id == id && g.visible && g.transform == DefaultTransform &&
            g.name == GeometryName(name, |s.project.geometries|) &&
            |g.points| == 4 &&
            (forall k :: 0 <= k < 4 ==> g.points[k].position == DefaultCorners[k]) &&
            [g.points[0].id, g.points[1].id, g.points[2].id, g.points[3].id] ==
              [pointIds.p0, pointIds.p1, pointIds.p2, pointIds.p3]
    ensures t.selectedGeometryId == Some(id) && t.isDirty
    ensures t.project.(geometries := s.project.geometries, modified := s.project.modified) == s.project
    ensures t.project.modified == now
    ensures t.(project := s.project, selectedGeometryId := s.selectedGeometryId, isDirty := s.isDirty) == s
  {
    var g := NewGeometry(id, GeometryName(name, |s.project.geometries|), pointIds);
    s.(project := s.project.(geometries := s.project.geometries + [g], modified := now),
       selectedGeometryId := Some(id),
       isDirty := true)
  }

  /** Merges a partial geometry into the geometry with that id. */
  function UpdateGeometryStep(s: StoreState, id: string, p: GeometryPatch, now: string): (t: StoreState)
    ensures |t.project.geometries| == |s.project.geometries|
    ensures forall k :: 0 <= k < |s.project.geometries| ==>
              var g := s.project.geometries[k];
              t.project.geometries[k] == if g.id == id then ApplyGeometryPatch(g, p) else g
    ensures (forall k :: 0 <= k < |s.project.geometries| ==> s.project.geometries[k].id != id) ==>
              t.project.geometries == s.project.geometries
    ensures t.project.(geometries := s.project.geometries, modified := s.project.modified) == s.project
    ensures t.project.modified == now
    ensures t.isDirty && t.(project := s.project, isDirty := s.isDirty) == s
  {
    s.(project := s.project.(geometries := UpdateGeometries(s.project.geometries, id, p), modified := now),
       isDirty := true)
  }

  /** Deletes the geometry and, in cascade, every layer projected through it. */
  function DeleteGeometryStep(s: StoreState, id: string, now: string): (t: StoreState)
    ensures forall g :: g in t.project.geometries <==> g in s.project.geometries && g.id != id
    ensures forall l :: l in t.project.layers <==> l in s.project.layers && l.geometryId != id
    ensures IsSubsequence(t.project.geometries, s.project.geometries)
    ensures IsSubsequence(t.project.layers, s.project.layers)
    ensures forall g :: multiset(t.project.geometries)[g] == if g.id != id then multiset(s.project.geometries)[g] else 0
    ensures forall l :: multiset(t.project.layers)[l] == if l.geometryId != id then multiset(s.project.layers)[l] else 0
    ensures t.selectedGeometryId == if s.selectedGeometryId == Some(id) then None else s.selectedGeometryId
    ensures t.project.(geometries := s.project.geometries, layers := s.project.layers,
                       modified := s.project.modified) == s.project
    ensures t.project.modified == now
    ensures t.isDirty
    ensures t.(project := s.project, selectedGeometryId := s.selectedGeometryId, isDirty := s.isDirty) == s
  {
    var keepG := (g: Geometry) => g.id != id;
    var keepL := (l: Layer) => l.geometryId != id;
    FilterIsSubsequence(s.project.geometries, keepG);
    FilterIsSubsequence(s.project.layers, keepL);
    FilterCounts(s.project.geometries, keepG);
    FilterCounts(s.project.layers, keepL);
    s.(project := s.project.(geometries := Filter(s.project.geometries, keepG),
                             layers := Filter(s.project.layers, keepL),
                             modified := now),
       selectedGeometryId := if s.selectedGeometryId == Some(id) then None else s.selectedGeometryId,
       isDirty := true)
  }

  /** Moves one corner of the geometry with that id. */
  function UpdateGeometryPointStep(s: StoreState, geometryId: string, index: int, position: Vec2, now: string): (t: StoreState)
    ensures |t.project.geometries| == |s.project.geometries|
    ensures forall k :: 0 <= k < |s.project.geometries| ==>
              var g, h := s.project.geometries[k], t.project.geometries[k];
              if g.id != geometryId then h == g
              else h.(points := g.points) == g && |h.points| == |g.points| &&
                   (forall i :: 0 <= i < |g.points| ==>
                      h.points[i].id == g.points[i].id &&
                      h.points[i].position == if i == index then position else g.points[i].position)
    ensures t.project.(geometries := s.project.geometries, modified := s.project.modified) == s.project
    ensures t.project.modified == now
    ensures t.isDirty && t.(project := s.project, isDirty := s.isDirty) == s
  {
    s.(project := s.project.(geometries := MovePoint(s.project.geometries, geometryId, index, position), modified := now),
       isDirty := true)
  }

  /** Appends a layer of type `ty` on `geometryId`, numbered after the
      existing layers, and selects it. */
  function AddLayerStep(s: StoreState, ty: LayerType, geometryId: string, id: string, now: string): (t: StoreState)
    ensures |t.project.layers| == |s.project.layers| + 1
    ensures t.project.layers[..|s.project.layers|] == s.project.layers
    ensures var l := t.project.layers[|s.project.layers|];
            l.id == id && l.geometryId == geometryId && l.order == |s.project.layers| &&
            l.name == "Layer " + NatToString(|s.project.layers| + 1) &&
            l.visible && l.opacity == 1.0 && l.blendMode == Normal && l.transform == DefaultTransform &&
            l.groupId == None && l.locked == None && l.content == DefaultContent(ty)
    ensures t.selectedLayerId == Some(id) && t.isDirty
    ensures t.project.(layers := s.project.layers, modified := s.project.modified) == s.project
    ensures t.project.modified == now
    ensures t.(project := s.project, selectedLayerId := s.selectedLayerId, isDirty := s.isDirty) == s
  {
    var l := NewLayer(ty, id, geometryId, |s.project.layers|);
    s.(project := s.project.(layers := s.project.layers + [l], modified := now),
       selectedLayerId := Some(id),
       isDirty := true)
  }

  /** Adding a layer keeps the orders in step with the positions. */
  lemma AddLayerKeepsOrders(s: StoreState, ty: LayerType, geometryId: string, id: string, now: string)
    requires OrdersMatchIndices(s.project.layers)
    ensures OrdersMatchIndices(AddLayerStep(s, ty, geometryId, id, now).project.layers)
  {
    var t := AddLayerStep(s, ty, geometryId, id, now);
    forall k | 0 <= k < |t.project.layers| ensures t.project.layers[k].order == k {
      if k < |s.project.layers| {
        assert t.project.layers[k] == t.project.layers[..|s.project.layers|][k];
      }
    }
  }

  /** Merges a partial layer into the layer with that id. */
  function UpdateLayerStep(s: StoreState, id: string, p: LayerPatch, now: string): (t: StoreState)
    ensures |t.project.layers| == |s.project.layers|
    ensures forall k :: 0 <= k < |s.project.layers| ==>
              var l := s.project.layers[k];
              t.project.layers[k] == if l.id == id then ApplyLayerPatch(l, p) else l
    ensures (forall k :: 0 <= k < |s.project.layers| ==> s.project.layers[k].id != id) ==>
              t.project.layers == s.project.layers
    ensures t.project.(layers := s.project.layers, modified := s.project.modified) == s.project
    ensures t.project.modified == now
    ensures t.isDirty && t.(project := s.project, isDirty := s.isDirty) == s
  {
    s.(project := s.project.(layers := UpdateLayers(s.project.layers, id, p), modified := now),
       isDirty := true)
  }

  /** Deletes every layer with that id; the selection is cleared only if it named it. */
  function DeleteLayerStep(s: StoreState, id: string, now: string): (t: StoreState)
    ensures forall l :: l in t.project.layers <==> l in s.project.layers && l.id != id
    ensures IsSubsequence(t.project.layers, s.project.layers)
    ensures forall l :: multiset(t.project.layers)[l] == if l.id != id then multiset(s.project.layers)[l] else 0
    ensures t.selectedLayerId == if s.selectedLayerId == Some(id) then None else s.selectedLayerId
    ensures t.project.(layers := s.project.layers, modified := s.project.modified) == s.project
    ensures t.project.modified == now
    ensures t.isDirty
    ensures t.(project := s.project, selectedLayerId := s.selectedLayerId, isDirty := s.isDirty) == s
  {
    var keep := (l: Layer) => l.id != id;
    FilterIsSubsequence(s.project.layers, keep);
    FilterCounts(s.project.layers, keep);
    s.(project := s.project.(layers := Filter(s.project.layers, keep), modified := now),
       selectedLayerId := if s.selectedLayerId == Some(id) then None else s.selectedLayerId,
       isDirty := true)
  }

  /** Puts the layers in the order of `ids`. */
  function ReorderLayersStep(s: StoreState, ids: seq<string>, now: string): (t: StoreState)
    ensures |t.project.layers| <= |ids|
    ensures forall x :: x in t.project.layers ==>
              0 <= x.order < |ids| && ids[x.order] == x.id &&
              exists l :: l in s.project.layers && x == l.(order := x.order)
    ensures forall i, k :: 0 <= i < k < |t.project.layers| ==> t.project.layers[i].order < t.project.layers[k].order
    ensures forall j :: 0 <= j < |ids| && (exists l :: l in s.project.layers && l.id == ids[j]) ==>
              exists x :: x in t.project.layers && x.order == j && x.id == ids[j]
    ensures forall x, k :: x in t.project.layers && LastWithId(s.project.layers, k) && s.project.layers[k].id == x.id ==>
              x == s.project.layers[k].(order := x.order)
    ensures t.project.(layers := s.project.layers, modified := s.project.modified) == s.project
    ensures t.project.modified == now
    ensures t.isDirty && t.(project := s.project, isDirty := s.isDirty) == s
  {
    s.(project := s.project.(layers := ReorderLayers(s.project.layers, ids), modified := now),
       isDirty := true)
  }

  /** Merges a partial global-settings record. */
  function UpdateGlobalSettingsStep(s: StoreState, p: GlobalPatch, now: string): (t: StoreState)
    ensures p.intensity.None? ==> t.project.global.intensity == s.project.global.intensity
    ensures p.tint.None? ==> t.project.global.tint == s.project.global.tint
    ensures p.outputDisplayId.None? ==> t.project.global.outputDisplayId == s.project.global.outputDisplayId
    ensures p.intensity.Some? ==> t.project.global.intensity == p.intensity.value
    ensures p.tint.Some? ==> t.project.global.tint == p.tint.value
    ensures p.outputDisplayId.Some? ==> t.project.global.outputDisplayId == p.outputDisplayId.value
    ensures t.project.(global := s.project.global, modified := s.project.modified) == s.project
    ensures t.project.modified == now
    ensures t.isDirty && t.(project := s.project, isDirty := s.isDirty) == s
  {
    s.(project := s.project.(global := MergeGlobal(s.project.global, p), modified := now),
       isDirty := true)
  }

  // ------------------------------------------------------------------ the store

  class Store {
    var project: Project
    var selectedLayerId: Option<string>
    var selectedGeometryId: Option<string>
    var currentProjectPath: Option<string>
    var isDirty: bool
    var displays: seq<Display>
    var outputDisplay: Option<Display>

    function State(): StoreState
      reads this
    {
      StoreState(project, selectedLayerId, selectedGeometryId, currentProjectPath, isDirty, displays, outputDisplay)
    }

    constructor(projectId: string, now: string)
      ensures State() == InitialState(projectId, now)
    {
      project := DefaultProject(projectId, now);
      selectedLayerId, selectedGeometryId, currentProjectPath := None, None, None;
      isDirty := false;
      displays, outputDisplay := [], None;
    }

    /** `set(...)`: replaces the whole state. */
    method Set(s: StoreState)
      modifies this
      ensures State() == s
    {
      project, selectedLayerId, selectedGeometryId := s.project, s.selectedLayerId, s.selectedGeometryId;
      currentProjectPath, isDirty := s.currentProjectPath, s.isDirty;
      displays, outputDisplay := s.displays, s.outputDisplay;
    }

    method NewProject(projectId: string, now: string)
      modifies this
      ensures State() == NewProjectStep(old(State()), projectId, now)
    {
      Set(NewProjectStep(State(), projectId, now));
    }

    method LoadProject(p: Project)
      modifies this
      ensures State() == LoadProjectStep(old(State()), p)
    {
      Set(LoadProjectStep(State(), p));
    }

    method SetProjectPath(path: string)
      modifies this
      ensures State() == old(State()).(currentProjectPath := Some(path))
    {
      currentProjectPath := Some(path);
    }

    method MarkDirty()
      modifies this
      ensures State() == old(State()).(isDirty := true)
    {
      isDirty := true;
    }

    method MarkClean()
      modifies this
      ensures State() == old(State()).(isDirty := false)
    {
      isDirty := false;
    }

    method SetDisplays(ds: seq<Display>)
      modifies this
      ensures State() == old(State()).(displays := ds)
    {
      displays := ds;
    }

    method SelectOutputDisplay(d: Display)
      modifies this
      ensures State() == SelectOutputDisplayStep(old(State()), d)
    {
      Set(SelectOutputDisplayStep(State(), d));
    }

    /** Returns the id of the new geometry. */
    method AddGeometry(name: Option<string>, id: string, pointIds: PointIds, now: string) returns (newId: string)
      modifies this
      ensures newId == id
      ensures State() == AddGeometryStep(old(State()), name, id, pointIds, now)
    {
      Set(AddGeometryStep(State(), name, id, pointIds, now));
      newId := id;
    }

    method UpdateGeometry(id: string, p: GeometryPatch, now: string)
      modifies this
      ensures State() == UpdateGeometryStep(old(State()), id, p, now)
    {
      Set(UpdateGeometryStep(State(), id, p, now));
    }

    method DeleteGeometry(id: string, now: string)
      modifies this
      ensures State() == DeleteGeometryStep(old(State()), id, now)
    {
      Set(DeleteGeometryStep(State(), id, now));
    }

    method SelectGeometry(id: Option<string>)
      modifies this
      ensures State() == old(State()).(selectedGeometryId := id)
    {
      selectedGeometryId := id;
    }

    method UpdateGeometryPoint(geometryId: string, index: int, position: Vec2, now: string)
      modifies this
      ensures State() == UpdateGeometryPointStep(old(State()), geometryId, index, position, now)
    {
      Set(UpdateGeometryPointStep(State(), geometryId, index, position, now));
    }

    /** Returns the id of the new layer. */
    method AddLayer(ty: LayerType, geometryId: string, id: string, now: string) returns (newId: string)
      modifies this
      ensures newId == id
      ensures State() == AddLayerStep(old(State()), ty, geometryId, id, now)
    {
      Set(AddLayerStep(State(), ty, geometryId, id, now));
      newId := id;
    }

    method UpdateLayer(id: string, p: LayerPatch, now: string)
      modifies this
      ensures State() == UpdateLayerStep(old(State()), id, p, now)
    {
      Set(UpdateLayerStep(State(), id, p, now));
    }

    method DeleteLayer(id: string, now: string)
      modifies this
      ensures State() == DeleteLayerStep(old(State()), id, now)
    {
      Set(DeleteLayerStep(State(), id, now));
    }

    method SelectLayer(id: Option<string>)
      modifies this
      ensures State() == old(State()).(selectedLayerId := id)
    {
      selectedLayerId := id;
    }

    method ReorderLayers(ids: seq<string>, now: string)
      modifies this
      ensures State() == ReorderLayersStep(old(State()), ids, now)
    {
      Set(ReorderLayersStep(State(), ids, now));
    }

    method UpdateGlobalSettings(p: GlobalPatch, now: string)
      modifies this
      ensures State() == UpdateGlobalSettingsStep(old(State()), p, now)
    {
      Set(UpdateGlobalSettingsStep(State(), p, now));
    }
  }
}
