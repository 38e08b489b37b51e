/**
 * The project data model shared by the editing window, the output window and
 * the remote-control front-end: calibrated quads (geometries), the ordered
 * layers projected through them, layer groups and the global output settings.
 *
 * Numbers are exact reals; identifiers and timestamps are plain strings that
 * callers supply.
 */
module Types {

  datatype Option<+T> = None | Some(value: T) {
    /** The value if present, otherwise `default`. */
    function GetOr(default: T): T {
      match this
      case Some(v) => v
      case None => default
    }
  }

  /** The outcome of an operation that can throw. */
  datatype Result<+T> = Success(value: T) | Failure(error: string)

  datatype Vec2 = Vec2(x: real, y: real)

  datatype Vec3 = Vec3(x: real, y: real, z: real)

  /** An RGB colour with an optional alpha channel. */
  datatype Color = Color(r: real, g: real, b: real, a: Option<real>)

  /** Translation, rotation and scale of a geometry or layer. */
  datatype Transform = Transform(position: Vec3, rotation: Vec3, scale: Vec3)

  /** One calibrated corner of a quad, in normalised device coordinates. */
  datatype QuadPoint = QuadPoint(id: string, position: Vec2)

  /** A calibrated quad; its points are stored top-left, top-right,
      bottom-right, bottom-left. */
  datatype Geometry = Geometry(
    id: string,
    name: string,
    points: seq<QuadPoint>,
    transform: Transform,
    visible: bool)

  datatype BlendMode = Normal | Add | Multiply | Screen

  /** The discriminant of a layer (`type` in the project file). */
  datatype LayerType = ImageType | VideoType | ShaderType | ColorType | PatternType

  datatype PatternConfig = PatternConfig(
    colors: seq<string>,
    speed: Option<real>,
    intensity: Option<real>,
    direction: Option<string>,
    frequency: Option<real>,
    borderWidth: Option<real>,
    fillOpacity: Option<real>,
    strokeDashArray: Option<string>)

  /** The part of a layer that depends on its type. */
  datatype Content =
    | Image(source: string)
    | Video(source: string, loop: bool, playing: bool, volume: real, currentTime: real, duration: real)
    | Solid(color: Color)
    | Shader(fragmentShader: string, vertexShader: Option<string>)
    | Pattern(patternId: string, patternConfig: PatternConfig, isAnimated: bool, isPlaying: bool)
  {
    function Type(): LayerType {
      match this
      case Image(_) => ImageType
      case Video(_, _, _, _, _, _) => VideoType
      case Solid(_) => ColorType
      case Shader(_, _) => ShaderType
      case Pattern(_, _, _, _) => PatternType
    }
  }

  /** A layer: the fields every layer type shares, and its typed content. */
  datatype Layer = Layer(
    id: string,
    name: string,
    geometryId: string,
    visible: bool,
    opacity: real,
    blendMode: BlendMode,
    transform: Transform,
    order: int,
    groupId: Option<string>,
    locked: Option<bool>,
    content: Content)
  {
    predicate IsVideo() { content.Video? }
  }

  datatype LayerGroup = LayerGroup(
    id: string,
    name: string,
    expanded: bool,
    visible: bool,
    locked: bool,
    opacity: real,
    color: Option<string>)

  datatype GlobalSettings = GlobalSettings(intensity: real, tint: Color, outputDisplayId: Option<string>)

  datatype Project = Project(
    id: string,
    name: string,
    version: string,
    created: string,
    modified: string,
    geometries: seq<Geometry>,
    layers: seq<Layer>,
    groups: seq<LayerGroup>,
    global: GlobalSettings)

  datatype Bounds = Bounds(x: int, y: int, width: int, height: int)

  /** A display as the editing window sees it. */
  datatype Display = Display(id: string, name: string, bounds: Bounds, isPrimary: bool, isInternal: bool)

  /** A partial geometry merged over an existing one; `None` leaves a field as it was. */
  datatype GeometryPatch = GeometryPatch(
    id: Option<string>,
    name: Option<string>,
    points: Option<seq<QuadPoint>>,
    transform: Option<Transform>,
    visible: Option<bool>)

  /** A partial layer merged over an existing one. `groupId`, `locked` and
      `vertexShader` are optional fields, so a patch can also set them to
      absent (`Some(None)`); `patternConfig` is replaced as a whole. The
      type-specific fields only take effect on a layer of that type. */
  datatype LayerPatch = LayerPatch(
    id: Option<string>,
    name: Option<string>,
    geometryId: Option<string>,
    visible: Option<bool>,
    opacity: Option<real>,
    blendMode: Option<BlendMode>,
    transform: Option<Transform>,
    order: Option<int>,
    groupId: Option<Option<string>>,
    locked: Option<Option<bool>>,
    source: Option<string>,
    loop: Option<bool>,
    playing: Option<bool>,
    volume: Option<real>,
    currentTime: Option<real>,
    duration: Option<real>,
    color: Option<Color>,
    fragmentShader: Option<string>,
    vertexShader: Option<Option<string>>,
    patternId: Option<string>,
    patternConfig: Option<PatternConfig>,
    isAnimated: Option<bool>,
    isPlaying: Option<bool>)

  const EmptyLayerPatch := LayerPatch(None, None, None, None, None, None, None, None,
                                      None, None, None, None, None, None, None, None, None,
                                      None, None, None, None, None, None)

  const EmptyGeometryPatch := GeometryPatch(None, None, None, None, None)

  /** A partial global-settings record; `outputDisplayId` may be set to null. */
  datatype GlobalPatch = GlobalPatch(
    intensity: Option<real>,
    tint: Option<Color>,
    outputDisplayId: Option<Option<string>>)

  const DefaultTransform := Transform(Vec3(0.0, 0.0, 0.0), Vec3(0.0, 0.0, 0.0), Vec3(1.0, 1.0, 1.0))

  /** The ids of a sequence of layers, in order. */
  function LayerIds(layers: seq<Layer>): (ids: seq<string>)
    ensures |ids| == |layers|
    ensures forall k :: 0 <= k < |layers| ==> ids[k] == layers[k].id
  {
    if layers == [] then [] else [layers[0].id] + LayerIds(layers[1..])
  }

  /** No two layers share an id. */
  predicate UniqueLayerIds(layers: seq<Layer>) {
    forall i, j :: 0 <= i < j < |layers| ==> layers[i].id != layers[j].id
  }

  /** JavaScript truthiness of an optional id: absent and empty are false. */
  predicate Truthy(id: Option<string>) {
    id.Some? && id.value != ""
  }

  /** `geometries.find(g => g.id === id)`: the first geometry with that id. */
  function FindGeometry(gs: seq<Geometry>, id: string): (r: Option<Geometry>)
    ensures r.None? <==> forall k :: 0 <= k < |gs| ==> gs[k].id != id
    ensures r.Some? ==> exists k :: 0 <= k < |gs| && gs[k] == r.value && r.value.id == id &&
                          forall j :: 0 <= j < k ==> gs[j].id != id
  {
    if gs == [] then None
    else if gs[0].id == id then Some(gs[0])
    else
      var r := FindGeometry(gs[1..], id);
      if r.Some? then
        ghost var k :| 0 <= k < |gs| - 1 && gs[1..][k] == r.value && r.value.id == id &&
                       forall j :: 0 <= j < k ==> gs[1..][j].id != id;
        assert gs[k + 1] == r.value;
        r
      else r
  }

  /** `layers.find(l => l.id === id)`: the first layer with that id. */
  function FindLayer(ls: seq<Layer>, id: string): (r: Option<Layer>)
    ensures r.None? <==> forall k :: 0 <= k < |ls| ==> ls[k].id != id
    ensures r.Some? ==> exists k :: 0 <= k < |ls| && ls[k] == r.value && r.value.id == id &&
                          forall j :: 0 <= j < k ==> ls[j].id != id
  {
    if ls == [] then None
    else if ls[0].id == id then Some(ls[0])
    else
      var r := FindLayer(ls[1..], id);
      if r.Some? then
        ghost var k :| 0 <= k < |ls| - 1 && ls[1..][k] == r.value && r.value.id == id &&
                       forall j :: 0 <= j < k ==> ls[1..][j].id != id;
        assert ls[k + 1] == r.value;
        r
      else r
  }
}
