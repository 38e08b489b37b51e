/**
 * The bookkeeping of the projection engine: the texture and video caches
 * keyed by layer id, the rule that decides which layers produce a draw call
 * and in what order, the per-frame refresh of video textures, the mipmap
 * decision for loaded images and the blend-mode encoding.
 *
 * GPU objects are opaque handles supplied by the caller; what a draw call
 * would put on screen is not modelled, only which draw calls are issued
 * and with which parameters.
 */
module Engine {
  import opened Types
  import opened Seqs
  import opened Homography

  /** How a texture samples: mipmapped, or clamped to the edge with linear
      filtering. */
  datatype Sampling = Mipmapped | ClampedLinear

  datatype Texture = Texture(handle: nat, sampling: Sampling)

  /** A video element: its source, and how much of it the browser has
      buffered (`readyState`, 0 to 4). */
  datatype VideoElement = VideoElement(src: string, loop: bool, muted: bool, readyState: nat)

  /** What the browser reports for an image load. */
  datatype ImageLoad = ImageLoaded(width: int, height: int) | ImageFailed

  /** What the browser reports for a video load. */
  datatype VideoLoad = VideoLoaded(readyState: nat) | VideoFailed

  /** One `drawArrays` with the uniforms set before it. */
  datatype DrawCall = DrawCall(
    layer: Layer,
    texture: Texture,
    homography: seq<real>,
    opacity: real,
    tint: Vec3,
    intensity: real,
    blendMode: nat)

  /** The tint uniform is a vec3: the colour's alpha never reaches the shader. */
  function TintRGB(c: Color): Vec3 {
    Vec3(c.r, c.g, c.b)
  }

  /** What one frame does: the draw calls issued, the layers whose video
      texture was re-uploaded, and the error that aborted the frame, if any. */
  datatype Frame = Frame(draws: seq<DrawCall>, uploads: seq<string>, error: Option<string>)

  // ------------------------------------------------------------ isPowerOf2

  const Two32: int := 0x1_0000_0000

  /** The 32-bit pattern JavaScript's bitwise operators see for an integer. */
  function Bits32(v: int): (b: nat)
    ensures b < Two32
  {
    v % Two32
  }

  /** Bitwise AND of two naturals. */
  function BitAnd(a: nat, b: nat): nat {
    if a == 0 || b == 0 then 0
    else 2 * BitAnd(a / 2, b / 2) + (if a % 2 == 1 && b % 2 == 1 then 1 else 0)
  }

  /** `(value & (value - 1)) === 0` on 32-bit integers. */
  function IsPowerOf2(v: int): bool {
    BitAnd(Bits32(v), Bits32(v - 1)) == 0
  }

  /** The reference definition: 1, 2, 4, 8, ... */
  predicate PowerOfTwo(v: nat)
    decreases v
  {
    v == 1 || (v >= 2 && v % 2 == 0 && PowerOfTwo(v / 2))
  }

  lemma {:induction false} BitAndSelf(m: nat)
    ensures BitAnd(m, m) == m
  {
    if m > 0 {
      BitAndSelf(m / 2);
    }
  }

  /** For a positive value, its AND with its predecessor is 0 exactly when
      it is a power of two. */
  lemma {:induction false} BitAndPredecessor(v: nat)
    requires v >= 1
    ensures BitAnd(v, v - 1) == 0 <==> PowerOfTwo(v)
  {
    if v == 1 {
    } else if v % 2 == 0 {
      BitAndPredecessor(v / 2);
      assert (v - 1) / 2 == v / 2 - 1;
      assert BitAnd(v, v - 1) == 2 * BitAnd(v / 2, v / 2 - 1);
    } else {
      assert (v - 1) / 2 == v / 2;
      BitAndSelf(v / 2);
      assert BitAnd(v, v - 1) == 2 * BitAnd(v / 2, v / 2);
    }
  }

  /** On 32-bit values the test accepts exactly 0 and the powers of two. */
  lemma IsPowerOf2Correct(v: int)
    requires 0 <= v < Two32
    ensures IsPowerOf2(v) <==> v == 0 || PowerOfTwo(v)
  {
    if v >= 1 {
      assert Bits32(v) == v && Bits32(v - 1) == v - 1;
      BitAndPredecessor(v);
    } else {
      assert BitAnd(Bits32(v), Bits32(v - 1)) == 0;
    }
  }

  /** Mipmaps only when both dimensions pass the test. */
  function SamplingFor(width: int, height: int): Sampling {
    if IsPowerOf2(width) && IsPowerOf2(height) then Mipmapped else ClampedLinear
  }

  // ------------------------------------------------------------- blend modes

  /** `{ normal: 0, add: 1, multiply: 2, screen: 3 }` */
  function BlendCode(m: BlendMode): (c: nat)
    ensures c < 4
  {
    match m
    case Normal => 0
    case Add => 1
    case Multiply => 2
    case Screen => 3
  }

  /** The mode a shader code stands for. */
  function BlendModeOf(c: nat): BlendMode
    requires c < 4
  {
    if c == 0 then Normal else if c == 1 then Add else if c == 2 then Multiply else Screen
  }

  /** The encoding is a bijection onto 0..3: decoding inverts it both ways,
      so distinct modes get distinct codes. */
  lemma BlendCodeBijective()
    ensures forall m: BlendMode :: BlendModeOf(BlendCode(m)) == m
    ensures forall c :: 0 <= c < 4 ==> BlendCode(BlendModeOf(c)) == c
    ensures forall a: BlendMode, b: BlendMode :: BlendCode(a) == BlendCode(b) ==> a == b
  {
    forall a: BlendMode, b: BlendMode | BlendCode(a) == BlendCode(b) ensures a == b {
      assert BlendModeOf(BlendCode(a)) == a && BlendModeOf(BlendCode(b)) == b;
    }
  }

  // ----------------------------------------------------------------- a frame

  /** The layer passes the visibility checks: it is visible and the first
      geometry with its `geometryId` exists and is visible. */
  predicate Eligible(l: Layer, gs: seq<Geometry>) {
    l.visible && FindGeometry(gs, l.geometryId).Some? && FindGeometry(gs, l.geometryId).value.visible
  }

  /** The layer reaches `drawArrays` (or the homography that precedes it). */
  predicate Drawn(l: Layer, gs: seq<Geometry>, textures: map<string, Texture>) {
    Eligible(l, gs) && l.id in textures
  }

  /** `updateVideoTexture` uploads a frame only when the id has both a video
      and a texture and the video has current data (`readyState >= 2`). */
  predicate Refreshable(id: string, textures: map<string, Texture>, videos: map<string, VideoElement>) {
    id in videos && id in textures && videos[id].readyState >= 2
  }

  /** The fixed quad every layer is drawn on. */
  const UnitQuad: seq<Vec2> := [Vec2(-1.0, -1.0), Vec2(1.0, -1.0), Vec2(1.0, 1.0), Vec2(-1.0, 1.0)]

  /** `geometry.points.map(p => p.position)` */
  function Positions(points: seq<QuadPoint>): (ps: seq<Vec2>)
    ensures |ps| == |points|
    ensures forall k :: 0 <= k < |points| ==> ps[k] == points[k].position
  {
    seq(|points|, k requires 0 <= k < |points| => points[k].position)
  }

  /** A frame's effects followed by those of the rest of the frame. */
  function Then(draws: seq<DrawCall>, uploads: seq<string>, rest: Frame): Frame {
    Frame(draws + rest.draws, uploads + rest.uploads, rest.error)
  }

  /** The draw calls and video uploads of the layer loop, over the layers
      in sequence order; a homography failure aborts the rest of the loop. */
  function RenderLayers(ls: seq<Layer>, gs: seq<Geometry>, global: GlobalSettings,
                        textures: map<string, Texture>, videos: map<string, VideoElement>,
                        solver: Matrix -> seq<real>): (f: Frame)
    requires forall M :: |solver(M)| == 9
  {
    if ls == [] then Frame([], [], None)
    else RenderLayer(ls[0], gs, global, textures, videos, solver, RenderLayers(ls[1..], gs, global, textures, videos, solver))
  }

  /** One pass of the layer loop, followed by `rest`, the rest of the loop. */
  function RenderLayer(l: Layer, gs: seq<Geometry>, global: GlobalSettings,
                       textures: map<string, Texture>, videos: map<string, VideoElement>,
                       solver: Matrix -> seq<real>, rest: Frame): Frame
    requires forall M :: |solver(M)| == 9
  {
    if !Eligible(l, gs) then rest
    else
      var up := if l.IsVideo() && Refreshable(l.id, textures, videos) then [l.id] else [];
      if l.id !in textures then Then([], up, rest)
      else
        var g := FindGeometry(gs, l.geometryId).value;
        match HomographyOf(UnitQuad, Positions(g.points), solver)
        case Failure(e) => Frame([], up, Some(e))
        case Success(h) =>
          Then([DrawCall(l, textures[l.id], h, l.opacity, TintRGB(global.tint), global.intensity, BlendCode(l.blendMode))], up, rest)
  }

  /** The loop from layer i on is pass i followed by the loop from i + 1. */
  lemma RenderLayersFrom(ls: seq<Layer>, i: nat, gs: seq<Geometry>, global: GlobalSettings,
                         textures: map<string, Texture>, videos: map<string, VideoElement>,
                         solver: Matrix -> seq<real>)
    requires i < |ls| && forall M :: |solver(M)| == 9
    ensures RenderLayers(ls[i..], gs, global, textures, videos, solver) ==
            RenderLayer(ls[i], gs, global, textures, videos, solver, RenderLayers(ls[i + 1..], gs, global, textures, videos, solver))
  {
    assert ls[i..][1..] == ls[i + 1..];
  }

  lemma LoopDone(ls: seq<Layer>, gs: seq<Geometry>, global: GlobalSettings,
                  textures: map<string, Texture>, videos: map<string, VideoElement>,
                  solver: Matrix -> seq<real>, draws: seq<DrawCall>, uploaded: seq<string>)
    requires forall M :: |solver(M)| == 9
    ensures Then(draws, uploaded, RenderLayers(ls[|ls|..], gs, global, textures, videos, solver)) == Frame(draws, uploaded, None)
  {
    assert ls[|ls|..] == [];
    assert draws + [] == draws && uploaded + [] == uploaded;
  }

  lemma ThenThen(d1: seq<DrawCall>, u1: seq<string>, d2: seq<DrawCall>, u2: seq<string>, rest: Frame)
    ensures Then(d1, u1, Then(d2, u2, rest)) == Then(d1 + d2, u1 + u2, rest)
  {
    assert d1 + (d2 + rest.draws) == (d1 + d2) + rest.draws;
    assert u1 + (u2 + rest.uploads) == (u1 + u2) + rest.uploads;
  }

  /** The geometry a layer is drawn on has a point count the homography
      rejects. */
  predicate BadQuad(l: Layer, gs: seq<Geometry>)
    requires Eligible(l, gs)
  {
    |FindGeometry(gs, l.geometryId).value.points| != 4
  }

  function DrawnLayers(draws: seq<DrawCall>): (ls: seq<Layer>)
    ensures |ls| == |draws|
    ensures forall k :: 0 <= k < |draws| ==> ls[k] == draws[k].layer
  {
    seq(|draws|, k requires 0 <= k < |draws| => draws[k].layer)
  }

  lemma DrawnLayersCons(d: DrawCall, draws: seq<DrawCall>)
    ensures DrawnLayers([d] + draws) == [d.layer] + DrawnLayers(draws)
  {
    var lhs, rhs := DrawnLayers([d] + draws), [d.layer] + DrawnLayers(draws);
    assert |lhs| == |rhs|;
    forall k | 0 <= k < |lhs| ensures lhs[k] == rhs[k] {
      if k > 0 {
        assert ([d] + draws)[k] == draws[k - 1];
      }
    }
  }

  /** A frame aborts exactly when a layer that passes every check sits on
      a geometry without four points. */
  lemma {:induction false} RenderAbortsOnBadQuad(ls: seq<Layer>, gs: seq<Geometry>, global: GlobalSettings,
                                                 textures: map<string, Texture>, videos: map<string, VideoElement>,
                                                 solver: Matrix -> seq<real>)
    requires forall M :: |solver(M)| == 9
    ensures RenderLayers(ls, gs, global, textures, videos, solver).error.Some? <==>
            exists k :: 0 <= k < |ls| && Drawn(ls[k], gs, textures) && BadQuad(ls[k], gs)
  {
    if ls != [] {
      RenderAbortsOnBadQuad(ls[1..], gs, global, textures, videos, solver);
      var l := ls[0];
      assert forall k :: 0 < k < |ls| ==> ls[1..][k - 1] == ls[k];
      if Drawn(l, gs, textures) {
        var g := FindGeometry(gs, l.geometryId).value;
        assert HomographyOf(UnitQuad, Positions(g.points), solver).Failure? <==> BadQuad(l, gs);
      }
      if exists k :: 0 <= k < |ls| && Drawn(ls[k], gs, textures) && BadQuad(ls[k], gs) {
        var k :| 0 <= k < |ls| && Drawn(ls[k], gs, textures) && BadQuad(ls[k], gs);
        if k > 0 {
          assert Drawn(ls[1..][k - 1], gs, textures) && BadQuad(ls[1..][k - 1], gs);
        }
      }
    }
  }

  /** A frame that completes draws exactly the layers that pass every check,
      in the order they come in the layer list; their `order` field plays no
      part. */
  lemma {:induction false} RenderDrawsExactly(ls: seq<Layer>, gs: seq<Geometry>, global: GlobalSettings,
                                              textures: map<string, Texture>, videos: map<string, VideoElement>,
                                              solver: Matrix -> seq<real>)
    requires forall M :: |solver(M)| == 9
    ensures var f := RenderLayers(ls, gs, global, textures, videos, solver);
            f.error.None? ==> DrawnLayers(f.draws) == Filter(ls, l => Drawn(l, gs, textures))
  {
    if ls != [] {
      RenderDrawsExactly(ls[1..], gs, global, textures, videos, solver);
      var rest := RenderLayers(ls[1..], gs, global, textures, videos, solver);
      LayerDraws(ls[0], gs, global, textures, videos, solver, rest);
    }
  }

  /** One pass of the loop draws its layer exactly when the layer passes
      every check, in front of what the rest of the loop draws. */
  lemma LayerDraws(l: Layer, gs: seq<Geometry>, global: GlobalSettings,
                   textures: map<string, Texture>, videos: map<string, VideoElement>,
                   solver: Matrix -> seq<real>, rest: Frame)
    requires forall M :: |solver(M)| == 9
    ensures var f := RenderLayer(l, gs, global, textures, videos, solver, rest);
            f.error.None? ==>
              rest.error.None? &&
              DrawnLayers(f.draws) == if Drawn(l, gs, textures) then [l] + DrawnLayers(rest.draws) else DrawnLayers(rest.draws)
  {
    var f := RenderLayer(l, gs, global, textures, videos, solver, rest);
    if f.error.None? {
      if Drawn(l, gs, textures) {
        assert f.draws == [f.draws[0]] + rest.draws;
        DrawnLayersCons(f.draws[0], rest.draws);
      } else if Eligible(l, gs) {
        assert f.draws == [] + rest.draws;
      }
    }
  }

  /** Every drawn layer gets the homography from the fixed quad to its
      geometry's corners in stored order, its own opacity, the global tint
      and intensity, and its blend-mode code. */
  lemma {:induction false} RenderDrawParameters(ls: seq<Layer>, gs: seq<Geometry>, global: GlobalSettings,
                                                textures: map<string, Texture>, videos: map<string, VideoElement>,
                                                solver: Matrix -> seq<real>)
    requires forall M :: |solver(M)| == 9
    ensures forall d :: d in RenderLayers(ls, gs, global, textures, videos, solver).draws ==>
              Drawn(d.layer, gs, textures) && d.texture == textures[d.layer.id] &&
              var g := FindGeometry(gs, d.layer.geometryId).value;
              |g.points| == 4 &&
              d.homography == HomographyOf(UnitQuad, Positions(g.points), solver).value &&
              d.opacity == d.layer.opacity && d.tint == Vec3(global.tint.r, global.tint.g, global.tint.b) &&
              d.intensity == global.intensity && d.blendMode == BlendCode(d.layer.blendMode)
  {
    if ls != [] {
      RenderDrawParameters(ls[1..], gs, global, textures, videos, solver);
    }
  }

  /** Video textures are refreshed only for video layers that passed the
      visibility and geometry checks, and only when they can be. */
  lemma {:induction false} RenderUploadsOnlyEligibleVideos(ls: seq<Layer>, gs: seq<Geometry>, global: GlobalSettings,
                                                           textures: map<string, Texture>, videos: map<string, VideoElement>,
                                                           solver: Matrix -> seq<real>)
    requires forall M :: |solver(M)| == 9
    ensures forall id :: id in RenderLayers(ls, gs, global, textures, videos, solver).uploads ==>
              Refreshable(id, textures, videos) &&
              exists l :: l in ls && l.id == id && l.IsVideo() && Eligible(l, gs)
  {
    if ls != [] {
      RenderUploadsOnlyEligibleVideos(ls[1..], gs, global, textures, videos, solver);
      assert forall l :: l in ls[1..] ==> l in ls;
    }
  }

  predicate IsMedia(l: Layer) {
    l.content.Image? || l.content.Video?
  }

  /** When textures exist only for image and video layers, as the loaders
      make them, no color, shader or pattern layer is ever drawn. */
  lemma OnlyMediaDrawn(ls: seq<Layer>, gs: seq<Geometry>, global: GlobalSettings,
                       textures: map<string, Texture>, videos: map<string, VideoElement>,
                       solver: Matrix -> seq<real>)
    requires forall M :: |solver(M)| == 9
    requires forall l :: l in ls && l.id in textures ==> IsMedia(l)
    ensures forall d :: d in RenderLayers(ls, gs, global, textures, videos, solver).draws ==> IsMedia(d.layer)
  {
    RenderDrawParameters(ls, gs, global, textures, videos, solver);
    DrawsFromLayers(ls, gs, global, textures, videos, solver);
  }

  /** Every draw call is for a layer of the list. */
  lemma {:induction false} DrawsFromLayers(ls: seq<Layer>, gs: seq<Geometry>, global: GlobalSettings,
                                           textures: map<string, Texture>, videos: map<string, VideoElement>,
                                           solver: Matrix -> seq<real>)
    requires forall M :: |solver(M)| == 9
    ensures forall d :: d in RenderLayers(ls, gs, global, textures, videos, solver).draws ==> d.layer in ls
  {
    if ls != [] {
      DrawsFromLayers(ls[1..], gs, global, textures, videos, solver);
      assert forall l :: l in ls[1..] ==> l in ls;
    }
  }

  // ---------------------------------------------------------------- the engine

  class ProjectionEngine {
    /** Whether the shader program compiled and linked. */
    var programReady: bool
    var textures: map<string, Texture>
    var videos: map<string, VideoElement>
    /** Video frames uploaded into textures, by layer id, oldest first. */
    var uploads: seq<string>

    constructor(programReady: bool)
      ensures this.programReady == programReady
      ensures textures == map[] && videos == map[] && uploads == []
    {
      this.programReady := programReady;
      textures, videos, uploads := map[], map[], [];
    }

    /** `loadImage`: on load the texture, with its sampling chosen by the
        image size, replaces any texture of that id; on error nothing changes. */
    method LoadImage(id: string, src: string, outcome: ImageLoad, handle: nat) returns (r: Result<()>)
      modifies this
      ensures outcome.ImageFailed? ==> r == Failure("Failed to load image: " + src) && textures == old(textures)
      ensures outcome.ImageLoaded? ==>
                r.Success? && textures == old(textures)[id := Texture(handle, SamplingFor(outcome.width, outcome.height))]
      ensures videos == old(videos) && uploads == old(uploads) && programReady == old(programReady)
    {
      match outcome
      case ImageFailed =>
        r := Failure("Failed to load image: " + src);
      case ImageLoaded(w, h) =>
        textures := textures[id := Texture(handle, SamplingFor(w, h))];
        r := Success(());
    }

    /** `loadVideo`: on load a looping, muted video and a clamped texture are
        both recorded under the id; on error nothing changes. */
    method LoadVideo(id: string, src: string, outcome: VideoLoad, handle: nat) returns (r: Result<VideoElement>)
      modifies this
      ensures outcome.VideoFailed? ==>
                r == Failure("Failed to load video: " + src) && textures == old(textures) && videos == old(videos)
      ensures outcome.VideoLoaded? ==>
                r == Success(VideoElement(src, true, true, outcome.readyState)) &&
                textures == old(textures)[id := Texture(handle, ClampedLinear)] &&
                videos == old(videos)[id := r.value]
      ensures uploads == old(uploads) && programReady == old(programReady)
    {
      match outcome
      case VideoFailed =>
        r := Failure("Failed to load video: " + src);
      case VideoLoaded(state) =>
        var video := VideoElement(src, true, true, state);
        textures := textures[id := Texture(handle, ClampedLinear)];
        videos := videos[id := video];
        r := Success(video);
    }

    /** `updateVideoTexture`: uploads the current frame only when it can. */
    method UpdateVideoTexture(id: string)
      modifies this
      ensures uploads == old(uploads) + (if Refreshable(id, textures, videos) then [id] else [])
      ensures textures == old(textures) && videos == old(videos) && programReady == old(programReady)
    {
      if id !in videos || id !in textures || videos[id].readyState < 2 {
        return;
      }
      uploads := uploads + [id];
    }

    /** `render`: without a program nothing is drawn; otherwise the layer
        loop, which stops at the first homography failure. */
    method Render(ls: seq<Layer>, gs: seq<Geometry>, global: GlobalSettings, solver: Matrix -> seq<real>)
      returns (f: Frame)
      requires forall M :: |solver(M)| == 9
      modifies this
      ensures !programReady ==> f == Frame([], [], None)
      ensures programReady ==> f == RenderLayers(ls, gs, global, textures, videos, solver)
      ensures uploads == old(uploads) + f.uploads
      ensures textures == old(textures) && videos == old(videos) && programReady == old(programReady)
    {
      f := Frame([], [], None);
      if !programReady {
        return;
      }
      ghost var whole := RenderLayers(ls, gs, global, textures, videos, solver);
      ghost var base := uploads;
      var draws: seq<DrawCall> := [];
      var uploaded: seq<string> := [];
      var i := 0;
      while i < |ls|
        invariant 0 <= i <= |ls|
        invariant textures == old(textures) && videos == old(videos) && programReady == old(programReady)
        invariant uploads == base + uploaded
        invariant Then(draws, uploaded, RenderLayers(ls[i..], gs, global, textures, videos, solver)) == whole
      {
        var err;
        draws, uploaded, err := LayerStep(ls, i, gs, global, solver, draws, uploaded, whole, base);
        if err.Some? {
          f := Frame(draws, uploaded, err);
          return;
        }
        i := i + 1;
      }
      LoopDone(ls, gs, global, textures, videos, solver, draws, uploaded);
      f := Frame(draws, uploaded, None);
    }

    /** One iteration of the layer loop of `render`: the frame so far,
        followed by the loop from layer i on, is the whole frame before
        and after the pass over layer i. */
    method LayerStep(ls: seq<Layer>, i: nat, gs: seq<Geometry>, global: GlobalSettings, solver: Matrix -> seq<real>,
                     draws: seq<DrawCall>, uploaded: seq<string>, ghost whole: Frame, ghost base: seq<string>)
      returns (draws': seq<DrawCall>, uploaded': seq<string>, err: Option<string>)
      requires i < |ls| && forall M :: |solver(M)| == 9
      requires uploads == base + uploaded
      requires Then(draws, uploaded, RenderLayers(ls[i..], gs, global, textures, videos, solver)) == whole
      modifies this
      ensures textures == old(textures) && videos == old(videos) && programReady == old(programReady)
      ensures uploads == base + uploaded'
      ensures err.Some? ==> Frame(draws', uploaded', err) == whole
      ensures err.None? ==> Then(draws', uploaded', RenderLayers(ls[i + 1..], gs, global, textures, videos, solver)) == whole
    {
      ghost var rest := RenderLayers(ls[i + 1..], gs, global, textures, videos, solver);
      RenderLayersFrom(ls, i, gs, global, textures, videos, solver);
      var drawn, up;
      drawn, up, err := LayerPass(ls[i], gs, global, solver, rest);
      ThenThen(draws, uploaded, drawn, up, rest);
      draws', uploaded' := draws + drawn, uploaded + up;
      if err.Some? {
        assert draws + [] == draws;
      }
    }

    /** One pass of the layer loop of `render`, followed by `rest`: the
        visibility checks, the video refresh, the texture check and the
        homography; `err` is set when the homography fails. */
    method LayerPass(l: Layer, gs: seq<Geometry>, global: GlobalSettings, solver: Matrix -> seq<real>, ghost rest: Frame)
      returns (drawn: seq<DrawCall>, up: seq<string>, err: Option<string>)
      requires forall M :: |solver(M)| == 9
      modifies this
      ensures textures == old(textures) && videos == old(videos) && programReady == old(programReady)
      ensures uploads == old(uploads) + up
      ensures err.Some? ==> drawn == [] && RenderLayer(l, gs, global, textures, videos, solver, rest) == Frame([], up, err)
      ensures err.None? ==> RenderLayer(l, gs, global, textures, videos, solver, rest) == Then(drawn, up, rest)
    {
      drawn, up, err := [], [], None;
      if !l.visible {
        return;
      }
      var found := FindGeometry(gs, l.geometryId);
      if found.None? || !found.value.visible {
        return;
      }
      if l.IsVideo() {
        UpdateVideoTexture(l.id);
        up := if Refreshable(l.id, textures, videos) then [l.id] else [];
      }
      if l.id !in textures {
        return;
      }
      var h := CalculateHomography(UnitQuad, Positions(found.value.points), solver);
      if h.Failure? {
        err := Some(h.error);
        return;
      }
      drawn := [DrawCall(l, textures[l.id], h.value, l.opacity, TintRGB(global.tint), global.intensity, BlendCode(l.blendMode))];
    }

    /** `destroy`: both caches are emptied. */
    method Destroy()
      modifies this
      ensures textures == map[] && videos == map[]
      ensures uploads == old(uploads) && programReady == old(programReady)
    {
      textures := map[];
      videos := map[];
    }
  }
}
