/** The renderer (src/web-renderer.ts).  For each model of the scene it runs
    the geometry pipeline (rotate, translate, view, back-face test, near-plane
    clip, light, project, perspective divide, viewport), clips the screen
    triangles against the four screen edges, sorts them back to front, and
    draws them into the shared byte image and depth buffer, either with the
    flat fill or with the perspective-correct textured fill.  Both ways of
    drawing start by clearing both buffers. */
module Rendering {
  import opened Numerics
  import opened Vectors
  import opened Matrices
  import opened Texels
  import opened Triangles
  import opened Planes
  import opened Clipping
  import opened Cameras
  import opened Lighting
  import opened Colors
  import opened Models
  import opened Scenes
  import opened Raster

  // ---------------------------------------------------------------------
  // Planes
  // ---------------------------------------------------------------------

  /** The near plane of `renderMesh`: normal (0, 0, 0.001) through the point
      (0, 0, 0.001). */
  const NearPlane: Plane := Plane(Point(0.0, 0.0, 0.001), Point(0.0, 0.0, 0.001))

  function TopScreenPlane(): Plane {
    Plane(Point(0.0, 1.0, 0.0), Point(0.0, 0.0, 0.0))
  }

  function BottomScreenPlane(height: real): Plane {
    Plane(Point(0.0, -1.0, 0.0), Point(0.0, height, 0.0))
  }

  function LeftScreenPlane(): Plane {
    Plane(Point(1.0, 0.0, 0.0), Point(0.0, 0.0, 0.0))
  }

  function RightScreenPlane(width: real): Plane {
    Plane(Point(-1.0, 0.0, 0.0), Point(width, 0.0, 0.0))
  }

  /** The planes of `clipScreenSpace`, in the order it clips against them. */
  function ScreenPlanes(width: real, height: real): seq<Plane> {
    [TopScreenPlane(), BottomScreenPlane(height), LeftScreenPlane(), RightScreenPlane(width)]
  }

  // ---------------------------------------------------------------------
  // Screen-edge clipping
  // ---------------------------------------------------------------------

  /** One pass of the worklist over `ts`: each triangle replaced, in order,
      by what `clipAgainstPlane` returns for it. */
  function ClipEach(m: Libm, plane: Plane, ts: seq<Tri>): seq<Tri>
    requires Lawful(m)
    decreases |ts|
  {
    if |ts| == 0 then []
    else ClipEach(m, plane, ts[..|ts| - 1]) + Clip(m, plane, ts[|ts| - 1])
  }

  lemma ClipEachStep(m: Libm, plane: Plane, ts: seq<Tri>, k: nat)
    requires Lawful(m) && k < |ts|
    ensures ClipEach(m, plane, ts[..k + 1]) == ClipEach(m, plane, ts[..k]) + Clip(m, plane, ts[k])
  {
    assert ts[..k + 1][..k] == ts[..k];
  }

  /** One turn of the worklist: shifting off the next unclipped triangle and
      pushing its pieces at the back moves it from the front part to the
      clipped part. */
  lemma WorklistStep(m: Libm, plane: Plane, list: seq<Tri>, k: nat, worklist: seq<Tri>)
    requires Lawful(m) && k < |list|
    requires worklist == list[k..] + ClipEach(m, plane, list[..k])
    ensures |worklist| > 0 && worklist[0] == list[k]
    ensures worklist[1..] + Clip(m, plane, list[k]) == list[k + 1..] + ClipEach(m, plane, list[..k + 1])
  {
    ClipEachStep(m, plane, list, k);
    ShiftThenPush(list, k, ClipEach(m, plane, list[..k]), Clip(m, plane, list[k]), worklist);
  }

  lemma ShiftThenPush<T>(list: seq<T>, k: nat, done: seq<T>, pieces: seq<T>, worklist: seq<T>)
    requires k < |list| && worklist == list[k..] + done
    ensures |worklist| > 0 && worklist[0] == list[k]
    ensures worklist[1..] + pieces == list[k + 1..] + (done + pieces)
  {
    assert worklist[1..] == list[k + 1..] + done;
  }

  /** The worklist after one pass for each of `planes`, in order. */
  function ClipThrough(m: Libm, planes: seq<Plane>, ts: seq<Tri>): seq<Tri>
    requires Lawful(m)
    decreases |planes|
  {
    if |planes| == 0 then ts
    else ClipEach(m, planes[|planes| - 1], ClipThrough(m, planes[..|planes| - 1], ts))
  }

  /** Each triangle of `ts` taken through the passes for `planes` on its
      own, the results one after the other in input order. */
  function ClipSeparately(m: Libm, planes: seq<Plane>, ts: seq<Tri>): seq<Tri>
    requires Lawful(m)
    decreases |ts|
  {
    if |ts| == 0 then []
    else ClipSeparately(m, planes, ts[..|ts| - 1]) + ClipThrough(m, planes, [ts[|ts| - 1]])
  }

  /** What `clipScreenSpace` returns: for each input triangle, in input
      order, the pieces left after the four screen edges. */
  function ScreenClip(m: Libm, width: real, height: real, ts: seq<Tri>): seq<Tri>
    requires Lawful(m)
  {
    ClipSeparately(m, ScreenPlanes(width, height), ts)
  }

  /** Every vertex lies inside the screen rectangle [0, width] x [0, height]. */
  predicate OnScreen(t: Tri, width: real, height: real) {
    && 0.0 <= t.v1.x <= width && 0.0 <= t.v1.y <= height
    && 0.0 <= t.v2.x <= width && 0.0 <= t.v2.y <= height
    && 0.0 <= t.v3.x <= width && 0.0 <= t.v3.y <= height
  }

  // ---------------------------------------------------------------------
  // Back-to-front sort
  // ---------------------------------------------------------------------

  /** The mean z of the three vertices. */
  function MeanZ(t: Tri): real {
    (t.v1.z + t.v2.z + t.v3.z) / 3.0
  }

  /** `sortTriangles`, the comparator handed to `Array.prototype.sort`:
      negative (t1 goes first) exactly when t1 is farther away, zero on a
      tie. */
  function SortTriangles(t1: Tri, t2: Tri): (r: real)
    ensures r < 0.0 <==> MeanZ(t1) > MeanZ(t2)
    ensures r == 0.0 <==> MeanZ(t1) == MeanZ(t2)
  {
    MeanZ(t2) - MeanZ(t1)
  }

  /** No pair is out of order for the comparator: mean z never increases. */
  predicate BackToFront(s: seq<Tri>) {
    forall i, j :: 0 <= i < j < |s| ==> SortTriangles(s[i], s[j]) <= 0.0
  }

  /** Inserts t after every element the comparator does not put behind it,
      so that among equal mean z the earlier input stays first. */
  function InsertByDepth(t: Tri, s: seq<Tri>): (r: seq<Tri>)
    requires BackToFront(s)
    ensures BackToFront(r)
    ensures multiset(r) == multiset(s) + multiset{t}
    decreases |s|
  {
    if |s| == 0 then [t]
    else if SortTriangles(s[0], t) <= 0.0 then
      var rest := InsertByDepth(t, s[1..]);
      HeadIsFarthest(s[0], s[1..], t, rest);
      SplitHead(s);
      [s[0]] + rest
    else
      NewHeadIsFarthest(t, s);
      [t] + s
  }

  lemma SplitHead(s: seq<Tri>)
    requires |s| > 0
    ensures s == [s[0]] + s[1..]
    ensures multiset(s) == multiset{s[0]} + multiset(s[1..])
  {
    assert s == [s[0]] + s[1..];
  }

  lemma NewHeadIsFarthest(t: Tri, s: seq<Tri>)
    requires BackToFront(s) && |s| > 0 && MeanZ(t) > MeanZ(s[0])
    ensures BackToFront([t] + s)
  {
    var r := [t] + s;
    forall i, j | 0 <= i < j < |r|
      ensures SortTriangles(r[i], r[j]) <= 0.0
    {
      if i == 0 {
        assert r[j] == s[j - 1];
        if j > 1 {
          assert SortTriangles(s[0], s[j - 1]) <= 0.0;
        }
      } else {
        assert r[i] == s[i - 1] && r[j] == s[j - 1];
      }
    }
  }

  lemma HeadIsFarthest(h: Tri, tail: seq<Tri>, t: Tri, rest: seq<Tri>)
    requires BackToFront([h] + tail) && BackToFront(rest)
    requires MeanZ(h) >= MeanZ(t)
    requires multiset(rest) == multiset(tail) + multiset{t}
    ensures BackToFront([h] + rest)
  {
    var s := [h] + tail;
    forall x | x in rest
      ensures MeanZ(h) >= MeanZ(x)
    {
      assert x in multiset(rest);
      if x != t {
        assert x in multiset(tail);
        var k :| 0 <= k < |tail| && tail[k] == x;
        assert s[0] == h && s[k + 1] == x;
        assert SortTriangles(s[0], s[k + 1]) <= 0.0;
      }
    }
    var r := [h] + rest;
    forall i, j | 0 <= i < j < |r|
      ensures SortTriangles(r[i], r[j]) <= 0.0
    {
      if i == 0 {
        assert r[j] == rest[j - 1];
      } else {
        assert r[i] == rest[i - 1] && r[j] == rest[j - 1];
      }
    }
  }

  /** `clippedTris.sort(this.sortTriangles)`: a stable sort, here an
      insertion sort that inserts each triangle in input order. */
  function SortByDepth(ts: seq<Tri>): (r: seq<Tri>)
    ensures BackToFront(r)
    ensures multiset(r) == multiset(ts)
    decreases |ts|
  {
    if |ts| == 0 then []
    else
      assert ts == ts[..|ts| - 1] + [ts[|ts| - 1]];
      InsertByDepth(ts[|ts| - 1], SortByDepth(ts[..|ts| - 1]))
  }

  // ---------------------------------------------------------------------
  // The geometry pipeline of one model
  // ---------------------------------------------------------------------

  /** `Math.tan` of half the 90 degree field of view is non-zero, so the
      projection matrix is finite. */
  predicate FovDefined(m: Libm) {
    m.tan(HalfFovRadians(90.0)) != 0.0
  }

  /** `screenHeight / screenWidth`.  A zero width gives an empty image and
      depth buffer, where no value of the ratio can show; the model uses 0. */
  function Aspect(width: nat, height: nat): real {
    if width == 0 then 0.0 else height as real / width as real
  }

  /** `getProjectionMatrix(90, screenHeight / screenWidth, 0.1, 100)` */
  function ProjectionMatrix(m: Libm, width: nat, height: nat): (r: Mat4x4)
    requires FovDefined(m)
    ensures Valid(r)
  {
    Projection(m, 90.0, Aspect(width, height), 0.1, 100.0)
  }

  /** The model's rotation: Rz (Ry Rx). */
  function ModelRotation(m: Libm, angles: Vec3): (r: Mat4x4)
    ensures Valid(r)
  {
    MulSpec(RotZ(m, angles.z), MulSpec(RotY(m, angles.y), RotX(m, angles.x)))
  }

  /** `cam.forward` once `cameraMatrix` has rebuilt the camera's basis. */
  function CameraForward(m: Libm, pitch: real, yaw: real): Vec3 {
    VecMatrixMul(InitialForward, Cameras.Rotation(m, pitch, yaw))
  }

  /** What one call of `renderMesh` reads besides the model: the host maths,
      the camera's position and angles, the scene's light and the screen
      size. */
  datatype View = View(m: Libm, position: Vec3, pitch: real, yaw: real, light: Light, width: nat, height: nat)

  ghost predicate Ready(v: View) {
    Lawful(v.m) && FovDefined(v.m)
  }

  /** What `renderMesh` prepares before its loop over the model's
      triangles: the rotation, translation and camera matrices, the camera's
      rebuilt forward vector, the light and the screen size. */
  datatype Pipeline = Pipeline(m: Libm, rotation: Mat4x4, translation: Mat4x4, camera: Mat4x4,
                               forward: Vec3, light: Light, width: nat, height: nat)

  ghost predicate Prepared(p: Pipeline) {
    Lawful(p.m) && FovDefined(p.m) && Valid(p.rotation) && Valid(p.translation) && Valid(p.camera)
  }

  /** Lines 49-54 of `renderMesh`, for the model and the view. */
  function PipelineFor(v: View, model: Model): (p: Pipeline)
    ensures Ready(v) ==> Prepared(p)
  {
    Pipeline(v.m, ModelRotation(v.m, model.rotation), Translation(model.translation),
             ViewMatrix(v.m, v.position, v.pitch, v.yaw), CameraForward(v.m, v.pitch, v.yaw),
             v.light, v.width, v.height)
  }

  /** `cam.isVisibleTri(camViewTri)`.  A triangle whose edge cross product is
      the zero vector gets a NaN normal in TypeScript, and every comparison
      with NaN is false: such a triangle is not visible. */
  predicate SeenFrom(m: Libm, forward: Vec3, tri: Tri)
    requires Lawful(m)
  {
    LengthSquared(EdgeCross(tri)) > 0.0
    && (LengthPositive(m, EdgeCross(tri));
        FacesCamera(m, forward, tri))
  }

  /** The intensity `renderMesh` gives every piece of a triangle: 1 with the
      light off, otherwise the light's intensity on the rotated, unclipped
      triangle.  A degenerate triangle or a zero light direction makes the
      TypeScript intensity NaN, which the byte store turns into 0 in every
      channel it scales; the model uses 0. */
  function LightIntensity(m: Libm, light: Light, rotated: Tri): (r: real)
    requires Lawful(m)
    ensures 0.0 <= r <= 1.0
    ensures !light.isEnabled ==> r == 1.0
  {
    if !light.isEnabled then 1.0
    else if LengthSquared(EdgeCross(rotated)) > 0.0 && LengthSquared(light.direction) > 0.0 then
      IntensityAtMostOne(m, light, rotated);
      CalculateLightIntensity(m, light, rotated)
    else 0.0
  }

  /** Every vertex is at depth 0.001 or more, beyond the near plane. */
  predicate BeyondNear(t: Tri) {
    t.v1.z >= 0.001 && t.v2.z >= 0.001 && t.v3.z >= 0.001
  }

  /** Lines 72-88 of `renderMesh` for one piece of the near clip: set the
      intensity, project, divide by w, map to the screen, and divide each
      texel by its own vertex's projected w. */
  function ProjectTri(p: Pipeline, tri: Tri, intensity: real): (r: Tri)
    requires FovDefined(p.m)
    requires BeyondNear(tri)
    ensures r.intensity == intensity
    ensures r.t1 == Texels.Div(tri.t1, tri.v1.z)
    ensures r.t2 == Texels.Div(tri.t2, tri.v2.z)
    ensures r.t3 == Texels.Div(tri.t3, tri.v3.z)
  {
    var proj := ProjectionMatrix(p.m, p.width, p.height);
    var projected := MatrixMul(tri.(intensity := intensity), proj);
    ProjectedW(p.m, p.width, p.height, tri.v1);
    ProjectedW(p.m, p.width, p.height, tri.v2);
    ProjectedW(p.m, p.width, p.height, tri.v3);
    var screen := ToScreenSpace(NormalizeDepth(projected), p.width as real, p.height as real);
    screen.(t1 := Texels.Div(screen.t1, projected.v1.w),
            t2 := Texels.Div(screen.t2, projected.v2.w),
            t3 := Texels.Div(screen.t3, projected.v3.w))
  }

  /** `ProjectTri` over the pieces of one triangle, in order. */
  function ProjectEach(p: Pipeline, ts: seq<Tri>, intensity: real): (r: seq<Tri>)
    requires FovDefined(p.m)
    requires forall t | t in ts :: BeyondNear(t)
    ensures |r| == |ts|
    ensures forall k | 0 <= k < |ts| :: r[k] == ProjectTri(p, ts[k], intensity)
    decreases |ts|
  {
    if |ts| == 0 then []
    else ProjectEach(p, ts[..|ts| - 1], intensity) + [ProjectTri(p, ts[|ts| - 1], intensity)]
  }

  /** The screen triangles one model triangle contributes to `trisToRaster`. */
  function PiecesOf(p: Pipeline, tri: Tri): seq<Tri>
    requires Prepared(p)
  {
    var rotated := MatrixMul(tri, p.rotation);
    var translated := MatrixMul(rotated, p.translation);
    var camView := MatrixMul(translated, p.camera);
    if SeenFrom(p.m, p.forward, camView) then
      NearClipDepth(p.m, camView);
      ProjectEach(p, Clip(p.m, NearPlane, camView), LightIntensity(p.m, p.light, rotated))
    else []
  }

  /** `trisToRaster` after the loop over the triangles `tris` of the model. */
  function MeshOutput(p: Pipeline, tris: seq<Tri>): seq<Tri>
    requires Prepared(p)
    decreases |tris|
  {
    if |tris| == 0 then []
    else MeshOutput(p, tris[..|tris| - 1]) + PiecesOf(p, tris[|tris| - 1])
  }

  lemma MeshOutputStep(p: Pipeline, tris: seq<Tri>, k: nat)
    requires Prepared(p) && k < |tris|
    ensures MeshOutput(p, tris[..k + 1]) == MeshOutput(p, tris[..k]) + PiecesOf(p, tris[k])
  {
    assert tris[..k + 1][..k] == tris[..k];
  }

  /** The triangles `renderMesh` hands to `draw` or `texturize`. */
  function ScreenTris(p: Pipeline, tris: seq<Tri>): seq<Tri>
    requires Prepared(p)
  {
    SortByDepth(ScreenClip(p.m, p.width as real, p.height as real, MeshOutput(p, tris)))
  }

  // ---------------------------------------------------------------------
  // Buffers
  // ---------------------------------------------------------------------

  /** The byte `clearImageData` stores for channel k (0 red, 1 green, 2
      blue, 3 alpha). */
  function Channel(c: RGBA, k: int): Byte {
    ToUint8Clamp(if k == 0 then c.red else if k == 1 then c.green else if k == 2 then c.blue else c.alpha)
  }

  /** The four bytes of one pixel of colour c, red first. */
  function PixelBytes(c: RGBA): (r: seq<Byte>)
    ensures |r| == 4
  {
    [Channel(c, 0), Channel(c, 1), Channel(c, 2), Channel(c, 3)]
  }

  /** n pixels all of colour c. */
  function Background(n: nat, c: RGBA): (r: seq<Byte>)
    ensures |r| == 4 * n
  {
    if n == 0 then [] else Background(n - 1, c) + PixelBytes(c)
  }

  /** Byte k of the background is channel k % 4 of the colour. */
  lemma {:induction false} BackgroundChannels(n: nat, c: RGBA)
    ensures forall k | 0 <= k < 4 * n :: Background(n, c)[k] == Channel(c, k % 4)
  {
    if n > 0 {
      BackgroundChannels(n - 1, c);
      forall k | 0 <= k < 4 * n
        ensures Background(n, c)[k] == Channel(c, k % 4)
      {
        if k >= 4 * (n - 1) {
          var j := k - 4 * (n - 1);
          assert k % 4 == j;
          assert Background(n, c)[k] == PixelBytes(c)[j];
        }
      }
    }
  }

  function Zeros(n: nat): (r: seq<real>)
    ensures |r| == n
  {
    seq(n, _ => 0.0)
  }

  /** The buffers after `clearImageData`. */
  function Cleared(width: nat, height: nat, background: RGBA): Frame {
    Frame(Background(width * height, background), Zeros(width * height))
  }

  /** `draw`'s loop: `rasterizeTriangle` for each triangle, with the mesh
      fill and texturing flags left undefined (false). */
  function FillAll(image: seq<Byte>, tris: seq<Tri>, material: Material, width: nat, sample: Sampler): (r: seq<Byte>)
    ensures |r| == |image|
    decreases |tris|
  {
    if |tris| == 0 then image
    else Rasterized(FillAll(image, tris[..|tris| - 1], material, width, sample),
                    FillJob(width, tris[|tris| - 1], material, false, sample), false)
  }

  /** The wireframe pixels of every triangle, in order. */
  function Wireframes(tris: seq<Tri>, color: RGBA): (r: seq<PixelWrite>)
    decreases |tris|
  {
    if |tris| == 0 then []
    else Wireframes(tris[..|tris| - 1], color) + WireframePixels(tris[|tris| - 1], color)
  }

  /** Without a wireframe, `draw`'s loop leaves the image as it was: the fill
      is switched off, so no triangle paints anything. */
  lemma {:induction false} FillAllWithoutWireframe(image: seq<Byte>, tris: seq<Tri>, material: Material, width: nat, sample: Sampler)
    requires !material.wireframe
    ensures FillAll(image, tris, material, width, sample) == image
    decreases |tris|
  {
    if |tris| > 0 {
      var prefix := tris[..|tris| - 1];
      FillAllWithoutWireframe(image, prefix, material, width, sample);
      WithoutMeshOnlyWireframe(FillAll(image, prefix, material, width, sample),
                               FillJob(width, tris[|tris| - 1], material, false, sample));
    }
  }

  /** With a wireframe, `draw`'s loop paints exactly the triangles' edges, in
      order, and nothing else. */
  lemma {:induction false} FillAllPaintsWireframes(image: seq<Byte>, tris: seq<Tri>, material: Material, width: nat, sample: Sampler)
    requires material.wireframe
    ensures FillAll(image, tris, material, width, sample) == Paint(image, width, Wireframes(tris, material.wireframeColor))
    decreases |tris|
  {
    if |tris| > 0 {
      var prefix := tris[..|tris| - 1];
      var last := tris[|tris| - 1];
      FillAllPaintsWireframes(image, prefix, material, width, sample);
      WithoutMeshOnlyWireframe(FillAll(image, prefix, material, width, sample),
                               FillJob(width, last, material, false, sample));
      PaintAppend(image, width, Wireframes(prefix, material.wireframeColor), WireframePixels(last, material.wireframeColor));
    }
  }

  /** `texturize`'s loop: the perspective-correct fill for each triangle. */
  function TextureAll(f: Frame, tris: seq<Tri>, color: RGBA, texture: Texture, width: nat, sample: Sampler): Frame
    decreases |tris|
  {
    if |tris| == 0 then f
    else
      var t := tris[|tris| - 1];
      Textured(TextureAll(f, tris[..|tris| - 1], color, texture, width, sample),
               Shading(width, texture, color, t.intensity, sample), t)
  }

  lemma TextureAllStep(f: Frame, tris: seq<Tri>, k: nat, color: RGBA, texture: Texture, width: nat, sample: Sampler)
    requires k < |tris|
    ensures TextureAll(f, tris[..k + 1], color, texture, width, sample)
      == Textured(TextureAll(f, tris[..k], color, texture, width, sample), Shading(width, texture, color, tris[k].intensity, sample), tris[k])
  {
    assert tris[..k + 1][..k] == tris[..k];
  }

  /** One model's triangles drawn onto `f`, flat when its material has no
      texture and textured otherwise. */
  function DrawMesh(f: Frame, p: Pipeline, material: Material, tris: seq<Tri>, sample: Sampler): Frame
    requires Prepared(p)
  {
    var sorted := ScreenTris(p, tris);
    if material.texture.None? then Frame(FillAll(f.image, sorted, material, p.width, sample), f.depth)
    else TextureAll(f, sorted, material.color, material.texture.value, p.width, sample)
  }

  /** The buffers after `renderMesh`: cleared, then the model drawn. */
  function MeshFrame(v: View, model: Model, background: RGBA, sample: Sampler): Frame
    requires Ready(v)
  {
    DrawMesh(Cleared(v.width, v.height, background), PipelineFor(v, model), model.material, model.tris, sample)
  }

  /** The buffers after `render`: `renderMesh` for each model in turn, each
      starting with a clear that overwrites whatever the one before drew. */
  function RenderedFrame(f: Frame, v: View, models: seq<Model>, background: RGBA, sample: Sampler): Frame
    requires Ready(v)
    decreases |models|
  {
    if |models| == 0 then f
    else
      var before := RenderedFrame(f, v, models[..|models| - 1], background, sample);
      MeshFrame(v, models[|models| - 1], background, sample)
  }

  lemma RenderedFrameStep(f: Frame, v: View, models: seq<Model>, i: nat, background: RGBA, sample: Sampler)
    requires Ready(v) && i < |models|
    ensures RenderedFrame(f, v, models[..i + 1], background, sample) == MeshFrame(v, models[i], background, sample)
  {
    assert models[..i + 1][i] == models[i];
  }

  lemma SceneFrameStep(v: View, models: seq<Model>, i: nat, background: RGBA, sample: Sampler)
    requires Ready(v) && i < |models|
    ensures SceneFrame(v, models[..i + 1], background, sample)
         == DrawMesh(SceneFrame(v, models[..i], background, sample), PipelineFor(v, models[i]),
                     models[i].material, models[i].tris, sample)
  {
    assert models[..i + 1][..i] == models[..i];
    assert models[..i + 1][i] == models[i];
  }

  /** The frame of a scene with the buffers cleared once per frame: every
      model drawn, in order, onto one cleared frame. */
  function SceneFrame(v: View, models: seq<Model>, background: RGBA, sample: Sampler): Frame
    requires Ready(v)
    decreases |models|
  {
    if |models| == 0 then Cleared(v.width, v.height, background)
    else
      var model := models[|models| - 1];
      DrawMesh(SceneFrame(v, models[..|models| - 1], background, sample), PipelineFor(v, model),
               model.material, model.tris, sample)
  }

  // ---------------------------------------------------------------------
  // The renderer
  // ---------------------------------------------------------------------

  class Renderer {
    /** The canvas size, `screenWidth` and `screenHeight`. */
    const width: nat
    const height: nat
    /** The `ImageData` bytes, four per pixel. */
    const imageData: array<Byte>
    const depthBuffer: array<real>
    /** Shares both buffers with the renderer. */
    const rasterizer: Rasterizer
    var backgroundColor: RGBA

    ghost predicate Valid() {
      && imageData.Length == 4 * width * height
      && depthBuffer.Length == width * height
      && rasterizer.imageData == imageData
      && rasterizer.depthBuffer == depthBuffer
    }

    /** `new Renderer(canvas)`: a transparent black image (as
        `createImageData` makes it), a depth buffer of width x height zeros,
        both shared with a new rasterizer, and an opaque black background. */
    constructor (width: nat, height: nat)
      ensures Valid()
      ensures this.width == width && this.height == height
      ensures fresh(imageData) && fresh(depthBuffer)
      ensures imageData[..] == seq(4 * width * height, _ => 0 as Byte)
      ensures depthBuffer[..] == Zeros(width * height)
      ensures backgroundColor == RGBA(0.0, 0.0, 0.0, 255.0)
    {
      this.width := width;
      this.height := height;
      var image := new Byte[4 * width * height](_ => 0 as Byte);
      var depth := new real[width * height](_ => 0.0);
      imageData := image;
      depthBuffer := depth;
      rasterizer := new Rasterizer(image, depth);
      backgroundColor := RGBA(0.0, 0.0, 0.0, 255.0);
    }

    /** `render`: `renderMesh` for each model of the scene, in order. */
    method Render(m: Libm, scene: Scene, camera: Camera, sample: Sampler)
      requires Valid() && Lawful(m) && FovDefined(m)
      modifies imageData, depthBuffer, camera
      ensures Frame(imageData[..], depthBuffer[..])
        == RenderedFrame(Frame(old(imageData[..]), old(depthBuffer[..])),
                         View(m, camera.position, camera.anglePitch, camera.angleYaw, scene.light, width, height),
                         scene.models, backgroundColor, sample)
      ensures camera.position == old(camera.position)
      ensures camera.anglePitch == old(camera.anglePitch) && camera.angleYaw == old(camera.angleYaw)
      ensures |scene.models| > 0 ==> camera.Oriented(m)
      ensures |scene.models| == 0 ==> unchanged(camera)
    {
      ghost var start := Frame(imageData[..], depthBuffer[..]);
      ghost var v := View(m, camera.position, camera.anglePitch, camera.angleYaw, scene.light, width, height);
      var models := scene.models;
      for i := 0 to |models|
        invariant camera.position == v.position
        invariant camera.anglePitch == v.pitch && camera.angleYaw == v.yaw
        invariant Frame(imageData[..], depthBuffer[..]) == RenderedFrame(start, v, models[..i], backgroundColor, sample)
        invariant i > 0 ==> camera.Oriented(m)
        invariant i == 0 ==> unchanged(camera)
      {
        RenderNext(m, models, i, scene, camera, sample, start, v);
      }
      assert models[..|models|] == models;
    }

    /** One turn of `render`'s loop: `renderMesh` for model i. */
    method RenderNext(m: Libm, models: seq<Model>, i: nat, scene: Scene, camera: Camera, sample: Sampler,
                      ghost start: Frame, ghost v: View)
      requires Valid() && Lawful(m) && FovDefined(m) && i < |models|
      requires v == View(m, camera.position, camera.anglePitch, camera.angleYaw, scene.light, width, height)
      modifies imageData, depthBuffer, camera
      ensures Frame(imageData[..], depthBuffer[..]) == RenderedFrame(start, v, models[..i + 1], backgroundColor, sample)
      ensures camera.position == old(camera.position)
      ensures camera.anglePitch == old(camera.anglePitch) && camera.angleYaw == old(camera.angleYaw)
      ensures camera.Oriented(m)
    {
      RenderMesh(m, models[i], scene, camera, sample);
      RenderedFrameStep(start, v, models, i, backgroundColor, sample);
    }

    /** `renderMesh`. */
    method RenderMesh(m: Libm, mesh: Model, scene: Scene, cam: Camera, sample: Sampler)
      requires Valid() && Lawful(m) && FovDefined(m)
      modifies imageData, depthBuffer, cam
      ensures Frame(imageData[..], depthBuffer[..])
        == MeshFrame(View(m, cam.position, cam.anglePitch, cam.angleYaw, scene.light, width, height),
                     mesh, backgroundColor, sample)
      ensures cam.position == old(cam.position)
      ensures cam.anglePitch == old(cam.anglePitch) && cam.angleYaw == old(cam.angleYaw)
      ensures cam.Oriented(m)
    {
      ghost var p := PipelineFor(View(m, cam.position, cam.anglePitch, cam.angleYaw, scene.light, width, height), mesh);
      var sorted := MeshTris(m, mesh, scene.light, cam);
      DrawSorted(sorted, mesh.material, sample, p, mesh.tris);
    }

    /** `renderMesh` up to the sort: the model's screen triangles, back to
        front. */
    method MeshTris(m: Libm, mesh: Model, light: Light, cam: Camera) returns (sorted: seq<Tri>)
      requires Lawful(m) && FovDefined(m)
      modifies cam
      ensures cam.position == old(cam.position)
      ensures cam.anglePitch == old(cam.anglePitch) && cam.angleYaw == old(cam.angleYaw)
      ensures cam.Oriented(m)
      ensures sorted == ScreenTris(PipelineFor(View(m, cam.position, cam.anglePitch, cam.angleYaw, light, width, height), mesh), mesh.tris)
    {
      ghost var p := PipelineFor(View(m, cam.position, cam.anglePitch, cam.angleYaw, light, width, height), mesh);
      var rotationMatrix, translationMatrix, cameraMatrix, projectionMatrix := PrepareMatrices(m, mesh, cam, light);
      var trisToRaster := CollectTris(m, mesh.tris, rotationMatrix, translationMatrix, cameraMatrix,
                                      projectionMatrix, cam, light, p);
      var clippedTris := ClipScreenSpace(m, trisToRaster);
      sorted := SortByDepth(clippedTris);
    }

    /** `render` with the buffers cleared once per frame rather than once
        per model: clear, then draw every model onto the same buffers. */
    method RenderFrame(m: Libm, scene: Scene, camera: Camera, sample: Sampler)
      requires Valid() && Lawful(m) && FovDefined(m)
      modifies imageData, depthBuffer, camera
      ensures Frame(imageData[..], depthBuffer[..])
        == SceneFrame(View(m, camera.position, camera.anglePitch, camera.angleYaw, scene.light, width, height),
                      scene.models, backgroundColor, sample)
      ensures camera.position == old(camera.position)
      ensures camera.anglePitch == old(camera.anglePitch) && camera.angleYaw == old(camera.angleYaw)
      ensures |scene.models| > 0 ==> camera.Oriented(m)
      ensures |scene.models| == 0 ==> unchanged(camera)
    {
      ghost var v := View(m, camera.position, camera.anglePitch, camera.angleYaw, scene.light, width, height);
      var models := scene.models;
      ClearImageData();
      for i := 0 to |models|
        invariant camera.position == v.position
        invariant camera.anglePitch == v.pitch && camera.angleYaw == v.yaw
        invariant Frame(imageData[..], depthBuffer[..]) == SceneFrame(v, models[..i], backgroundColor, sample)
        invariant i > 0 ==> camera.Oriented(m)
        invariant i == 0 ==> unchanged(camera)
      {
        DrawNext(m, models, i, scene, camera, sample, v);
      }
      assert models[..|models|] == models;
    }

    /** One turn of `RenderFrame`'s loop: model i drawn over what is there. */
    method DrawNext(m: Libm, models: seq<Model>, i: nat, scene: Scene, camera: Camera, sample: Sampler, ghost v: View)
      requires Valid() && Lawful(m) && FovDefined(m) && i < |models|
      requires v == View(m, camera.position, camera.anglePitch, camera.angleYaw, scene.light, width, height)
      requires Frame(imageData[..], depthBuffer[..]) == SceneFrame(v, models[..i], backgroundColor, sample)
      modifies imageData, depthBuffer, camera
      ensures Frame(imageData[..], depthBuffer[..]) == SceneFrame(v, models[..i + 1], backgroundColor, sample)
      ensures camera.position == old(camera.position)
      ensures camera.anglePitch == old(camera.anglePitch) && camera.angleYaw == old(camera.angleYaw)
      ensures camera.Oriented(m)
    {
      var model := models[i];
      ghost var p := PipelineFor(v, model);
      var sorted := MeshTris(m, model, scene.light, camera);
      DrawSortedOnto(sorted, model.material, sample, p, model.tris);
      SceneFrameStep(v, models, i, backgroundColor, sample);
    }

    /** Lines 49-54 of `renderMesh`: the four matrices, and the camera's
        basis rebuilt by `cameraMatrix`. */
    method PrepareMatrices(m: Libm, mesh: Model, cam: Camera, light: Light)
        returns (rotationMatrix: Mat4x4, translationMatrix: Mat4x4, cameraMatrix: Mat4x4, projectionMatrix: Mat4x4)
      requires Lawful(m) && FovDefined(m)
      modifies cam
      ensures cam.position == old(cam.position)
      ensures cam.anglePitch == old(cam.anglePitch) && cam.angleYaw == old(cam.angleYaw)
      ensures cam.Oriented(m)
      ensures Staged(PipelineFor(View(m, cam.position, cam.anglePitch, cam.angleYaw, light, width, height), mesh),
                     m, rotationMatrix, translationMatrix, cameraMatrix, projectionMatrix, cam.forward, light)
    {
      translationMatrix := Translation(mesh.translation);
      cameraMatrix := cam.CameraMatrix(m);
      projectionMatrix := Projection(m, 90.0, Aspect(width, height), 0.1, 100.0);
      var inner := Multiply(RotY(m, mesh.rotation.y), RotX(m, mesh.rotation.x));
      rotationMatrix := Multiply(RotZ(m, mesh.rotation.z), inner);
    }

    /** The end of `renderMesh`: `draw` or `texturize` of the sorted
        triangles, as the material has no texture or has one. */
    method DrawSorted(sorted: seq<Tri>, material: Material, sample: Sampler, ghost p: Pipeline, ghost tris: seq<Tri>)
      requires Valid() && Prepared(p) && p.width == width && p.height == height
      requires sorted == ScreenTris(p, tris)
      modifies imageData, depthBuffer
      ensures Frame(imageData[..], depthBuffer[..]) == DrawMesh(Cleared(width, height, backgroundColor), p, material, tris, sample)
    {
      if material.texture.None? {
        Draw(sorted, material, sample);
      } else {
        Texturize(sorted, material.color, material.texture.value, sample);
      }
    }

    /** `draw` or `texturize` of the sorted triangles without their clear:
        the model drawn over what the buffers hold. */
    method DrawSortedOnto(sorted: seq<Tri>, material: Material, sample: Sampler, ghost p: Pipeline, ghost tris: seq<Tri>)
      requires Valid() && Prepared(p) && p.width == width && p.height == height
      requires sorted == ScreenTris(p, tris)
      modifies imageData, depthBuffer
      ensures Frame(imageData[..], depthBuffer[..]) == DrawMesh(Frame(old(imageData[..]), old(depthBuffer[..])), p, material, tris, sample)
    {
      if material.texture.None? {
        FillOnto(sorted, material, sample);
      } else {
        TextureOnto(sorted, material.color, material.texture.value, sample);
      }
    }

    /** The matrices `renderMesh` builds before its loop, and the state of
        the camera after `cameraMatrix`, are those of the pipeline `p`. */
    ghost predicate Staged(p: Pipeline, m: Libm, rotationMatrix: Mat4x4, translationMatrix: Mat4x4,
                           cameraMatrix: Mat4x4, projectionMatrix: Mat4x4, forward: Vec3, light: Light)
    {
      && Prepared(p) && p.m == m && p.light == light && p.width == width && p.height == height
      && p.rotation == rotationMatrix && p.translation == translationMatrix && p.camera == cameraMatrix
      && p.forward == forward && projectionMatrix == ProjectionMatrix(m, width, height)
    }

    /** `renderMesh`'s loop over the model's triangles, building `trisToRaster`. */
    method CollectTris(m: Libm, tris: seq<Tri>, rotationMatrix: Mat4x4, translationMatrix: Mat4x4, cameraMatrix: Mat4x4,
                       projectionMatrix: Mat4x4, cam: Camera, light: Light, ghost p: Pipeline)
        returns (trisToRaster: seq<Tri>)
      requires Staged(p, m, rotationMatrix, translationMatrix, cameraMatrix, projectionMatrix, cam.forward, light)
      ensures trisToRaster == MeshOutput(p, tris)
    {
      trisToRaster := [];
      for i := 0 to |tris|
        invariant trisToRaster == MeshOutput(p, tris[..i])
      {
        trisToRaster := PushPieces(m, trisToRaster, tris, i, rotationMatrix, translationMatrix, cameraMatrix,
                                   projectionMatrix, cam, light, p);
      }
      assert tris[..|tris|] == tris;
    }

    /** One iteration of `renderMesh`'s loop: the pieces of triangle i pushed
        onto `trisToRaster`. */
    method PushPieces(m: Libm, trisToRaster: seq<Tri>, tris: seq<Tri>, i: nat, rotationMatrix: Mat4x4,
                      translationMatrix: Mat4x4, cameraMatrix: Mat4x4, projectionMatrix: Mat4x4,
                      cam: Camera, light: Light, ghost p: Pipeline)
        returns (pushed: seq<Tri>)
      requires Staged(p, m, rotationMatrix, translationMatrix, cameraMatrix, projectionMatrix, cam.forward, light)
      requires i < |tris| && trisToRaster == MeshOutput(p, tris[..i])
      ensures pushed == MeshOutput(p, tris[..i + 1])
    {
      var pieces := TriPieces(m, tris[i], rotationMatrix, translationMatrix, cameraMatrix,
                              projectionMatrix, cam, light, p);
      pushed := trisToRaster + pieces;
      MeshOutputStep(p, tris, i);
    }

    /** The body of `renderMesh`'s loop for one model triangle: what it
        pushes onto `trisToRaster`. */
    method TriPieces(m: Libm, tri: Tri, rotationMatrix: Mat4x4, translationMatrix: Mat4x4, cameraMatrix: Mat4x4,
                     projectionMatrix: Mat4x4, cam: Camera, light: Light, ghost p: Pipeline)
        returns (pieces: seq<Tri>)
      requires Staged(p, m, rotationMatrix, translationMatrix, cameraMatrix, projectionMatrix, cam.forward, light)
      ensures pieces == PiecesOf(p, tri)
    {
      var rotatedTri := MatrixMul(tri, rotationMatrix);
      var translatedTri := MatrixMul(rotatedTri, translationMatrix);
      var camViewTri := MatrixMul(translatedTri, cameraMatrix);
      pieces := [];
      if LengthSquared(EdgeCross(camViewTri)) > 0.0 {
        LengthPositive(m, EdgeCross(camViewTri));
        if cam.IsVisibleTri(m, camViewTri) {
          var clipedTris := ClipAgainstPlane(m, NearPlane, camViewTri);
          NearClipDepth(m, camViewTri);
          var intensity := LightIntensity(m, light, rotatedTri);
          for j := 0 to |clipedTris|
            invariant pieces == ProjectEach(p, clipedTris[..j], intensity)
          {
            assert clipedTris[..j + 1][..j] == clipedTris[..j];
            var screenTri := ScreenPiece(m, clipedTris[j], intensity, projectionMatrix, p);
            pieces := pieces + [screenTri];
          }
          assert clipedTris[..|clipedTris|] == clipedTris;
        }
      }
    }

    /** Lines 72-88 of `renderMesh` for one piece `ct` of the near clip. */
    method ScreenPiece(m: Libm, ct: Tri, intensity: real, projectionMatrix: Mat4x4, ghost p: Pipeline)
        returns (screenTri: Tri)
      requires FovDefined(m) && p.m == m && p.width == width && p.height == height
      requires projectionMatrix == ProjectionMatrix(m, width, height)
      requires BeyondNear(ct)
      ensures screenTri == ProjectTri(p, ct, intensity)
    {
      var lit := ct.(intensity := intensity);
      var projectedTri := MatrixMul(lit, projectionMatrix);
      ProjectedW(m, width, height, ct.v1);
      ProjectedW(m, width, height, ct.v2);
      ProjectedW(m, width, height, ct.v3);
      var normalizedDepthTri := NormalizeDepth(projectedTri);
      screenTri := ToScreenSpace(normalizedDepthTri, width as real, height as real);
      screenTri := screenTri.(t1 := Texels.Div(screenTri.t1, projectedTri.v1.w));
      screenTri := screenTri.(t2 := Texels.Div(screenTri.t2, projectedTri.v2.w));
      screenTri := screenTri.(t3 := Texels.Div(screenTri.t3, projectedTri.v3.w));
    }

    /** `clipScreenSpace`: for each triangle, a worklist that starts as the
        triangle alone; for each screen plane, the first `newTris` entries
        are shifted off and their clipped pieces pushed at the back. */
    method ClipScreenSpace(m: Libm, trisToRaster: seq<Tri>) returns (res: seq<Tri>)
      requires Lawful(m)
      ensures res == ScreenClip(m, width as real, height as real, trisToRaster)
    {
      ghost var planes := ScreenPlanes(width as real, height as real);
      res := [];
      for n := 0 to |trisToRaster|
        invariant res == ClipSeparately(m, planes, trisToRaster[..n])
      {
        var triList := ClipToScreen(m, trisToRaster[n]);
        res := res + triList;
        assert trisToRaster[..n + 1][..n] == trisToRaster[..n];
      }
      assert trisToRaster[..|trisToRaster|] == trisToRaster;
    }

    /** The worklist of `clipScreenSpace` for one triangle: one pass per
        screen plane, each over the `newTris` entries the previous pass left. */
    method ClipToScreen(m: Libm, tri: Tri) returns (triList: seq<Tri>)
      requires Lawful(m)
      ensures triList == ClipThrough(m, ScreenPlanes(width as real, height as real), [tri])
    {
      var planes := ScreenPlanes(width as real, height as real);
      var newTris := 1;
      triList := [tri];
      for p := 0 to 4
        invariant newTris == |triList|
        invariant triList == ClipThrough(m, planes[..p], [tri])
      {
        triList := ClipPass(m, planes[p], triList, newTris);
        assert planes[..p + 1][..p] == planes[..p];
        newTris := |triList|;
      }
      assert planes[..4] == planes;
    }

    /** One pass of the `while (newTris > 0)` loop: the first `newTris`
        entries are shifted off the front and their pieces pushed at the back. */
    method ClipPass(m: Libm, plane: Plane, list: seq<Tri>, count: int) returns (triList: seq<Tri>)
      requires Lawful(m)
      requires count == |list|
      ensures triList == ClipEach(m, plane, list)
    {
      triList := list;
      var newTris := count;
      ghost var k := 0;
      var trisToAdd: seq<Tri> := [];
      while newTris > 0
        invariant 0 <= k <= |list| && newTris == |list| - k
        invariant triList == list[k..] + ClipEach(m, plane, list[..k])
        decreases newTris
      {
        if |triList| == 0 {
          // `shift` of an empty list: the "cant clip undefined triangle"
          // error.  newTris <= |triList| rules it out.
          assert false;
        }
        WorklistStep(m, plane, list, k, triList);
        var triToClip := triList[0];
        triList := triList[1..];
        newTris := newTris - 1;
        trisToAdd := ClipAgainstPlane(m, plane, triToClip);
        triList := triList + trisToAdd;
        k := k + 1;
      }
      assert list[..k] == list;
    }

    /** `clearImageData`: every pixel set to the background colour, four
        bytes at a time, then the depth buffer cleared. */
    method ClearImageData()
      requires Valid()
      modifies imageData, depthBuffer
      ensures Frame(imageData[..], depthBuffer[..]) == Cleared(width, height, backgroundColor)
    {
      // `imageData.width * imageData.height * 4`
      var dataSize := imageData.Length;
      ghost var pixels := width * height;
      assert dataSize == 4 * pixels;
      var i := 0;
      ghost var p := 0;
      while i < dataSize
        invariant 0 <= p <= pixels && i == 4 * p
        invariant imageData[..i] == Background(p, backgroundColor)
        decreases dataSize - i
      {
        PaintBackground(i, p);
        i := i + 4;
        p := p + 1;
      }
      ClearDepthBuffer();
      assert imageData[..] == imageData[..dataSize];
    }

    /** One turn of `clearImageData`'s loop: the four bytes of pixel p, at
        byte offset i, set to the background colour. */
    method PaintBackground(i: int, ghost p: nat)
      requires i == 4 * p && i + 4 <= imageData.Length
      requires imageData[..i] == Background(p, backgroundColor)
      modifies imageData
      ensures imageData[..i + 4] == Background(p + 1, backgroundColor)
    {
      imageData[i] := ToUint8Clamp(backgroundColor.red);
      imageData[i + 1] := ToUint8Clamp(backgroundColor.green);
      imageData[i + 2] := ToUint8Clamp(backgroundColor.blue);
      imageData[i + 3] := ToUint8Clamp(backgroundColor.alpha);
      assert imageData[..i + 4] == imageData[..i] + imageData[i..i + 4];
      assert imageData[i..i + 4] == PixelBytes(backgroundColor);
    }

    /** `clearDepthBuffer`: `fill(0)`. */
    method ClearDepthBuffer()
      modifies depthBuffer
      ensures depthBuffer[..] == Zeros(depthBuffer.Length)
    {
      forall k | 0 <= k < depthBuffer.Length {
        depthBuffer[k] := 0.0;
      }
    }

    /** `texturize`: clear, then the perspective-correct fill of each
        triangle in order (the closing `swapBuffer` is a Canvas call). */
    method Texturize(trisToRaster: seq<Tri>, color: RGBA, texture: Texture, sample: Sampler)
      requires Valid()
      modifies imageData, depthBuffer
      ensures Frame(imageData[..], depthBuffer[..])
        == TextureAll(Cleared(width, height, backgroundColor), trisToRaster, color, texture, width, sample)
    {
      ClearImageData();
      TextureOnto(trisToRaster, color, texture, sample);
    }

    /** The loop of `texturize`: the perspective-correct fill of each
        triangle in order, over what the buffers hold. */
    method TextureOnto(trisToRaster: seq<Tri>, color: RGBA, texture: Texture, sample: Sampler)
      requires Valid()
      modifies imageData, depthBuffer
      ensures Frame(imageData[..], depthBuffer[..])
        == TextureAll(Frame(old(imageData[..]), old(depthBuffer[..])), trisToRaster, color, texture, width, sample)
    {
      ghost var start := Frame(imageData[..], depthBuffer[..]);
      for i := 0 to |trisToRaster|
        invariant Frame(imageData[..], depthBuffer[..]) == TextureAll(start, trisToRaster[..i], color, texture, width, sample)
      {
        TextureAllStep(start, trisToRaster, i, color, texture, width, sample);
        rasterizer.TextureTrianglePerspectiveCorrect(width, trisToRaster[i], texture, color, sample);
      }
      assert trisToRaster[..|trisToRaster|] == trisToRaster;
    }

    /** `draw`: `clearScreen` (a clear, then a Canvas `swapBuffer`), then
        `fillTriangle` for each triangle in order. */
    method Draw(trisToRaster: seq<Tri>, material: Material, sample: Sampler)
      requires Valid()
      modifies imageData, depthBuffer
      ensures var c := Cleared(width, height, backgroundColor);
        Frame(imageData[..], depthBuffer[..]) == Frame(FillAll(c.image, trisToRaster, material, width, sample), c.depth)
    {
      ClearImageData();
      FillOnto(trisToRaster, material, sample);
    }

    /** The loop of `draw`: `fillTriangle` for each triangle in order, over
        what the image holds; the depth buffer is not touched. */
    method FillOnto(trisToRaster: seq<Tri>, material: Material, sample: Sampler)
      requires Valid()
      modifies imageData
      ensures imageData[..] == FillAll(old(imageData[..]), trisToRaster, material, width, sample)
    {
      ghost var start := imageData[..];
      for i := 0 to |trisToRaster|
        invariant imageData[..] == FillAll(start, trisToRaster[..i], material, width, sample)
      {
        rasterizer.RasterizeTriangle(width, trisToRaster[i], material, false, false, sample);
        assert trisToRaster[..i + 1][..i] == trisToRaster[..i];
      }
      assert trisToRaster[..|trisToRaster|] == trisToRaster;
    }
  }

  // ---------------------------------------------------------------------
  // Properties
  // ---------------------------------------------------------------------

  /** The projection copies a vertex's z into w, whatever its w. */
  lemma ProjectedW(m: Libm, width: nat, height: nat, p: Vec3)
    requires FovDefined(m)
    ensures VecMatrixMul(p, ProjectionMatrix(m, width, height)).w == p.z
  {
    var a := ProjectionMatrix(m, width, height);
    assert Get(a, 0, 3) == 0.0 && Get(a, 1, 3) == 0.0 && Get(a, 2, 3) == 1.0 && Get(a, 3, 3) == 0.0;
  }

  /** Every vertex that survives the near clip has z >= 0.001. */
  lemma NearClipDepth(m: Libm, tri: Tri)
    requires Lawful(m)
    ensures forall r | r in Clip(m, NearPlane, tri) :: BeyondNear(r)
  {
    ClipOutputInside(m, NearPlane, tri);
    forall r | r in Clip(m, NearPlane, tri)
      ensures BeyondNear(r)
    {
      NearSide(r.v1);
      NearSide(r.v2);
      NearSide(r.v3);
    }
  }

  lemma NearSide(p: Vec3)
    requires IsInside(NearPlane, p)
    ensures p.z >= 0.001
  {
    assert DistFromPlane(NearPlane, p) == 0.001 * p.z - 0.001 * 0.001;
  }
  // ---- screen-edge clipping ----

  /** A pass over a list keeps its order: the pieces of a concatenation are
      the pieces of each part, one after the other. */
  lemma {:induction false} ClipEachAppend(m: Libm, plane: Plane, a: seq<Tri>, b: seq<Tri>)
    requires Lawful(m)
    ensures ClipEach(m, plane, a + b) == ClipEach(m, plane, a) + ClipEach(m, plane, b)
    decreases |b|
  {
    if |b| == 0 {
      assert a + b == a;
    } else {
      var b' := b[..|b| - 1];
      assert (a + b)[..|a + b| - 1] == a + b';
      assert (a + b)[|a + b| - 1] == b[|b| - 1];
      ClipEachAppend(m, plane, a, b');
    }
  }

  /** Each triangle becomes at most two. */
  lemma {:induction false} ClipEachCount(m: Libm, plane: Plane, ts: seq<Tri>)
    requires Lawful(m)
    ensures |ClipEach(m, plane, ts)| <= 2 * |ts|
    decreases |ts|
  {
    if |ts| > 0 {
      ClipEachCount(m, plane, ts[..|ts| - 1]);
      ClipCount(m, plane, ts[|ts| - 1]);
    }
  }

  /** Every piece of a pass is inside the pass's plane, and inside every plane
      all of the pass's input was inside. */
  lemma {:induction false} ClipEachInside(m: Libm, plane: Plane, other: Plane, ts: seq<Tri>)
    requires Lawful(m)
    ensures forall r | r in ClipEach(m, plane, ts) :: AllInside(plane, r)
    ensures (forall t | t in ts :: AllInside(other, t)) ==>
      forall r | r in ClipEach(m, plane, ts) :: AllInside(other, r)
    decreases |ts|
  {
    if |ts| > 0 {
      var last := ts[|ts| - 1];
      ClipEachInside(m, plane, other, ts[..|ts| - 1]);
      ClipOutputInside(m, plane, last);
      if forall t | t in ts :: AllInside(other, t) {
        assert forall t | t in ts[..|ts| - 1] :: t in ts;
        ClipStaysInside(m, plane, other, last);
      }
    }
  }

  /** Every piece of a pass carries the intensity of one of its inputs. */
  lemma {:induction false} ClipEachKeepsIntensity(m: Libm, plane: Plane, ts: seq<Tri>)
    requires Lawful(m)
    ensures forall r | r in ClipEach(m, plane, ts) :: r.intensity in IntensitiesOf(ts)
    decreases |ts|
  {
    if |ts| > 0 {
      var last := ts[|ts| - 1];
      ClipEachKeepsIntensity(m, plane, ts[..|ts| - 1]);
      ClipKeepsIntensity(m, plane, last);
      assert forall t | t in ts[..|ts| - 1] :: t in ts;
      assert last in ts;
    }
  }

  /** The light intensities of a list of triangles. */
  function IntensitiesOf(ts: seq<Tri>): set<real> {
    set t | t in ts :: t.intensity
  }

  /** 2 to the power n. */
  function Pow2(n: nat): nat {
    if n == 0 then 1 else 2 * Pow2(n - 1)
  }

  /** After the passes for `planes`, every piece is inside all of them. */
  lemma {:induction false} ClipThroughInside(m: Libm, planes: seq<Plane>, ts: seq<Tri>)
    requires Lawful(m)
    ensures forall r, i | r in ClipThrough(m, planes, ts) && 0 <= i < |planes| :: AllInside(planes[i], r)
    decreases |planes|
  {
    if |planes| > 0 {
      var prefix := planes[..|planes| - 1];
      var last := planes[|planes| - 1];
      var before := ClipThrough(m, prefix, ts);
      ClipThroughInside(m, prefix, ts);
      forall i | 0 <= i < |planes|
        ensures forall r | r in ClipEach(m, last, before) :: AllInside(planes[i], r)
      {
        ClipEachInside(m, last, planes[i], before);
        if i < |planes| - 1 {
          assert planes[i] == prefix[i];
        }
      }
    }
  }

  /** The passes for `planes` give at most 2^|planes| pieces per input
      triangle. */
  lemma {:induction false} ClipThroughCount(m: Libm, planes: seq<Plane>, ts: seq<Tri>)
    requires Lawful(m)
    ensures |ClipThrough(m, planes, ts)| <= Pow2(|planes|) * |ts|
    decreases |planes|
  {
    if |planes| > 0 {
      var prefix := planes[..|planes| - 1];
      ClipThroughCount(m, prefix, ts);
      ClipEachCount(m, planes[|planes| - 1], ClipThrough(m, prefix, ts));
      DoubledBound(|ClipThrough(m, planes, ts)|, |ClipThrough(m, prefix, ts)|, Pow2(|prefix|), |ts|);
    }
  }

  /** Every piece after the passes carries the intensity of an input triangle. */
  lemma {:induction false} ClipThroughKeepsIntensity(m: Libm, planes: seq<Plane>, ts: seq<Tri>)
    requires Lawful(m)
    ensures forall r | r in ClipThrough(m, planes, ts) :: r.intensity in IntensitiesOf(ts)
    decreases |planes|
  {
    if |planes| > 0 {
      var prefix := planes[..|planes| - 1];
      ClipThroughKeepsIntensity(m, prefix, ts);
      ClipEachKeepsIntensity(m, planes[|planes| - 1], ClipThrough(m, prefix, ts));
    }
  }

  /** Clipping the triangles separately keeps the input order: the result for
      a concatenation is the results for its parts, one after the other. */
  lemma {:induction false} ClipSeparatelyAppend(m: Libm, planes: seq<Plane>, a: seq<Tri>, b: seq<Tri>)
    requires Lawful(m)
    ensures ClipSeparately(m, planes, a + b) == ClipSeparately(m, planes, a) + ClipSeparately(m, planes, b)
    decreases |b|
  {
    if |b| == 0 {
      assert a + b == a;
    } else {
      var b' := b[..|b| - 1];
      var last := ClipThrough(m, planes, [b[|b| - 1]]);
      assert (a + b)[..|a + b| - 1] == a + b';
      assert (a + b)[|a + b| - 1] == b[|b| - 1];
      calc {
        ClipSeparately(m, planes, a + b);
        ClipSeparately(m, planes, a + b') + last;
        { ClipSeparatelyAppend(m, planes, a, b'); }
        (ClipSeparately(m, planes, a) + ClipSeparately(m, planes, b')) + last;
        ClipSeparately(m, planes, a) + (ClipSeparately(m, planes, b') + last);
        ClipSeparately(m, planes, a) + ClipSeparately(m, planes, b);
      }
    }
  }

  /** Clipping the triangles separately: every piece is inside all the
      planes and carries the intensity of an input triangle, and each input
      triangle gives at most 2^|planes| pieces. */
  lemma {:induction false} ClipSeparatelyProperties(m: Libm, planes: seq<Plane>, ts: seq<Tri>)
    requires Lawful(m)
    ensures forall r, i | r in ClipSeparately(m, planes, ts) && 0 <= i < |planes| :: AllInside(planes[i], r)
    ensures forall r | r in ClipSeparately(m, planes, ts) :: r.intensity in IntensitiesOf(ts)
    ensures |ClipSeparately(m, planes, ts)| <= Pow2(|planes|) * |ts|
    decreases |ts|
  {
    if |ts| > 0 {
      var last := ts[|ts| - 1];
      ClipSeparatelyProperties(m, planes, ts[..|ts| - 1]);
      ClipThroughInside(m, planes, [last]);
      ClipThroughCount(m, planes, [last]);
      ClipThroughKeepsIntensity(m, planes, [last]);
      SumBound(|ClipSeparately(m, planes, ts[..|ts| - 1])|, |ClipThrough(m, planes, [last])|, Pow2(|planes|), |ts| - 1);
      assert forall t | t in ts[..|ts| - 1] :: t in ts;
      assert IntensitiesOf([last]) == {last.intensity};
      assert last in ts;
    }
  }

  lemma DoubledBound(x: nat, y: nat, k: nat, n: nat)
    requires x <= 2 * y && y <= k * n
    ensures x <= (2 * k) * n
  {
    assert (2 * k) * n == 2 * (k * n);
  }

  lemma SumBound(x: nat, y: nat, k: nat, n: nat)
    requires x <= k * n && y <= k * 1
    ensures x + y <= k * (n + 1)
  {
    assert k * (n + 1) == k * n + k;
  }

  /** Inside all four screen planes is inside the screen rectangle. */
  lemma ScreenPlanesBound(t: Tri, width: real, height: real)
    requires forall i | 0 <= i < 4 :: AllInside(ScreenPlanes(width, height)[i], t)
    ensures OnScreen(t, width, height)
  {
    var planes := ScreenPlanes(width, height);
    assert AllInside(planes[0], t) && AllInside(planes[1], t) && AllInside(planes[2], t) && AllInside(planes[3], t);
  }

  /** Every triangle `clipScreenSpace` returns lies inside the screen
      rectangle and carries the intensity of an input triangle, and each
      input triangle gives at most 16. */
  lemma ScreenClipProperties(m: Libm, width: real, height: real, ts: seq<Tri>)
    requires Lawful(m)
    ensures forall r | r in ScreenClip(m, width, height, ts) :: OnScreen(r, width, height)
    ensures forall r | r in ScreenClip(m, width, height, ts) :: r.intensity in IntensitiesOf(ts)
    ensures |ScreenClip(m, width, height, ts)| <= 16 * |ts|
  {
    var planes := ScreenPlanes(width, height);
    ClipSeparatelyProperties(m, planes, ts);
    assert Pow2(|planes|) == 16;
    forall r | r in ClipSeparately(m, planes, ts)
      ensures OnScreen(r, width, height)
    {
      ScreenPlanesBound(r, width, height);
    }
  }

  // ---- the geometry pipeline ----

  /** Every piece of one model triangle carries the light intensity of the
      rotated, unclipped triangle, and there are at most two pieces. */
  lemma PiecesShareIntensity(p: Pipeline, tri: Tri)
    requires Prepared(p)
    ensures |PiecesOf(p, tri)| <= 2
    ensures forall r | r in PiecesOf(p, tri) :: r.intensity == LightIntensity(p.m, p.light, MatrixMul(tri, p.rotation))
  {
    var rotated := MatrixMul(tri, p.rotation);
    var camView := MatrixMul(MatrixMul(rotated, p.translation), p.camera);
    ClipCount(p.m, NearPlane, camView);
  }

  /** The pieces of a triangle list are the pieces of each triangle, in
      order: `trisToRaster` keeps the model's triangle order. */
  lemma {:induction false} MeshOutputAppend(p: Pipeline, a: seq<Tri>, b: seq<Tri>)
    requires Prepared(p)
    ensures MeshOutput(p, a + b) == MeshOutput(p, a) + MeshOutput(p, b)
    decreases |b|
  {
    if |b| == 0 {
      assert a + b == a;
    } else {
      var b', x := b[..|b| - 1], b[|b| - 1];
      calc {
        MeshOutput(p, a + b);
        { assert (a + b)[..|a + b| - 1] == a + b' && (a + b)[|a + b| - 1] == x; }
        MeshOutput(p, a + b') + PiecesOf(p, x);
        { MeshOutputAppend(p, a, b'); }
        MeshOutput(p, a) + MeshOutput(p, b') + PiecesOf(p, x);
        MeshOutput(p, a) + MeshOutput(p, b);
      }
    }
  }

  /** Every triangle of `trisToRaster` has an intensity in [0, 1], and each
      model triangle contributes at most two. */
  lemma {:induction false} MeshOutputIntensity(p: Pipeline, tris: seq<Tri>)
    requires Prepared(p)
    ensures forall r | r in MeshOutput(p, tris) :: 0.0 <= r.intensity <= 1.0
    ensures |MeshOutput(p, tris)| <= 2 * |tris|
    decreases |tris|
  {
    if |tris| > 0 {
      var last := tris[|tris| - 1];
      MeshOutputIntensity(p, tris[..|tris| - 1]);
      PiecesShareIntensity(p, last);
    }
  }

  /** What `renderMesh` hands to `draw` or `texturize`: sorted back to front,
      inside the screen rectangle, each with an intensity in [0, 1]. */
  lemma ScreenTrisProperties(p: Pipeline, tris: seq<Tri>)
    requires Prepared(p)
    ensures BackToFront(ScreenTris(p, tris))
    ensures forall r | r in ScreenTris(p, tris) :: OnScreen(r, p.width as real, p.height as real)
    ensures forall r | r in ScreenTris(p, tris) :: 0.0 <= r.intensity <= 1.0
    ensures |ScreenTris(p, tris)| <= 32 * |tris|
  {
    var out := MeshOutput(p, tris);
    var clipped := ScreenClip(p.m, p.width as real, p.height as real, out);
    MeshOutputIntensity(p, tris);
    ScreenClipProperties(p.m, p.width as real, p.height as real, out);
    var sorted := SortByDepth(clipped);
    assert |sorted| == |multiset(sorted)| == |multiset(clipped)| == |clipped|;
    forall r | r in sorted
      ensures r in clipped
    {
      assert r in multiset(sorted);
    }
  }

  // ---- drawing ----

  /** A model without triangles draws nothing. */
  lemma EmptyModelDrawsNothing(f: Frame, p: Pipeline, material: Material, sample: Sampler)
    requires Prepared(p)
    ensures DrawMesh(f, p, material, [], sample) == f
  {
    assert MeshOutput(p, []) == [];
    assert ScreenClip(p.m, p.width as real, p.height as real, []) == [];
  }

  /** The textured fill of a list of triangles only ever raises depth values. */
  lemma {:induction false} TextureAllNoCloser(f: Frame, tris: seq<Tri>, color: RGBA, texture: Texture, width: nat, sample: Sampler)
    ensures NoCloser(f.depth, TextureAll(f, tris, color, texture, width, sample).depth)
    decreases |tris|
  {
    if |tris| > 0 {
      var t := tris[|tris| - 1];
      var before := TextureAll(f, tris[..|tris| - 1], color, texture, width, sample);
      TextureAllNoCloser(f, tris[..|tris| - 1], color, texture, width, sample);
      TexturedDepthNeverDecreases(before, Shading(width, texture, color, t.intensity, sample), t);
      NoCloserTransitive(f.depth, before.depth, TextureAll(f, tris, color, texture, width, sample).depth);
    }
  }

  /** Drawing a model never brings a depth value closer: the flat fill leaves
      the depth buffer alone and the textured fill only raises it. */
  lemma DrawMeshNoCloser(f: Frame, p: Pipeline, material: Material, tris: seq<Tri>, sample: Sampler)
    requires Prepared(p)
    ensures NoCloser(f.depth, DrawMesh(f, p, material, tris, sample).depth)
  {
    if material.texture.Some? {
      TextureAllNoCloser(f, ScreenTris(p, tris), material.color, material.texture.value, p.width, sample);
    }
  }

  // ---- one clear per frame ----

  /** As written, a model with no triangles at the end of the scene leaves a
      blank frame: each `renderMesh` clears both buffers, so whatever the
      models before it drew is lost. */
  lemma RenderedFrameErasesEarlierModels(f: Frame, v: View, models: seq<Model>, empty: Model, background: RGBA, sample: Sampler)
    requires Ready(v) && empty.tris == []
    ensures RenderedFrame(f, v, models + [empty], background, sample) == Cleared(v.width, v.height, background)
  {
    var all := models + [empty];
    assert all[|all| - 1] == empty;
    EmptyModelDrawsNothing(Cleared(v.width, v.height, background), PipelineFor(v, empty), empty.material, sample);
  }

  /** With one clear per frame, a model with no triangles changes nothing. */
  lemma SceneFrameIgnoresEmptyModel(v: View, models: seq<Model>, empty: Model, background: RGBA, sample: Sampler)
    requires Ready(v) && empty.tris == []
    ensures SceneFrame(v, models + [empty], background, sample) == SceneFrame(v, models, background, sample)
  {
    var all := models + [empty];
    assert all[..|all| - 1] == models;
    assert all[|all| - 1] == empty;
    EmptyModelDrawsNothing(SceneFrame(v, models, background, sample), PipelineFor(v, empty), empty.material, sample);
  }

  /** With one clear per frame, the depth buffer only rises from model to
      model: what an earlier model drew stays in front of whatever a later
      model would draw behind it. */
  lemma {:induction false} SceneFrameDepthRises(v: View, models: seq<Model>, k: nat, background: RGBA, sample: Sampler)
    requires Ready(v) && k <= |models|
    ensures NoCloser(SceneFrame(v, models[..k], background, sample).depth, SceneFrame(v, models, background, sample).depth)
    decreases |models|
  {
    if k == |models| {
      assert models[..k] == models;
    } else {
      var prefix := models[..|models| - 1];
      var last := models[|models| - 1];
      assert prefix[..k] == models[..k];
      SceneFrameDepthRises(v, prefix, k, background, sample);
      var before := SceneFrame(v, prefix, background, sample);
      DrawMeshNoCloser(before, PipelineFor(v, last), last.material, last.tris, sample);
      NoCloserTransitive(SceneFrame(v, models[..k], background, sample).depth, before.depth,
                         SceneFrame(v, models, background, sample).depth);
    }
  }
}
