# A verified model of a CPU software renderer

This project models, in Dafny, the core of a small TypeScript 3D engine that
renders triangle meshes on the CPU. The engine works in several stages:

- It transforms every triangle of every model: rotation, translation and the
  camera's view matrix.
- It drops back-facing triangles.
- It clips the rest against a near plane.
- It lights them with a directional light.
- It projects them, divides by depth and maps them to screen pixels.
- It clips the screen triangles against the four screen edges.
- It sorts them back to front.
- It draws them into a shared RGBA byte image and a depth buffer. Drawing uses
  either a barycentric flat fill with an optional wireframe, or a scanline
  perspective-correct textured fill.

The modules follow the engine's source files:

| module | file | what it holds |
|---|---|---|
| `Numerics` | (shared) | `real` numbers; the host maths library as a parameter; `Math.floor`/`round`, JavaScript `%`, and the `Uint8ClampedArray` byte store, all defined exactly |
| `Vectors` | `vec3.ts` | homogeneous vectors |
| `Matrices` | `mat4x4.ts` | 4x4 matrices, `multiply` and `isEqual` as loops |
| `Texels` | `texel.ts` | texture coordinates |
| `Triangles` | `tri.ts` | triangle transforms |
| `Planes` | `plane.ts` | signed distance and intersection |
| `Clipping` | `triangle-clipper.ts` | classification and the four clipping cases |
| `Lighting` | `light.ts` | the light intensity |
| `Scenes` | `scene.ts` | a class; its model list grows in place |
| `Cameras` | `camera.ts` | a class; the angles accumulate and the basis is rebuilt |
| `Colors` | `rgb.ts`, `rgba.ts`, `material.ts` | plain records |
| `Models` | `model.ts` | the model record and the texel fix-up of face assembly |
| `Loader` | `model-loader.ts` | the other loader's fix-up |
| `Meshes` | `mesh.ts` | the older model record |
| `Geometry` | `geometry.ts` | the unit cube |
| `Raster` | `triangle-rasterizer.ts` | a class over the shared arrays |
| `Rendering` | `web-renderer.ts` | a class over the same arrays |

Every value type is a `datatype`. Every object whose fields change in place
(camera, scene, rasterizer, renderer) is a `class`. The byte image and the
depth buffer are `array`s shared by the renderer and its rasterizer. Each
loop of the engine is a `method` with a `while` loop. Its invariants tie the
arrays to a specification function, for example `Textured`, `FillBox`,
`Paint`, `ScreenClip`, `SortByDepth` or `RenderedFrame`. Lemmas then state
the properties of those functions:

- the case counts of the clipper;
- points landing on the clipping plane;
- a depth buffer that only rises;
- "nothing else changes" for pixel writes;
- the worklist invariant of the screen clip;
- the back-to-front order of the sort.

Where the code calls a method or reads a property that its own classes do
not define, the TypeScript as written throws a `TypeError` or reads
`undefined`. The model cannot follow the code there; it chooses a reading,
and each bullet below says what the code does as written and which reading
the model takes:

- `Plane.getNormalizedIntersectionDistance` (`triangle-clipper.ts:56`, 60,
  77, 85) is not defined in `plane.ts`. As written, the first clip that cuts a
  triangle throws. The model reads it as the parameter `t` that
  `linePlaneIntersect` computes (`Planes.IntersectionT`).
- `TriangleRasterizer` defines neither `textureTriangle` nor `fillTriangle`;
  its methods are at `triangle-rasterizer.ts:17`, 68, 122, 131, 144 and 154.
  As written, `texturize` (`web-renderer.ts:152`) and `draw`
  (`web-renderer.ts:160`) throw at their first triangle. The model binds the
  two calls to `textureTrianglePerspectiveCorrect` and `rasterizeTriangle`.
  - Under that binding `fillTriangle` receives three arguments, so
    `drawMeshEnabled` and `textureMappingEnabled` are `undefined`, which is
    false. The image buffer of a flat-shaded model then holds only its
    wireframe, and only when its material asks for one
    (`Rendering.FillAllWithoutWireframe`, `Rendering.FillAllPaintsWireframes`).
    `Rendering.FillAll` passes `false` for both.
- `light.isEnabled` (`web-renderer.ts:72`) is not defined in `light.ts`. As
  written it reads `undefined`, so every intensity is 1. The model gives the
  light an `isEnabled` field (`Lighting.Light.isEnabled`); a light with
  `isEnabled == false` is exactly the code as written.
- `vec3.ts` defines no `copy` method, yet `Vec3.copy()` is called by
  `classifyPoints` (`triangle-clipper.ts:111`), by `handleTwoInsidePoints`
  (`triangle-clipper.ts:87`) and by `Tri.copy` (`tri.ts:64-66`). As written,
  each of these calls throws a `TypeError`, so every `clipAgainstPlane` call
  and every `Tri.copy` would fail, including the near clip of each visible
  triangle. The model reads `Vec3.copy` as a field-wise clone, as `Texel.copy`
  (`texel.ts:13`) is; vectors are values, so the clone is the vector itself.
- `geometry.ts` builds the cube's texels as `Vec2` values, and `Vec2`
  (`vec2.ts`) has no `copy`, `u` or `v`. As written, `Tri.matrixMul`
  (`tri.ts:36`) throws on any cube triangle, and the rasterizer
  (`triangle-rasterizer.ts:97`, 163) would read `undefined`. The model reads a
  `Vec2` as the texel u = x, v = y, w = 1 (`Texels.FromVec2`).
- `scene.ts` types its list with `mesh.ts`'s `Model`, while `web-renderer.ts`
  reads `model.ts`'s `Model` (its `material`). The scene holds
  `Models.Model`, the type the renderer uses.

Where the tests disagree with the code, the model follows the code: some
tests target methods that no longer exist, or expect a projection layout
other than the one `mat4x4.ts` builds. The tests are cited only where they
agree with the code.

## Model

| member | source | states |
|---|---|---|
| Numerics.Floor | src/triangle-rasterizer.ts:260 | `Math.floor`: the greatest integer not above x |
| Numerics.Round | src/triangle-rasterizer.ts:144-146 | `Math.round`: the nearest integer, halves rounded upwards |
| Numerics.Trunc | src/model.ts:78-84 | truncation toward zero, as JavaScript's `%` uses it: never crosses zero and stays within 1 of x |
| Numerics.RemOneIsFraction | src/model.ts:80-81 | for x >= 0, JavaScript's `x % 1` is x - floor x, in [0, 1) |
| Numerics.AccumulateIsLinear | src/triangle-rasterizer.ts:136-140 | n executions of `+= step` add exactly n * step (the running variables of the line and span loops) |
| Numerics.ToUint8Clamp | src/triangle-rasterizer.ts:148-151 | clamps to 0 at or below 0 and to 255 at or above 255; in between, the nearest integer, and the even one at a tie (ECMAScript ToUint8Clamp) |
| Vectors.Point | src/vec3.ts:9-14 | the constructor with `w` omitted gives `w = 1` |
| Vectors.FromArray | src/vec3.ts:16-21 | fails exactly when the array does not have three entries; otherwise the vector (a0, a1, a2, 1) |
| Vectors.Add | src/vec3.ts:31-33 | the result has `w = 1` whatever the operands' `w` |
| Vectors.Sub | src/vec3.ts:35-37 | the result has `w = 1` whatever the operands' `w` |
| Vectors.Mul | src/vec3.ts:39-41 | the result has `w = 1` |
| Vectors.Div | src/vec3.ts:43-45 | the result has `w = 1` (for a non-zero divisor) |
| Vectors.Cross | src/vec3.ts:60-65 | the result has `w = 1` |
| Vectors.GetOppositeVector | src/vec3.ts:67-69 | the result has `w = 1` |
| Vectors.AddSubRoundTrip | src/vec3.ts:31-37 | subtracting b undoes adding b and adding b undoes subtracting it, in x, y, z |
| Vectors.MulDivRoundTrip | src/vec3.ts:39-45 | dividing by k undoes multiplying by k (k non-zero), in x, y, z |
| Vectors.DivMulRoundTrip | src/vec3.ts:39-45 | multiplying by k undoes dividing by k (k non-zero), in x, y, z |
| Vectors.DotIgnoresW | src/vec3.ts:47-49 | the dot product does not depend on either `w` |
| Vectors.DotCommutes | src/vec3.ts:47-49 | the dot product is symmetric |
| Vectors.DotExample | tests/vec3.test.ts:84-89 | (2, 3, 4) . (1, 2, 3) = 20 |
| Vectors.CrossIsOrthogonal | src/vec3.ts:60-65 | the cross product is orthogonal to both operands |
| Vectors.OppositeIsInvolution | src/vec3.ts:67-69 | negating twice restores x, y, z, and a . (-a) is minus the squared length |
| Vectors.LengthSquaredZero | src/vec3.ts:51-53 | the radicand of `getLength` is 0 exactly for the zero vector |
| Vectors.LengthPositive | src/vec3.ts:51-53 | under the square-root law a non-zero vector has a positive length whose square is the radicand |
| Vectors.NormalizeHasUnitLength | src/vec3.ts:51-58 | a normalized non-zero vector has length 1 (tests/vec3.test.ts:60-65) |
| Matrices.FromRows | src/mat4x4.ts:7-18 | the constructor fails exactly when there are not four rows or row 0 does not have four entries; otherwise it keeps the rows as given |
| Matrices.Zero | src/mat4x4.ts:7-12 | the default matrix: sixteen zeros |
| Matrices.Set | src/mat4x4.ts:24-26 | `set` stores the value at (row, col) and changes no other cell |
| Matrices.GetAfterSet | src/mat4x4.ts:20-26 | `get` after `set` returns the stored value for that cell and the old value for every other cell |
| Matrices.GetSetExample | tests/mat4x4.test.ts:6-19 | setting the diagonal of the zero matrix to 1, 2, 3, 4 reads back as written |
| Matrices.Multiply | src/mat4x4.ts:28-42 | the nested loop through `set` yields entry (r, c) = sum over k of A[r][k] * B[k][c] |
| Matrices.MultiplyExample | tests/mat4x4.test.ts:21-45 | the matrix 1..16 squared is the expected product |
| Matrices.SameEntriesEqual | src/mat4x4.ts:44-53 | two well-formed matrices are equal exactly when all sixteen entries agree |
| Matrices.IsEqual | src/mat4x4.ts:44-53 | the early-exit comparison returns true exactly when the matrices are equal |
| Matrices.IdentityIsNeutral | src/mat4x4.ts:28-42 | the identity is neutral on both sides of `multiply` |
| Matrices.IdentityKeepsVector | src/vec3.ts:23-29 | the row-vector product with the identity leaves every vector unchanged, `w` included |
| Matrices.DiagonalExample | tests/vec3.test.ts:68-81 | the diagonal-2 matrix maps (2, 3, 4, 1) to (4, 6, 8, 2) |
| Matrices.VecMatrixMulAssociates | src/vec3.ts:23-29 | multiplying by A and then by B equals multiplying by `multiply(A, B)` |
| Matrices.RotationsAtZero | src/mat4x4.ts:55-80 | all three rotation builders at angle 0 give the identity |
| Matrices.RotationsKeepAxis | src/mat4x4.ts:55-80 | the X rotation keeps x and w, the Y rotation y and w, the Z rotation z and w |
| Matrices.RotXKeepsLength | src/mat4x4.ts:55-62 | under sin² + cos² = 1 the X rotation keeps a vector's length |
| Matrices.TranslationMovesPoint | src/mat4x4.ts:82-88 | a point with `w = 1` is moved by `pos` and keeps `w = 1` |
| Matrices.ProjectionKeepsDepthInW | src/mat4x4.ts:90-98 | a point's projected `w` is its z; x and y are scaled by aspect / tan and 1 / tan; z becomes far (z - near) / (far - near) |
| Matrices.PointAtIdentityBasis | src/mat4x4.ts:100-107 | the point-at matrix of the identity basis is the identity |
| Matrices.PointAtProjectsOnBasis | src/mat4x4.ts:100-107 | the point-at matrix maps v to its dot products with right, up and forward, keeping `w` |
| Texels.Div | src/texel.ts:17-19 | u, v and w are each divided by the same k |
| Texels.FromVec2 | src/geometry.ts:16 | a `Vec2` literal read as a texel: u = x, v = y, w = 1 |
| Texels.DivKeepsRatios | src/texel.ts:17-19 | for k and w non-zero, `div` keeps u/w and v/w (which the rasterizer recovers at src/triangle-rasterizer.ts:263) |
| Planes.DistIsDotOfOffset | src/plane.ts:25-28 | the signed distance is normal . (v - point) and does not depend on `w` |
| Planes.PointOnOwnPlane | src/plane.ts:25-28 | the plane's own point has distance 0 |
| Planes.DistAlongSegment | src/plane.ts:25-28 | along start + t (end - start) the distance is affine in t |
| Planes.LinePlaneIntersect | src/plane.ts:14-23 | the intersection point has `w = 1` |
| Planes.IntersectionTIsDistanceRatio | src/plane.ts:14-19 | whatever the normal's length, `t` equals ds / (ds - de) for the ends' signed distances |
| Planes.IntersectionOnPlane | src/plane.ts:14-23 | when the ends are at different distances, the returned point lies on the plane |
| Planes.IntersectionTOnSegment | src/plane.ts:19-22 | from a start at distance >= 0 to an end at distance < 0, t lies in [0, 1) |
| Planes.IntersectionAtStart | src/plane.ts:19-22 | a start on the plane is returned unchanged in x, y, z (t = 0) |
| Lighting.CalculateLightIntensity | src/light.ts:11-17 | the intensity is never negative, and is either 0 or the cosine between the normal and the reversed, normalized light direction |
| Lighting.IntensityCases | src/light.ts:15 | it is 0 exactly when the surface faces away from the light or is edge-on, and the cosine otherwise |
| Lighting.IntensityAtMostOne | src/light.ts:12-15 | under the square-root law, for a non-degenerate triangle and a non-zero direction, the intensity lies in [0, 1] |
| Scenes.Scene.constructor | src/scene.ts:9-12 | stores the given light and model list |
| Scenes.Scene.WithLight | src/scene.ts:9-12 | the default model list is empty |
| Scenes.Scene.AddModel | src/scene.ts:14-16 | appends the model at the end, keeping the earlier models in order and the light unchanged |
| Scenes.Scene.ClearModels | src/scene.ts:18-20 | leaves an empty model list and the light unchanged |
| Triangles.NewTri | src/tri.ts:14-23 | keeps the three vertices, gives each missing texel the default (0, 0, 1), and starts the intensity at 255 |
| Triangles.SurfaceNormalIsUnitAndOrthogonal | src/tri.ts:25-30 | the surface normal is perpendicular to both edges leaving v1 and, under the square-root law, has length 1 |
| Triangles.CopyIsFieldwiseEqual | src/tri.ts:63-73 | a copy is field-wise equal to the original, intensity included |
| Triangles.MatrixMulIdentity | src/tri.ts:32-39 | `matrixMul` by the identity returns the same vertices, texels and intensity |
| Triangles.MatrixMulComposes | src/tri.ts:32-39 | `matrixMul` by A and then by B equals `matrixMul` by their product, texels and intensity carried along |
| Triangles.TransformIsStepwise | src/tri.ts:59-61 | `transform` equals applying rotation, then translation, then camera one after the other |
| Triangles.NormalizeDepthInverse | src/tri.ts:41-48 | after the divide every vertex has `w = 1`, multiplying back by the old `w` restores x, y, z, and texels and intensity are kept |
| Triangles.ScreenVertexBounds | src/tri.ts:50-57 | x in [-1, 1] maps into [0, W] and y in [-1, 1] into [0, H], with y = 1 on row 0 and x = -1 on column 0; z is kept |
| Triangles.ScreenVertexInverse | src/tri.ts:50-57 | the viewport mapping is undone by x = 2 sx / W - 1 and y = 1 - 2 sy / H |
| Cameras.Camera.constructor | src/camera.ts:13-22 | stores the given position and basis; both angles start at 0 |
| Cameras.Camera.Default | src/camera.ts:10-22 | the default camera: position (0, 0, 0), up (0, 1, 0), forward (0, 0, 1), right (1, 0, 0), angles 0 |
| Cameras.Camera.Yaw | src/camera.ts:24-26 | adds the angle to the yaw and changes nothing else |
| Cameras.Camera.Pitch | src/camera.ts:28-30 | adds the angle to the pitch and changes nothing else |
| Cameras.Camera.AxiiIdentity | src/camera.ts:32-36 | resets the basis to the axes; position and angles unchanged |
| Cameras.Camera.UpdateAxii | src/camera.ts:38-46 | the new basis is the identity basis rotated by pitch-then-yaw, whatever the old basis was |
| Cameras.Camera.CameraMatrix | src/camera.ts:48-53 | returns translation(-position) times point-at of the rebuilt basis, a function of position and angles only, which stay unchanged (so two calls in a row agree) |
| Cameras.BasisAtZeroAngles | src/camera.ts:38-46 | with both angles 0 the rotation is the identity and the basis is the axes |
| Cameras.ViewMatrixAtZeroAngles | src/camera.ts:48-53 | with both angles 0 the view matrix is the translation by -position |
| Cameras.ViewBasisAtZeroAngles | src/camera.ts:38-53 | with both angles 0 the point-at matrix of the rebuilt basis is the identity |
| Cameras.ViewMatrixCentresPosition | src/camera.ts:48-53 | with both angles 0 the view matrix maps the camera position to the origin |
| Cameras.ReverseWindingNegatesNormal | src/tri.ts:25-30 | swapping v2 and v3 negates the surface normal and keeps the cross product's length |
| Cameras.VisibilityIsOneSided | src/camera.ts:55-60 | the test compares the normal with v1 - forward: a triangle and its reverse are never both visible, and two cameras with the same forward agree whatever their positions |
| Clipping.ClassifyPrefix | src/triangle-clipper.ts:110-122 | after n pushes the two sides hold n vertices together, every texel list matches its point list in length, and each list holds only vertices of its side |
| Clipping.ClassifyPoints | src/triangle-clipper.ts:101-125 | the three-step loop returns exactly the four lists of the classification |
| Clipping.ClassifyIsStablePartition | src/triangle-clipper.ts:101-125 | each side lists its vertices in their original order with each texel beside its vertex, and the sides hold three vertices together |
| Clipping.SideIndices | src/triangle-clipper.ts:110-122 | the indices of one side's vertices, increasing, each included exactly when the vertex is on that side |
| Clipping.FallbackUnreachable | src/triangle-clipper.ts:20-40 | one of the four cases always applies, so the final `return []` is never reached |
| Clipping.InterpolateTexel | src/triangle-clipper.ts:93-99 | inside + t (outside - inside): t = 0 gives the inside texel and t = 1 the outside one |
| Clipping.HandleOneInsidePoint | src/triangle-clipper.ts:43-66 | exactly one triangle |
| Clipping.HandleTwoInsidePoints | src/triangle-clipper.ts:68-91 | exactly two triangles |
| Clipping.ClipAgainstPlane | src/triangle-clipper.ts:8-41 | returns the result of the classification-based case split |
| Clipping.NormalIsNonZero | src/triangle-clipper.ts:55-60 | a vertex strictly outside rules out a zero normal, so the intersection is defined |
| Clipping.ClipCount | src/triangle-clipper.ts:20-38 | no inside vertex gives 0 triangles, two inside give 2, one or three give 1; the result is empty exactly when no vertex is inside |
| Clipping.NoneInsideIff | src/triangle-clipper.ts:20-23 | no vertex is listed inside exactly when none has distance >= 0 |
| Clipping.ClipAllInside | src/triangle-clipper.ts:26-30 | all three inside: the result is the triangle itself (its copy) |
| Clipping.ClipOneInside | src/triangle-clipper.ts:33-65 | one inside: one triangle starting at the inside vertex and its texel, with the two edge intersections in outside-list order, each texel interpolated with the same t as its position, intensity kept |
| Clipping.ClipTwoInside | src/triangle-clipper.ts:37-91 | two inside: exactly (in0, in1, p0) and (in1, p0, p1), the second sharing the first's new corner and texel, texels interpolated with the position's t, intensity kept |
| Clipping.ClipKeepsIntensity | src/triangle-clipper.ts:30-89 | every output triangle carries the input's light intensity |
| Clipping.ClipOutputInside | src/triangle-clipper.ts:8-91 | every vertex of every output triangle has distance >= 0 to the plane |
| Clipping.ClipStaysInside | src/triangle-clipper.ts:8-91 | clipping never moves a triangle out of a half-space that holds all of it (so successive clips stay inside all earlier planes) |
| Clipping.SegmentStaysInside | src/plane.ts:14-28 | a point of a segment between two points inside a plane is inside it too (half-spaces are convex) |
| Models.NewModel | src/model.ts:13-18 | the list is stored as given; an omitted material, rotation or translation becomes the default material or (0, 0, 0) |
| Models.NormalizeBetweenZeroAndOne | src/model.ts:78-84 | for x >= 0 the result is x - floor(x), in [0, 1); for x < 0 it lies in (0, 1]; the public copy at src/mesh.ts:125-131 has the same body and is described by the same member |
| Models.NormalizeKeepsUnitInterval | src/model.ts:78-84 | values already in [0, 1) come back unchanged |
| Models.NormalizeNegative | src/model.ts:79-80 | a negative non-integer x maps to x - floor(x); a negative integer maps to 1, not 0 |
| Models.FixNegativeV | src/model.ts:59-69 | a non-negative v is kept; a negative v is normalised into (0, 1] |
| Models.RewriteTexelV | src/model.ts:45-71 | the face loop leaves the shared `vt` list equal to the fold of the per-corner rewrites, face by face in file order |
| Models.RewriteFacesCounts | src/model.ts:54-69 | a texel named by n face corners has had its v rewritten exactly n times; u, w and unnamed texels are unchanged |
| Models.FixNegativeVSettles | src/model.ts:59-69 | one application of the fix-up already settles v, so a shared texel ends like a texel used once |
| Models.FaceAssemblyFixesNegativeV | src/model.ts:59-69 | after face assembly a named texel's v is rewritten only when negative; u, w, non-negative v (even above 1) and unnamed texels are untouched |
| Loader.LoadedTexels | src/model-loader.ts:24-39 | the `vt` list after this loader's face assembly keeps its length |
| Loader.IterateNormalizeInUnitInterval | src/model-loader.ts:45-47 | one or more normalisations land in [0, 1] |
| Loader.LoadedVInUnitInterval | src/model-loader.ts:34-36 | every texel a face names ends with v in [0, 1], whatever its sign; u and w are unchanged and unnamed texels are left alone |
| Loader.DefaultTexelKept | src/model-loader.ts:34-36 | the default texel's v = 0 survives the normalisation |
| Loader.OneBecomesZero | src/model-loader.ts:34-36 | v = 1 becomes 0 in this loader, while the model.ts fix-up keeps it |
| Loader.SharingChangesResult | src/model-loader.ts:34-36 | the rewrite goes through shared texels: v = -1 named once ends at 1, named twice ends at 0 |
| Meshes.NewModel | src/mesh.ts:14-20 | the list is stored as given; rotation and translation (0, 0, 0), colour (255, 255, 255), no texture |
| Geometry.Cube | src/geometry.ts:8-129 | exactly 12 triangles |
| Geometry.CubeVerticesAreCorners | src/geometry.ts:11-128 | every vertex coordinate is 0 or 1, with w = 1 |
| Geometry.CubeFacesArePlanar | src/geometry.ts:10-128 | triangles 2k and 2k + 1 lie in face k's plane: south z = 0, east x = 1, north z = 1, west x = 0, top y = 1, bottom y = 0 |
| Geometry.OutwardOf | src/geometry.ts:11-128 | the outward test written out over the corner coordinates |
| Geometry.CubeNormalsPointOutward | src/geometry.ts:11-128 | every triangle's edge cross product points away from the centre (0.5, 0.5, 0.5) |
| Geometry.CubeFacesSplitAlongDiagonal | src/geometry.ts:11-128 | the two triangles of a face share their first vertex and the diagonal, carry the texels (0,1),(0,0),(1,0) then (0,1),(1,0),(1,1), and intensity 255 |
| Raster.StoreByte | src/triangle-rasterizer.ts:148-151 | an element assignment stores the clamped byte at an index inside the array and changes nothing else |
| Raster.PutPixel | src/triangle-rasterizer.ts:144-152 | a pixel write keeps the image length |
| Raster.PutPixelWritesItsFourBytes | src/triangle-rasterizer.ts:144-152 | exactly the four bytes from 4 (width round(y) + round(x)) change, to the clamped red, green, blue and alpha |
| Raster.PutPixelFrame | src/triangle-rasterizer.ts:144-152 | a byte outside those four keeps its value |
| Raster.Paint | src/triangle-rasterizer.ts:144-152 | a run of pixel writes keeps the image length |
| Raster.PaintFrame | src/triangle-rasterizer.ts:144-152 | a byte that no write of a run touches keeps its value |
| Raster.PaintAppend | src/triangle-rasterizer.ts:144-152 | painting two runs one after the other is painting their concatenation |
| Raster.Rasterizer.constructor | src/triangle-rasterizer.ts:12-15 | keeps the caller's two arrays, not copies |
| Raster.Rasterizer.Store | src/triangle-rasterizer.ts:148-151 | the image becomes the one-byte store of the value |
| Raster.Rasterizer.DrawPixel | src/triangle-rasterizer.ts:144-152 | the image becomes the pixel write at the rounded position |
| Raster.Rasterizer.DrawLine | src/triangle-rasterizer.ts:131-142 | the image becomes the old image painted with the line's pixels in order |
| Raster.Rasterizer.LineLoop | src/triangle-rasterizer.ts:137-141 | the loop's max steps paint exactly the line's pixels |
| Raster.Rasterizer.LineStep | src/triangle-rasterizer.ts:138-140 | one turn of the loop paints the pixel of step n |
| Raster.StepCount | src/triangle-rasterizer.ts:137 | the counter runs while below max and stops at ceil(max) |
| Raster.LinePrefix | src/triangle-rasterizer.ts:137-141 | the first n pixels of the loop are n writes |
| Raster.LinePrefixAt | src/triangle-rasterizer.ts:137-141 | write k of the loop is the pixel after k steps |
| Raster.PaintLineStep | src/triangle-rasterizer.ts:137-141 | one more turn of the loop paints one more pixel at the accumulated position |
| Raster.LinePixelCount | src/triangle-rasterizer.ts:131-142 | a line draws ceil(max(abs(dx), abs(dy))) pixels, the first at (x0, y0) in the line's colour and alpha; a zero-length line draws nothing |
| Raster.LinePixelOnSegment | src/triangle-rasterizer.ts:131-142 | pixel n lies at the fraction n / max of the way from (x0, y0) to (x1, y1), with that fraction below 1: the endpoint is never drawn |
| Raster.StepIsFraction | src/triangle-rasterizer.ts:135-140 | n additions of (b - a) / max reach a + (n / max)(b - a) |
| Raster.BoxIsNonEmpty | src/triangle-rasterizer.ts:79-82 | the integer bounding box holds at least one pixel |
| Raster.Barycentric | src/triangle-rasterizer.ts:88-91 | the three weights sum to 1 |
| Raster.FillCell | src/triangle-rasterizer.ts:88-113 | one pixel of the box keeps the image length |
| Raster.FillRow | src/triangle-rasterizer.ts:86-114 | a row of the box keeps the image length |
| Raster.FillRows | src/triangle-rasterizer.ts:85-115 | rows of the box keep the image length |
| Raster.FillBox | src/triangle-rasterizer.ts:79-115 | the box fill keeps the image length |
| Raster.Rasterized | src/triangle-rasterizer.ts:68-120 | the box fill, then the wireframe, keeps the image length |
| Raster.FillCellFrame | src/triangle-rasterizer.ts:88-113 | a byte outside a covered pixel of the cell keeps its value |
| Raster.FillRowFrame | src/triangle-rasterizer.ts:86-114 | a byte no covered pixel of the row owns keeps its value |
| Raster.FillRowsFrame | src/triangle-rasterizer.ts:85-115 | a byte no covered pixel of the rows owns keeps its value |
| Raster.FillWritesOnlyCoveredPixels | src/triangle-rasterizer.ts:79-94 | the fill changes only bytes of bounding-box pixels whose three weights are all >= 0 |
| Raster.DegenerateTriangleFillsNothing | src/triangle-rasterizer.ts:88-94 | a zero barycentric denominator fills nothing |
| Raster.FlatFillColour | src/triangle-rasterizer.ts:107-111 | without texturing a covered pixel is the material colour times the intensity, with the material's alpha, and the sampler is not consulted |
| Raster.WithoutMeshOnlyWireframe | src/triangle-rasterizer.ts:68-119 | with the mesh off only the wireframe is drawn, and only when the material asks for one |
| Raster.Rasterizer.RasterizeTriangle | src/triangle-rasterizer.ts:68-120 | the image becomes the box fill (when the mesh is on) then the wireframe; the depth buffer is unchanged |
| Raster.Rasterizer.FillPixelAt | src/triangle-rasterizer.ts:88-113 | one pixel of the box: the inside test, then the shaded write |
| Raster.Rasterizer.DrawShaded | src/triangle-rasterizer.ts:96-112 | a covered pixel is the tinted texel when texturing with a texture, otherwise the flat colour |
| Raster.Rasterizer.DrawWireframe | src/triangle-rasterizer.ts:122-129 | the image becomes the old image painted with the three edge lines v1-v2, v2-v3, v3-v1 |
| Raster.SortByY | src/triangle-rasterizer.ts:175-197 | the three compare-swaps leave y1 <= y2 <= y3 and are a permutation of the corners with their x, u, v, w |
| Raster.RowCount | src/triangle-rasterizer.ts:229-290 | the outer loop runs exactly for the rows passing `i <= bottom` of an enabled half |
| Raster.EdgeSpan | src/triangle-rasterizer.ts:231-247 | the two edge positions of a row, ordered so the span starts at the left one |
| Raster.SpanLength | src/triangle-rasterizer.ts:256 | the inner loop runs exactly for the columns passing `j < bx` |
| Raster.Fragment | src/triangle-rasterizer.ts:257-269 | a fragment keeps the image length and changes depth only as `FragmentDepth` says |
| Raster.FragmentDepth | src/triangle-rasterizer.ts:260-268 | the depth store keeps the buffer length |
| Raster.SpanFrame | src/triangle-rasterizer.ts:256-271 | the fragments of a span keep both buffer lengths |
| Raster.SpanFrameStep | src/triangle-rasterizer.ts:256-271 | one more fragment, at column s.x + k with t accumulated k times |
| Raster.HalfFrame | src/triangle-rasterizer.ts:229-273 | the rows of a half keep both buffer lengths |
| Raster.Textured | src/triangle-rasterizer.ts:154-333 | the textured fill keeps both buffer lengths |
| Raster.EdgeReachesItsEnd | src/triangle-rasterizer.ts:199-240 | stepping an edge for (to.y - from.y) rows lands on its second corner in x, u, v and w |
| Raster.SpanParameterInRange | src/triangle-rasterizer.ts:253-270 | fragment k of a span has t = k tstep in [0, 1) |
| Raster.FragmentDepthTest | src/triangle-rasterizer.ts:260-269 | a fragment failing the depth test changes nothing; one passing it stores w at the tested index only when y width + x is an integer, and no other depth element changes |
| Raster.NoCloserTransitive | src/triangle-rasterizer.ts:262-268 | "depth never decreases" composes |
| Raster.FragmentNoCloser | src/triangle-rasterizer.ts:262-268 | one fragment never lowers a depth value |
| Raster.SpanFrameNoCloser | src/triangle-rasterizer.ts:256-271 | a span never lowers a depth value |
| Raster.HalfFrameNoCloser | src/triangle-rasterizer.ts:229-273 | a half never lowers a depth value |
| Raster.TexturedDepthNeverDecreases | src/triangle-rasterizer.ts:262-331 | a textured triangle never lowers a depth value |
| Raster.TexturedWritesHaveVisibleDepth | src/triangle-rasterizer.ts:262-329 | with no negative depth, a fragment passing the test has w > 0, so its u / w and v / w are defined, and no negative depth appears |
| Raster.FlatTriangleDrawsNothing | src/triangle-rasterizer.ts:229-289 | both halves are skipped when all three y are equal: nothing is drawn |
| Raster.Rasterizer.DrawFragment | src/triangle-rasterizer.ts:257-269 | both buffers become the fragment's result |
| Raster.Rasterizer.ScanStep | src/triangle-rasterizer.ts:256-271 | one inner-loop turn adds the next fragment of the span |
| Raster.Rasterizer.ScanSpan | src/triangle-rasterizer.ts:253-271 | the buffers become the span's fragments in order, with t advancing by 1 / (bx - ax) |
| Raster.Rasterizer.ScanRow | src/triangle-rasterizer.ts:231-271 | one row: the span between the two edges, left end first |
| Raster.Rasterizer.ScanHalf | src/triangle-rasterizer.ts:229-273 | the buffers become the rows top..bottom of the half, in order |
| Raster.Rasterizer.TextureTrianglePerspectiveCorrect | src/triangle-rasterizer.ts:154-333 | the buffers become the y-sorted corners' upper half then lower half |
| Rendering.ClipEach | src/web-renderer.ts:120-130 | one pass of the worklist: each triangle replaced, in order, by its clipped pieces |
| Rendering.ClipEachStep | src/web-renderer.ts:121-130 | one more triangle of a pass appends its pieces |
| Rendering.WorklistStep | src/web-renderer.ts:122-129 | shifting the next triangle off the front and pushing its pieces at the back moves it from the unclipped part to the clipped part |
| Rendering.ClipThrough | src/web-renderer.ts:119-132 | the worklist after one pass per plane, in order |
| Rendering.ClipSeparately | src/web-renderer.ts:116-134 | each triangle taken through the passes on its own, results in input order |
| Rendering.ScreenClip | src/web-renderer.ts:108-136 | `clipScreenSpace` is `ClipSeparately` over the top, bottom, left and right screen planes |
| Rendering.Renderer.ClipScreenSpace | src/web-renderer.ts:108-136 | returns exactly the screen clip of the input, in input order |
| Rendering.Renderer.ClipToScreen | src/web-renderer.ts:116-133 | one triangle's worklist after the four passes |
| Rendering.Renderer.ClipPass | src/web-renderer.ts:120-131 | the `while (newTris > 0)` loop leaves exactly one pass; the list is never empty when shifted, so the "cant clip undefined triangle" error is unreachable |
| Rendering.ClipEachAppend | src/web-renderer.ts:121-130 | a pass keeps order: the pieces of a concatenation are the pieces of each part |
| Rendering.ClipEachCount | src/web-renderer.ts:128 | a pass at most doubles the list |
| Rendering.ClipEachInside | src/web-renderer.ts:128 | every piece is inside the pass's plane, and inside every plane all the input was inside |
| Rendering.ClipEachKeepsIntensity | src/web-renderer.ts:128 | every piece carries the intensity of an input triangle |
| Rendering.ClipThroughInside | src/web-renderer.ts:119-132 | after the passes every piece is inside all the planes |
| Rendering.ClipThroughCount | src/web-renderer.ts:119-132 | at most 2^(number of planes) pieces per input |
| Rendering.ClipThroughKeepsIntensity | src/web-renderer.ts:119-132 | every piece carries an input's intensity |
| Rendering.ClipSeparatelyAppend | src/web-renderer.ts:116-134 | the result for a concatenation is the results for its parts, in order |
| Rendering.ClipSeparatelyProperties | src/web-renderer.ts:116-134 | every piece is inside all planes and carries an input's intensity; at most 2^(number of planes) pieces per input |
| Rendering.ScreenPlanesBound | src/web-renderer.ts:109-112 | inside the four screen planes is inside [0, width] x [0, height] |
| Rendering.ScreenClipProperties | src/web-renderer.ts:108-135 | every output lies on the screen, carries an input's intensity, and each input gives at most 16 triangles |
| Rendering.SortTriangles | src/web-renderer.ts:102-106 | negative exactly when t1's mean z is larger, zero exactly on equal mean z |
| Rendering.InsertByDepth | src/web-renderer.ts:96-106 | inserting into a back-to-front list keeps it back to front and adds exactly one element |
| Rendering.SortByDepth | src/web-renderer.ts:96-106 | the sort yields a permutation of its input ordered by non-increasing mean z |
| Rendering.NewHeadIsFarthest | src/web-renderer.ts:102-106 | a farther triangle in front of a back-to-front list keeps it back to front |
| Rendering.HeadIsFarthest | src/web-renderer.ts:102-106 | a head no nearer than the inserted triangle stays first |
| Rendering.ProjectionMatrix | src/web-renderer.ts:51 | the projection for 90 degrees, aspect height / width, near 0.1, far 100, is a 4x4 matrix |
| Rendering.ModelRotation | src/web-renderer.ts:52-54 | Rz (Ry Rx) is a 4x4 matrix |
| Rendering.PipelineFor | src/web-renderer.ts:49-54 | the matrices of `renderMesh` are well formed whenever the host maths is lawful |
| Rendering.LightIntensity | src/web-renderer.ts:72 | 1 with the light off, otherwise the light's intensity on the rotated, unclipped triangle; always in [0, 1] |
| Rendering.ProjectTri | src/web-renderer.ts:72-86 | the piece gets the given intensity and each texel is divided by its own vertex's projected w (its z before projection) |
| Rendering.ProjectEach | src/web-renderer.ts:69-89 | every piece projected, in order |
| Rendering.MeshOutputStep | src/web-renderer.ts:58-91 | one more model triangle appends its pieces to `trisToRaster` |
| Rendering.ProjectedW | src/mat4x4.ts:90-98 | the projection copies a vertex's z into w |
| Rendering.NearClipDepth | src/web-renderer.ts:64-67 | every vertex surviving the near clip has z >= 0.001 |
| Rendering.NearSide | src/web-renderer.ts:65 | inside the near plane means z >= 0.001 |
| Rendering.PiecesShareIntensity | src/web-renderer.ts:63-89 | one model triangle gives at most two pieces, all with the light intensity of the rotated, unclipped triangle |
| Rendering.MeshOutputAppend | src/web-renderer.ts:58-91 | `trisToRaster` keeps the model's triangle order |
| Rendering.MeshOutputIntensity | src/web-renderer.ts:58-91 | every triangle of `trisToRaster` has intensity in [0, 1], at most two per model triangle |
| Rendering.ScreenTrisProperties | src/web-renderer.ts:93-98 | what reaches `draw` or `texturize` is back to front, on screen, with intensities in [0, 1], at most 32 per model triangle |
| Rendering.PixelBytes | src/web-renderer.ts:141-144 | four bytes per pixel |
| Rendering.Background | src/web-renderer.ts:139-145 | n background pixels are 4n bytes |
| Rendering.BackgroundChannels | src/web-renderer.ts:139-145 | byte k of the background is channel k mod 4 of the colour |
| Rendering.Zeros | src/web-renderer.ts:37-174 | n zeros |
| Rendering.FillAll | src/web-renderer.ts:157-162 | `draw`'s loop keeps the image length |
| Rendering.TextureAllStep | src/web-renderer.ts:151-153 | one more triangle of `texturize`'s loop is one more textured fill |
| Rendering.RenderedFrameStep | src/web-renderer.ts:43-45 | after model i the buffers are exactly model i's frame: earlier models do not show |
| Rendering.SceneFrameStep | src/web-renderer.ts:43-45 | with one clear per frame, model i is drawn over the earlier models |
| Rendering.EmptyModelDrawsNothing | src/web-renderer.ts:95-99 | a model without triangles draws nothing |
| Rendering.TextureAllNoCloser | src/web-renderer.ts:151-153 | `texturize`'s loop never lowers a depth value |
| Rendering.DrawMeshNoCloser | src/web-renderer.ts:95-99 | drawing a model never lowers a depth value |
| Rendering.RenderedFrameErasesEarlierModels | src/web-renderer.ts:149-162 | as written, a scene ending in a model without triangles renders as a blank frame, whatever came before |
| Rendering.SceneFrameIgnoresEmptyModel | src/web-renderer.ts:42-46 | with one clear per frame, a model without triangles changes nothing |
| Rendering.SceneFrameDepthRises | src/web-renderer.ts:42-46 | with one clear per frame, depth only rises from model to model |
| Rendering.Renderer.constructor | src/web-renderer.ts:27-40 | a zeroed image of 4 width height bytes and a depth buffer of width height zeros, shared with a new rasterizer, and an opaque black background |
| Rendering.Renderer.Render | src/web-renderer.ts:42-46 | the buffers become the per-model fold of `renderMesh`; the camera's position and angles are unchanged; with at least one model the camera's basis is the three axes rotated by its pitch, then its yaw (`Cameras.Camera.Oriented`, as `updateAxii` leaves it), with none the camera is untouched |
| Rendering.Renderer.RenderNext | src/web-renderer.ts:43-45 | one turn of `render`'s loop: the buffers hold model i's frame, and the camera's basis is the three axes rotated by its pitch, then its yaw (`Cameras.Camera.Oriented`, as `updateAxii` leaves it) |
| Rendering.Renderer.RenderMesh | src/web-renderer.ts:48-100 | the buffers become the cleared frame with the model drawn; position and angles are kept and the camera's basis is the three axes rotated by its pitch, then its yaw (`Cameras.Camera.Oriented`, as `updateAxii` leaves it) |
| Rendering.Renderer.MeshTris | src/web-renderer.ts:49-96 | returns the model's screen triangles, clipped and sorted back to front; position and angles are kept and the camera's basis is the three axes rotated by its pitch, then its yaw (`Cameras.Camera.Oriented`, as `updateAxii` leaves it) |
| Rendering.Renderer.RenderFrame | src/web-renderer.ts:42-46 | the corrected render: one clear, then every model drawn onto the same buffers; position and angles are kept; with at least one model the camera's basis is the three axes rotated by its pitch, then its yaw (`Cameras.Camera.Oriented`, as `updateAxii` leaves it), with none the camera is untouched |
| Rendering.Renderer.DrawNext | src/web-renderer.ts:43-45 | one model drawn over what the buffers hold, and the camera's basis is the three axes rotated by its pitch, then its yaw (`Cameras.Camera.Oriented`, as `updateAxii` leaves it) |
| Rendering.Renderer.PrepareMatrices | src/web-renderer.ts:49-54 | the rotation, translation, camera and projection matrices of the pipeline, and the camera's rebuilt basis: its right, up and forward are the rotated axes, its position and angles kept |
| Rendering.Renderer.DrawSorted | src/web-renderer.ts:95-99 | `draw` or `texturize` as the material has no texture or has one |
| Rendering.Renderer.DrawSortedOnto | src/web-renderer.ts:95-99 | the same without the clear |
| Rendering.Renderer.CollectTris | src/web-renderer.ts:56-91 | `trisToRaster` after the loop is the pieces of every model triangle, in order |
| Rendering.Renderer.PushPieces | src/web-renderer.ts:58-91 | one turn of the loop |
| Rendering.Renderer.TriPieces | src/web-renderer.ts:59-90 | rotate, translate, view, back-face test, near clip, then light and project each piece |
| Rendering.Renderer.ScreenPiece | src/web-renderer.ts:72-88 | one projected piece |
| Rendering.Renderer.ClearImageData | src/web-renderer.ts:138-147 | every pixel becomes the background colour and every depth value 0 |
| Rendering.Renderer.PaintBackground | src/web-renderer.ts:141-144 | one more background pixel |
| Rendering.Renderer.ClearDepthBuffer | src/web-renderer.ts:173-175 | every depth value becomes 0 |
| Rendering.Renderer.Texturize | src/web-renderer.ts:149-155 | a clear, then the textured fill of each triangle in order |
| Rendering.Renderer.TextureOnto | src/web-renderer.ts:151-153 | the textured fill of each triangle in order |
| Rendering.Renderer.Draw | src/web-renderer.ts:157-162 | a clear, then `rasterizeTriangle` with the mesh and texturing flags off for each triangle; depth stays cleared |
| Rendering.Renderer.FillOnto | src/web-renderer.ts:159-161 | `rasterizeTriangle` for each triangle in order; depth untouched |
| Cameras.Rotation | src/camera.ts:38-46 | the rotation `updateAxii` applies (pitch about x, then yaw about y) is a 4x4 matrix |
| Cameras.ViewMatrix | src/camera.ts:48-53 | translation by -position times the point-at matrix of the rotated basis, a 4x4 matrix |
| Cameras.ViewBasis | src/camera.ts:38-53 | the point-at matrix of the identity basis rotated by pitch and yaw, a 4x4 matrix |
| Matrices.MulSpec | src/mat4x4.ts:28-42 | the entrywise product is a 4x4 matrix |
| Matrices.RotX | src/mat4x4.ts:55-62 | the x-axis rotation is a 4x4 matrix |
| Matrices.RotY | src/mat4x4.ts:64-71 | the y-axis rotation is a 4x4 matrix |
| Matrices.RotZ | src/mat4x4.ts:73-80 | the z-axis rotation is a 4x4 matrix |
| Matrices.Translation | src/mat4x4.ts:82-88 | the translation matrix is a 4x4 matrix |
| Matrices.Projection | src/mat4x4.ts:90-98 | defined when tan(fov / 2) and far - near are non-zero; a 4x4 matrix |
| Matrices.PointAt | src/mat4x4.ts:100-107 | the point-at matrix is a 4x4 matrix |
| Vectors.Normalize | src/vec3.ts:55-58 | divides x, y, z by the length and returns w = 1 |
| Models.RewriteFaces | src/model.ts:45-71 | the per-corner rewrites of the faces, in file order, keep the list length |
| Clipping.OneInsideOutputInside | src/triangle-clipper.ts:33-65 | one inside vertex: the single output triangle lies wholly inside the plane |
| Clipping.TwoInsideOutputInside | src/triangle-clipper.ts:37-91 | two inside vertices: both output triangles lie wholly inside the plane |
| Clipping.EdgePointStaysInside | src/triangle-clipper.ts:55-86 | the edge from an inside to an outside vertex crosses the plane, and the crossing point is inside every plane both ends are inside |
| Clipping.ClassifiedAreVertices | src/triangle-clipper.ts:110-122 | every point the classification lists is a vertex of the triangle |
| Clipping.OneInsideStaysInside | src/triangle-clipper.ts:43-66 | the one-inside output stays inside any plane the whole input was inside |
| Clipping.TwoInsideStaysInside | src/triangle-clipper.ts:68-91 | the two-inside outputs stay inside any plane the whole input was inside |
| Vectors.Dot | src/vec3.ts:47-49 | `dotProduct` over x, y, z only; its properties are stated by `Vectors.DotIgnoresW`, `Vectors.DotCommutes` and `Vectors.DotExample` |
| Vectors.GetLength | src/vec3.ts:51-53 | `getLength`, the host square root of the radicand; `Vectors.LengthPositive` and `Vectors.LengthSquaredZero` state when it is positive |
| Matrices.Get | src/mat4x4.ts:20-22 | `get`: the entry at (row, col); `Matrices.GetAfterSet` relates it to `set` |
| Matrices.VecMatrixMul | src/vec3.ts:23-29 | `Vec3.matrixMul`, the row vector times the matrix, w included; stated by `Matrices.IdentityKeepsVector`, `Matrices.DiagonalExample` and `Matrices.VecMatrixMulAssociates` |
| Matrices.Identity | src/mat4x4.ts:55-62 | a well-formed 4x4 matrix, the value every rotation builder returns at angle 0 (`Matrices.RotationsAtZero`) and the neutral element of `multiply` (`Matrices.IdentityIsNeutral`) |
| Planes.DistFromPlane | src/plane.ts:25-28 | `distFromPlane`, with the normal not normalised; `Planes.DistIsDotOfOffset` and `Planes.DistAlongSegment` state its meaning |
| Planes.IntersectionT | src/plane.ts:14-19 | the local `t` of `linePlaneIntersect`; `Planes.IntersectionTIsDistanceRatio` and `Planes.IntersectionTOnSegment` state its value and range |
| Triangles.SurfaceNormal | src/tri.ts:25-30 | `getSurfaceNormal`, the normalised edge cross product; `Triangles.SurfaceNormalIsUnitAndOrthogonal` states that it is a unit normal |
| Triangles.MatrixMul | src/tri.ts:32-39 | `Tri.matrixMul`: each vertex times the matrix, texels and intensity kept; stated by `Triangles.MatrixMulIdentity` and `Triangles.MatrixMulComposes` |
| Triangles.NormalizeDepth | src/tri.ts:41-48 | `normalizeDepth`, each vertex divided by its own w; `Triangles.NormalizeDepthInverse` states that it is undone by multiplying back |
| Triangles.ToScreenSpace | src/tri.ts:50-57 | `toScreenSpace`, the viewport map per vertex; stated by `Triangles.ScreenVertexBounds` and `Triangles.ScreenVertexInverse` |
| Triangles.Transform | src/tri.ts:59-61 | `transform`, one `matrixMul` by the product of the three matrices; `Triangles.TransformIsStepwise` states it equals applying them in turn |
| Triangles.Copy | src/tri.ts:63-73 | `Tri.copy`, reading `Vec3.copy` as a clone; `Triangles.CopyIsFieldwiseEqual` states the field-wise equality |
| Cameras.Camera.IsVisibleTri | src/camera.ts:55-60 | `isVisibleTri`: the normal against `v1 - forward`; `Cameras.VisibilityIsOneSided` states it is one-sided and ignores the position |
| Clipping.Classify | src/triangle-clipper.ts:101-125 | the classification `classifyPoints` returns; stated by `Clipping.ClassifyIsStablePartition`, `Clipping.NoneInsideIff` and `Clipping.ClassifiedAreVertices` |
| Clipping.Clip | src/triangle-clipper.ts:8-41 | the value of `clipAgainstPlane`; its shape per case, intensity and containment are stated by `Clipping.ClipCount`, `Clipping.ClipAllInside`, `Clipping.ClipOneInside`, `Clipping.ClipTwoInside`, `Clipping.ClipOutputInside` and `Clipping.ClipStaysInside` |
| Raster.PixelIndex | src/triangle-rasterizer.ts:145-147 | the byte offset 4(W·round y + round x) of `drawPixel`; `Raster.PutPixelWritesItsFourBytes` states that exactly those four bytes change |
| Raster.LinePixels | src/triangle-rasterizer.ts:131-142 | the pixel writes of `drawLine`; `Raster.LinePixelCount` and `Raster.LinePixelOnSegment` state their number and position |
| Raster.Shade | src/triangle-rasterizer.ts:96-112 | the pixel write of one covered pixel; `Raster.FlatFillColour` states the flat colour |
| Raster.Visible | src/triangle-rasterizer.ts:262 | the depth test at the floored index; `Raster.FragmentDepthTest` states what a passing and a failing test do |
| Raster.FirstHalf | src/triangle-rasterizer.ts:199-272 | the upper half, rows y1 to y2 between edges 1-2 and 1-3; `Raster.EdgeReachesItsEnd` states the edges reach their far corners |
| Raster.SecondHalf | src/triangle-rasterizer.ts:275-334 | the lower half, rows y2 to y3 between edges 2-3 and 1-3; `Raster.EdgeReachesItsEnd` states the same of its edges |
| Rendering.MeanZ | src/web-renderer.ts:102-106 | the mean z that `sortTriangles` compares; `Rendering.SortTriangles` and `Rendering.SortByDepth` state the order |
| Rendering.MeshFrame | src/web-renderer.ts:48-100 | the buffers after `renderMesh`: a cleared frame with the model drawn; `Rendering.Renderer.RenderMesh` is proved against it |
| Rendering.RenderedFrame | src/web-renderer.ts:42-46 | the buffers after `render` as written; `Rendering.RenderedFrameStep` and `Rendering.RenderedFrameErasesEarlierModels` state that only the last model survives |
| Rendering.SceneFrame | src/web-renderer.ts:42-46 | the corrected render, one clear then every model; `Rendering.SceneFrameIgnoresEmptyModel` and `Rendering.SceneFrameDepthRises` state its properties |
| Rendering.Wireframes | src/triangle-rasterizer.ts:122-129 | the three edge lines of every triangle, in order; `Rendering.FillAllPaintsWireframes` states that `draw`'s loop paints exactly these |
| Rendering.FillAllWithoutWireframe | src/web-renderer.ts:157-162 | without a wireframe, `draw`'s loop leaves the image as it was, since the fill is switched off |
| Rendering.FillAllPaintsWireframes | src/web-renderer.ts:157-162 | with a wireframe, `draw`'s loop paints exactly every triangle's edges in order, and nothing else |
| Rendering.TextureAll | src/web-renderer.ts:151-153 | `texturize`'s loop, one textured fill per triangle in order; `Rendering.TextureAllStep` and `Rendering.TextureAllNoCloser` state its step and that depth only rises |
| Rendering.DrawMesh | src/web-renderer.ts:93-99 | the screen triangles drawn or texturized by the material; `Rendering.DrawMeshNoCloser` and `Rendering.EmptyModelDrawsNothing` state its properties |

## Left out

- The `fetch` and line splitting of OBJ files (`model.ts`, `model-loader.ts`, `mesh.ts`): network I/O and string-to-number coercion. Only the face-assembly texel fix-ups are modelled, over a given texel list and a given list of faces.
- The texture image and its decoding (`texture.ts` and the texture loaders): host code. `sampleColorAtNormalizedCoordinates` is the parameter `sample`.
- `Math.sqrt`, `Math.sin`, `Math.cos` and `Math.tan`: host functions. They are a `Libm` parameter. `Lawful` states the only facts the lemmas use: sqrt(x)^2 = x and sqrt(x) > 0 for x > 0, sin^2 + cos^2 = 1, cos 0 = 1 and sin 0 = 0.
- IEEE-754 rounding, NaN and Infinity: numbers are exact reals.
  - A division whose divisor may be zero either requires a non-zero divisor or models the TypeScript's outcome explicitly. The divisors are in `normalize`, `Texel.div`, the light direction, the projection's `tan`, `linePlaneIntersect` and the perspective divide.
  - The outcomes modelled explicitly are: no pixel for a degenerate barycentric fill, not visible for a NaN normal, and intensity 0 for a NaN intensity.
- `Rendering.Aspect`: with a zero canvas width the TypeScript ratio is Infinity or NaN. The model uses 0, which no pixel can show, because the buffers are then empty.
- `Rendering.FovDefined`: that `Math.tan` of half of 90 degrees is non-zero is a fact about the host library. It is a precondition of the renderer's methods.
- `Rendering.SortByDepth`: `Array.prototype.sort` is modelled as a stable insertion sort. The lemmas state only that the result is a permutation ordered by non-increasing mean z. Among equal mean z the order is not stated.
- `rasterizeTriangleViaCanvasApi`, `swapBuffer` (`putImageData`), the canvas context, and the "null ctx" error of the renderer's constructor: Canvas 2D API calls. The canvas contributes only its width and height.
- Getters and setters of every class, and the records `rgb.ts`, `rgba.ts`, `vec2.ts` and `material.ts`: they have no behaviour. They are plain datatypes with their defaults.
- `Texel.copy` and `Tri.copy` return equal values (`Tri.copy` reading the missing `Vec3.copy` as a clone, see the decisions above), and values have no identity. The model therefore does not express that a copy shares no object with its original, or that changing a copy leaves the original alone.
  - In the same way, `Mat4x4.set` mutating a shared matrix is modelled as building a new matrix.
- `swapBuffer` and what reaches the canvas: `draw` (`web-renderer.ts:157-166`) presents the cleared buffer through `clearScreen` before its loop and never swaps after it, so what it paints stays in the image buffer and is cleared by the next model or frame before any later swap; only `texturize` presents its result (`web-renderer.ts:154`). The model describes the buffers, not the canvas.
- Meshes.NewModel: takes only the triangle list. The optional rotation, translation, colour and texture arguments of `mesh.ts:14` are left out, because no caller passes them (`geometry.ts:9`, `mesh.ts:122`); the model gives their defaults.
- Scenes.Scene: the model list is a value. `new Scene(light, models)` keeps the caller's array itself (`scene.ts:10`), so `addModel` (`scene.ts:15`) also grows the caller's array, until `clearModels` installs a fresh one (`scene.ts:19`). The model does not express that sharing: an `AddModel` changes only the scene.
- The error "cant clip undefined triangle" (`web-renderer.ts:125`) is never raised. `Rendering.Renderer.ClipPass` shifts only from a non-empty worklist, so the model has no error path for it.
- The second textured half samples the texture before the depth test (`triangle-rasterizer.ts:321`). The sampler is a pure function here, so the model samples only when the fragment is drawn.
- `Raster.PerspectiveDivide`: for w = 0 the TypeScript passes Infinity or NaN to the sampler. The model passes 0. `Raster.TexturedWritesHaveVisibleDepth` shows that such a fragment is never drawn while the depth buffer holds no negative value.
- The input controls, the animation loop, the DOM wiring and the commented-out rasterizers: outside the rendering pipeline.

## Findings

| source | as written | input that shows it | evidently intended | confidence | as-written member | corrected member |
|---|---|---|---|---|---|---|
| src/web-renderer.ts:149-162 | `draw` and `texturize` each begin by clearing the image and the depth buffer, and `render` calls them once per model, so every model erases what the models before it drew and only the last model survives | a scene whose last model has no triangles renders as a blank frame, whatever the earlier models contain | clear once per frame, then draw every model onto the same buffers, with the depth buffer shared between models | not executed | `Rendering.RenderedFrameErasesEarlierModels` | `Rendering.Renderer.RenderFrame` (with `Rendering.SceneFrameIgnoresEmptyModel` and `Rendering.SceneFrameDepthRises`) |
