/** The CPU rasterizer (src/triangle-rasterizer.ts).  It writes into two
    buffers it shares with the renderer: the canvas's RGBA bytes (a
    `Uint8ClampedArray`, four bytes per pixel, row-major) and a depth buffer
    of numbers, one per pixel.  The canvas only contributes its width, which
    every drawing method receives as `width`; texture sampling is the host's
    and arrives as the function `sample`. */
module Raster {
  import opened Numerics
  import opened Vectors
  import opened Texels
  import opened Triangles
  import opened Colors

  /** `Texture.sampleColorAtNormalizedCoordinates`: the host's texture lookup. */
  type Sampler = (Texture, real, real) -> RGBA

  // ---------------------------------------------------------------------
  // Pixel stores
  // ---------------------------------------------------------------------

  /** One assignment to an element of a `Uint8ClampedArray`: the number is
      clamped and rounded to a byte, and an index outside the array is
      ignored. */
  function StoreByte(data: seq<Byte>, index: int, value: real): (r: seq<Byte>)
    ensures |r| == |data|
    ensures forall k | 0 <= k < |data| :: r[k] == (if k == index then ToUint8Clamp(value) else data[k])
  {
    if 0 <= index < |data| then data[index := ToUint8Clamp(value)] else data
  }

  /** The first of the four bytes `drawPixel` writes for the pixel nearest to
      (x, y). */
  function PixelIndex(width: int, x: real, y: real): int {
    4 * (width * Round(y) + Round(x))
  }

  /** `drawPixel`: red, green, blue and the separate `alpha` stored at
      `PixelIndex` and the three bytes after it. */
  function PutPixel(data: seq<Byte>, width: int, x: real, y: real, color: RGBA, alpha: real): (r: seq<Byte>)
    ensures |r| == |data|
  {
    var i := PixelIndex(width, x, y);
    StoreByte(StoreByte(StoreByte(StoreByte(data, i, color.red), i + 1, color.green), i + 2, color.blue), i + 3, alpha)
  }

  /** Byte k lies in the four bytes of the pixel nearest to (x, y). */
  predicate Touches(width: int, x: real, y: real, k: int) {
    PixelIndex(width, x, y) <= k < PixelIndex(width, x, y) + 4
  }

  /** A pixel write changes exactly its own four bytes (those inside the
      array), each to the clamped channel value. */
  lemma PutPixelWritesItsFourBytes(data: seq<Byte>, width: int, x: real, y: real, color: RGBA, alpha: real)
    ensures forall k | 0 <= k < |data| ::
      var i := PixelIndex(width, x, y);
      PutPixel(data, width, x, y, color, alpha)[k] ==
        if k == i then ToUint8Clamp(color.red)
        else if k == i + 1 then ToUint8Clamp(color.green)
        else if k == i + 2 then ToUint8Clamp(color.blue)
        else if k == i + 3 then ToUint8Clamp(alpha)
        else data[k]
  {
  }

  /** The frame condition of a pixel write. */
  lemma PutPixelFrame(data: seq<Byte>, width: int, x: real, y: real, color: RGBA, alpha: real, k: int)
    requires 0 <= k < |data| && !Touches(width, x, y, k)
    ensures PutPixel(data, width, x, y, color, alpha)[k] == data[k]
  {
  }

  /** One call of `drawPixel`. */
  datatype PixelWrite = PixelWrite(x: real, y: real, color: RGBA, alpha: real)

  /** A sequence of `drawPixel` calls, in order. */
  function Paint(data: seq<Byte>, width: int, ws: seq<PixelWrite>): (r: seq<Byte>)
    ensures |r| == |data|
  {
    if |ws| == 0 then data
    else
      var w := ws[|ws| - 1];
      PutPixel(Paint(data, width, ws[..|ws| - 1]), width, w.x, w.y, w.color, w.alpha)
  }

  /** Painting leaves every byte alone that none of the writes touches. */
  lemma {:induction false} PaintFrame(data: seq<Byte>, width: int, ws: seq<PixelWrite>, k: int)
    requires 0 <= k < |data|
    requires forall n | 0 <= n < |ws| :: !Touches(width, ws[n].x, ws[n].y, k)
    ensures Paint(data, width, ws)[k] == data[k]
    decreases |ws|
  {
    if |ws| > 0 {
      var w := ws[|ws| - 1];
      PaintFrame(data, width, ws[..|ws| - 1], k);
      PutPixelFrame(Paint(data, width, ws[..|ws| - 1]), width, w.x, w.y, w.color, w.alpha, k);
    }
  }

  /** Painting two runs of writes is painting their concatenation. */
  lemma {:induction false} PaintAppend(data: seq<Byte>, width: int, ws1: seq<PixelWrite>, ws2: seq<PixelWrite>)
    ensures Paint(Paint(data, width, ws1), width, ws2) == Paint(data, width, ws1 + ws2)
    decreases |ws2|
  {
    if |ws2| > 0 {
      assert (ws1 + ws2)[..|ws1 + ws2| - 1] == ws1 + ws2[..|ws2| - 1];
      PaintAppend(data, width, ws1, ws2[..|ws2| - 1]);
    } else {
      assert ws1 + ws2 == ws1;
    }
  }

  // ---------------------------------------------------------------------
  // Lines
  // ---------------------------------------------------------------------

  /** The number of unit steps `drawLine` takes: the longer of |dx| and |dy|. */
  function LineSteps(x0: real, y0: real, x1: real, y1: real): real {
    Max(Abs(x1 - x0), Abs(y1 - y0))
  }

  /** The pixels `drawLine` draws: it starts at (x0, y0) and moves by
      (dx, dy) / max while the step counter is below max.  A zero-length
      line divides by zero and draws nothing. */
  function LinePixels(x0: real, y0: real, x1: real, y1: real, color: RGBA): (r: seq<PixelWrite>)
  {
    var max := LineSteps(x0, y0, x1, y1);
    if max == 0.0 then [] else LinePrefix(x0, y0, x1, y1, color, Ceil(max))
  }

  /** The first n pixels of a line of non-zero length. */
  function LinePrefix(x0: real, y0: real, x1: real, y1: real, color: RGBA, n: nat): (r: seq<PixelWrite>)
    requires LineSteps(x0, y0, x1, y1) != 0.0
    ensures |r| == n
  {
    if n == 0 then [] else LinePrefix(x0, y0, x1, y1, color, n - 1) + [LinePixel(x0, y0, x1, y1, color, n - 1)]
  }

  lemma {:induction false} LinePrefixAt(x0: real, y0: real, x1: real, y1: real, color: RGBA, n: nat, k: int)
    requires LineSteps(x0, y0, x1, y1) != 0.0
    requires 0 <= k < n
    ensures LinePrefix(x0, y0, x1, y1, color, n)[k] == LinePixel(x0, y0, x1, y1, color, k)
  {
    if k < n - 1 {
      LinePrefixAt(x0, y0, x1, y1, color, n - 1, k);
    }
  }

  /** The pixel drawn after n steps of a line of non-zero length. */
  function LinePixel(x0: real, y0: real, x1: real, y1: real, color: RGBA, n: nat): PixelWrite
    requires LineSteps(x0, y0, x1, y1) != 0.0
  {
    var max := LineSteps(x0, y0, x1, y1);
    PixelWrite(Accumulate(x0, (x1 - x0) / max, n), Accumulate(y0, (y1 - y0) / max, n), color, color.alpha)
  }

  /** Painting one more pixel of a line. */
  lemma PaintLineStep(data: seq<Byte>, width: int, x0: real, y0: real, x1: real, y1: real, color: RGBA, n: nat)
    requires LineSteps(x0, y0, x1, y1) != 0.0
    ensures var max := LineSteps(x0, y0, x1, y1);
      Paint(data, width, LinePrefix(x0, y0, x1, y1, color, n + 1))
      == PutPixel(Paint(data, width, LinePrefix(x0, y0, x1, y1, color, n)), width,
           Accumulate(x0, (x1 - x0) / max, n), Accumulate(y0, (y1 - y0) / max, n), color, color.alpha)
  {
    var before := LinePrefix(x0, y0, x1, y1, color, n);
    assert LinePrefix(x0, y0, x1, y1, color, n + 1)[..n] == before;
  }

  /** A line draws ceil(max(|dx|, |dy|)) pixels, the first at (x0, y0); a
      zero-length line draws nothing. */
  lemma LinePixelCount(x0: real, y0: real, x1: real, y1: real, color: RGBA)
    ensures var max := LineSteps(x0, y0, x1, y1);
      |LinePixels(x0, y0, x1, y1, color)| == if max == 0.0 then 0 else Ceil(max)
    ensures x0 == x1 && y0 == y1 ==> LinePixels(x0, y0, x1, y1, color) == []
    ensures LineSteps(x0, y0, x1, y1) > 0.0 ==>
      var first := LinePixels(x0, y0, x1, y1, color)[0];
      first.x == x0 && first.y == y0 && first.color == color && first.alpha == color.alpha
  {
    if LineSteps(x0, y0, x1, y1) > 0.0 {
      LinePrefixAt(x0, y0, x1, y1, color, Ceil(LineSteps(x0, y0, x1, y1)), 0);
    }
  }

  /** The n-th pixel of a line lies at the fraction n / max of the way from
      (x0, y0) to (x1, y1), and that fraction is below 1: the endpoint itself
      is never drawn. */
  lemma LinePixelOnSegment(x0: real, y0: real, x1: real, y1: real, color: RGBA, n: int)
    requires 0 <= n < |LinePixels(x0, y0, x1, y1, color)|
    ensures var p := LinePixels(x0, y0, x1, y1, color)[n];
      var f := n as real / LineSteps(x0, y0, x1, y1);
      && 0.0 <= f < 1.0
      && p.x == x0 + f * (x1 - x0) && p.y == y0 + f * (y1 - y0)
      && p.color == color && p.alpha == color.alpha
  {
    var max := LineSteps(x0, y0, x1, y1);
    LinePrefixAt(x0, y0, x1, y1, color, Ceil(max), n);
    assert n as real < max;
    FractionBelowOne(n as real, max);
    StepIsFraction(x0, x1, max, n);
    StepIsFraction(y0, y1, max, n);
  }

  /** n steps of (b - a) / max from a reach the fraction n / max of the way to b. */
  lemma StepIsFraction(a: real, b: real, max: real, n: nat)
    requires max != 0.0
    ensures Accumulate(a, (b - a) / max, n) == a + (n as real / max) * (b - a)
  {
    AccumulateIsLinear(a, (b - a) / max, n);
    ScaleStep(n as real, b - a, max);
  }

  /** The step counter of `drawLine` runs from 0 to ceil(max): while it is
      below max it is below ceil(max), and once it reaches max it is ceil(max). */
  lemma StepCount(max: real, n: int)
    requires 0.0 <= max && 0 <= n <= (if max == 0.0 then 0 else Ceil(max))
    ensures n as real < max ==> max != 0.0 && n < Ceil(max)
    ensures max != 0.0 && !(n as real < max) ==> n == Ceil(max)
  {
  }

  lemma FractionBelowOne(a: real, b: real)
    requires 0.0 <= a < b
    ensures 0.0 <= a / b < 1.0
  {
  }

  lemma ScaleStep(n: real, d: real, max: real)
    requires max != 0.0
    ensures n * (d / max) == (n / max) * d
  {
  }

  // ---------------------------------------------------------------------
  // Barycentric fill
  // ---------------------------------------------------------------------

  /** Everything `rasterizeTriangle` reads besides the image. */
  datatype FillJob = FillJob(width: int, tri: Tri, material: Material, texturing: bool, sample: Sampler)

  function Min3(a: real, b: real, c: real): real { Min(a, Min(b, c)) }

  function Max3(a: real, b: real, c: real): real { Max(a, Max(b, c)) }

  /** The integer bounding box of the triangle's screen coordinates. */
  function MinX(tri: Tri): int { Floor(Min3(tri.v1.x, tri.v2.x, tri.v3.x)) }
  function MaxX(tri: Tri): int { Ceil(Max3(tri.v1.x, tri.v2.x, tri.v3.x)) }
  function MinY(tri: Tri): int { Floor(Min3(tri.v1.y, tri.v2.y, tri.v3.y)) }
  function MaxY(tri: Tri): int { Ceil(Max3(tri.v1.y, tri.v2.y, tri.v3.y)) }

  lemma BoxIsNonEmpty(tri: Tri)
    ensures MinX(tri) <= MaxX(tri) && MinY(tri) <= MaxY(tri)
  {
  }

  /** The denominator shared by the barycentric weights. */
  function Denominator(tri: Tri): real {
    (tri.v2.y - tri.v3.y) * (tri.v1.x - tri.v3.x) + (tri.v3.x - tri.v2.x) * (tri.v1.y - tri.v3.y)
  }

  datatype Weights = Weights(l1: real, l2: real, l3: real)

  /** The barycentric weights of the point (x, y). */
  function Barycentric(tri: Tri, x: real, y: real): (r: Weights)
    requires Denominator(tri) != 0.0
    ensures r.l1 + r.l2 + r.l3 == 1.0
  {
    var v1, v2, v3 := tri.v1, tri.v2, tri.v3;
    var den := Denominator(tri);
    var l1 := ((v2.y - v3.y) * (x - v3.x) + (v3.x - v2.x) * (y - v3.y)) / den;
    var l2 := ((v3.y - v1.y) * (x - v3.x) + (v1.x - v3.x) * (y - v3.y)) / den;
    Weights(l1, l2, 1.0 - l1 - l2)
  }

  /** The inside test: all three weights at least 0.  When the denominator
      is 0 the TypeScript's weights are IEEE infinities or NaN: a NaN fails the
      test, and if l1 and l2 are both +Infinity then l3 is -Infinity, so no
      pixel of a degenerate triangle passes. */
  predicate Covers(tri: Tri, x: real, y: real) {
    Denominator(tri) != 0.0 &&
    var w := Barycentric(tri, x, y);
    w.l1 >= 0.0 && w.l2 >= 0.0 && w.l3 >= 0.0
  }

  /** What `rasterizeTriangle` draws at a covered pixel: the sampled texel
      tinted by the material colour and the light intensity when texturing
      is on and the material has a texture, otherwise the material colour
      times the intensity, with the material's alpha. */
  function FillPixel(job: FillJob, x: real, y: real): PixelWrite
    requires Covers(job.tri, x, y)
  {
    Shade(job, x, y, Barycentric(job.tri, x, y))
  }

  /** The weighted sum of three per-vertex values. */
  function Interpolate(w: Weights, a: real, b: real, c: real): real {
    w.l1 * a + w.l2 * b + w.l3 * c
  }

  /** A sampled colour tinted by the material colour (as a fraction of 255)
      and the light intensity; alpha is set to 255. */
  function Tint(c: RGBA, mc: RGBA, intensity: real): RGBA {
    RGBA(c.red * (mc.red / 255.0) * intensity, c.green * (mc.green / 255.0) * intensity,
      c.blue * (mc.blue / 255.0) * intensity, 255.0)
  }

  /** The texel colour at the weights w. */
  function TexelColour(job: FillJob, w: Weights): RGBA
    requires job.material.texture.Some?
  {
    var tri := job.tri;
    job.sample(job.material.texture.value, Interpolate(w, tri.t1.u, tri.t2.u, tri.t3.u), Interpolate(w, tri.t1.v, tri.t2.v, tri.t3.v))
  }

  /** The pixel drawn at (x, y) given its barycentric weights. */
  function Shade(job: FillJob, x: real, y: real, w: Weights): PixelWrite {
    var mc := job.material.color;
    var intensity := job.tri.intensity;
    if job.texturing && job.material.texture.Some? then
      PixelWrite(x, y, Tint(TexelColour(job, w), mc, intensity), TexelColour(job, w).alpha)
    else
      PixelWrite(x, y, RGBA(mc.red * intensity, mc.green * intensity, mc.blue * intensity, 255.0), mc.alpha)
  }

  /** One pixel of the bounding box. */
  function FillCell(data: seq<Byte>, job: FillJob, x: int, y: int): (r: seq<Byte>)
    ensures |r| == |data|
  {
    if Covers(job.tri, x as real, y as real) then
      var p := FillPixel(job, x as real, y as real);
      PutPixel(data, job.width, p.x, p.y, p.color, p.alpha)
    else data
  }

  /** The first n pixels of row y, from x = minX. */
  function FillRow(data: seq<Byte>, job: FillJob, y: int, minX: int, n: nat): (r: seq<Byte>)
    ensures |r| == |data|
  {
    if n == 0 then data else FillCell(FillRow(data, job, y, minX, n - 1), job, minX + n - 1, y)
  }

  /** The first m rows of the box, from y = minY, each `cols` pixels wide. */
  function FillRows(data: seq<Byte>, job: FillJob, minY: int, m: nat, minX: int, cols: nat): (r: seq<Byte>)
    ensures |r| == |data|
  {
    if m == 0 then data else FillRow(FillRows(data, job, minY, m - 1, minX, cols), job, minY + m - 1, minX, cols)
  }

  /** The whole bounding box, row by row. */
  function FillBox(data: seq<Byte>, job: FillJob): (r: seq<Byte>)
    ensures |r| == |data|
  {
    var tri := job.tri;
    BoxIsNonEmpty(tri);
    FillRows(data, job, MinY(tri), MaxY(tri) - MinY(tri) + 1, MinX(tri), MaxX(tri) - MinX(tri) + 1)
  }

  /** `rasterizeTriangle`: the box fill when the mesh is drawn, then the
      wireframe when the material asks for one. */
  function Rasterized(data: seq<Byte>, job: FillJob, drawMeshEnabled: bool): (r: seq<Byte>)
    ensures |r| == |data|
  {
    var filled := if drawMeshEnabled then FillBox(data, job) else data;
    if job.material.wireframe then Paint(filled, job.width, WireframePixels(job.tri, job.material.wireframeColor))
    else filled
  }

  /** The covered pixel (x, y) of the box owns byte k. */
  predicate FillTouches(job: FillJob, x: int, y: int, k: int) {
    Covers(job.tri, x as real, y as real) && Touches(job.width, x as real, y as real, k)
  }

  /** Byte k belongs to no covered pixel of rows minY .. minY + m - 1 and
      columns minX .. minX + cols - 1. */
  predicate Untouched(job: FillJob, minY: int, m: nat, minX: int, cols: nat, k: int) {
    forall x: int, y: int | minX <= x < minX + cols && minY <= y < minY + m :: !FillTouches(job, x, y, k)
  }

  lemma FillCellFrame(data: seq<Byte>, job: FillJob, x: int, y: int, k: int)
    requires 0 <= k < |data|
    requires !FillTouches(job, x, y, k)
    ensures FillCell(data, job, x, y)[k] == data[k]
  {
    if Covers(job.tri, x as real, y as real) {
      var p := FillPixel(job, x as real, y as real);
      assert p.x == x as real && p.y == y as real;
      PutPixelFrame(data, job.width, p.x, p.y, p.color, p.alpha, k);
    }
  }

  lemma {:induction false} FillRowFrame(data: seq<Byte>, job: FillJob, y: int, minX: int, n: nat, k: int)
    requires 0 <= k < |data|
    requires forall x: int | minX <= x < minX + n :: !FillTouches(job, x, y, k)
    ensures FillRow(data, job, y, minX, n)[k] == data[k]
  {
    if n > 0 {
      FillRowFrame(data, job, y, minX, n - 1, k);
      FillCellFrame(FillRow(data, job, y, minX, n - 1), job, minX + n - 1, y, k);
    }
  }

  lemma {:induction false} FillRowsFrame(data: seq<Byte>, job: FillJob, minY: int, m: nat, minX: int, cols: nat, k: int)
    requires 0 <= k < |data|
    requires Untouched(job, minY, m, minX, cols, k)
    ensures FillRows(data, job, minY, m, minX, cols)[k] == data[k]
  {
    if m > 0 {
      FillRowsFrame(data, job, minY, m - 1, minX, cols, k);
      FillRowFrame(FillRows(data, job, minY, m - 1, minX, cols), job, minY + m - 1, minX, cols, k);
    }
  }

  /** The box fill changes only bytes of bounding-box pixels whose three
      barycentric weights are all at least 0. */
  lemma FillWritesOnlyCoveredPixels(data: seq<Byte>, job: FillJob, k: int)
    requires 0 <= k < |data|
    requires forall x: int, y: int | MinX(job.tri) <= x <= MaxX(job.tri) && MinY(job.tri) <= y <= MaxY(job.tri) ::
      !FillTouches(job, x, y, k)
    ensures FillBox(data, job)[k] == data[k]
  {
    var tri := job.tri;
    BoxIsNonEmpty(tri);
    FillRowsFrame(data, job, MinY(tri), MaxY(tri) - MinY(tri) + 1, MinX(tri), MaxX(tri) - MinX(tri) + 1, k);
  }

  /** A degenerate triangle (zero barycentric denominator) fills nothing. */
  lemma DegenerateTriangleFillsNothing(data: seq<Byte>, job: FillJob)
    requires Denominator(job.tri) == 0.0
    ensures FillBox(data, job) == data
  {
    forall k | 0 <= k < |data|
      ensures FillBox(data, job)[k] == data[k]
    {
      FillWritesOnlyCoveredPixels(data, job, k);
    }
  }

  /** Without texturing the fill colour is the material colour scaled by the
      light intensity, and the sampler is never consulted. */
  lemma FlatFillColour(job: FillJob, x: real, y: real, other: Sampler)
    requires Covers(job.tri, x, y)
    requires !job.texturing || job.material.texture.None?
    ensures var mc := job.material.color;
      var i := job.tri.intensity;
      FillPixel(job, x, y) == PixelWrite(x, y, RGBA(mc.red * i, mc.green * i, mc.blue * i, 255.0), mc.alpha)
    ensures FillPixel(job, x, y) == FillPixel(job.(sample := other), x, y)
  {
  }

  /** Without the mesh, only the wireframe is drawn, and only when the
      material has one. */
  lemma WithoutMeshOnlyWireframe(data: seq<Byte>, job: FillJob)
    ensures !job.material.wireframe ==> Rasterized(data, job, false) == data
    ensures job.material.wireframe ==>
      Rasterized(data, job, false) == Paint(data, job.width, WireframePixels(job.tri, job.material.wireframeColor))
  {
  }

  // ---------------------------------------------------------------------
  // Perspective-correct texturing
  // ---------------------------------------------------------------------

  /** A corner of the triangle as `textureTrianglePerspectiveCorrect` reads
      it: screen position and the texel's u, v and w. */
  datatype Corner = Corner(x: real, y: real, u: real, v: real, w: real)

  /** The values interpolated along an edge (x, u, v, w), or their change
      per unit step in y. */
  datatype Attrs = Attrs(x: real, u: real, v: real, w: real)

  function CornerOf(p: Vec3, t: Texel): Corner {
    Corner(p.x, p.y, t.u, t.v, t.w)
  }

  /** The three compare-and-swaps that order the corners by y (first 1 and
      2, then 1 and 3, then 2 and 3). */
  function SortByY(c1: Corner, c2: Corner, c3: Corner): (r: (Corner, Corner, Corner))
    ensures r.0.y <= r.1.y <= r.2.y
    ensures multiset{r.0, r.1, r.2} == multiset{c1, c2, c3}
  {
    var (a1, a2) := if c2.y < c1.y then (c2, c1) else (c1, c2);
    var (b1, a3) := if c3.y < a1.y then (c3, a1) else (a1, c3);
    var (b2, b3) := if a3.y < a2.y then (a3, a2) else (a2, a3);
    (b1, b2, b3)
  }

  /** The per-row change of x, u, v and w from `from` to `to`: the
      differences divided by |dy|, or all 0 when dy is 0. */
  function EdgeStep(from: Corner, to: Corner): Attrs {
    var dy := to.y - from.y;
    if dy != 0.0 then
      var k := Abs(dy);
      Attrs((to.x - from.x) / k, (to.u - from.u) / k, (to.v - from.v) / k, (to.w - from.w) / k)
    else Attrs(0.0, 0.0, 0.0, 0.0)
  }

  /** The edge that starts at `base` and changes by `step` per row, at row y. */
  function Along(base: Corner, step: Attrs, y: real): Attrs {
    var d := y - base.y;
    Attrs(base.x + d * step.x, base.u + d * step.u, base.v + d * step.v, base.w + d * step.w)
  }

  /** One half of the scan: the rows from `top` to `bottom` (stepping by 1
      from `top`), scanned only when `enabled`, between the edge a (from
      `aBase`) and the edge b (from `bBase`). */
  datatype Half = Half(top: real, bottom: real, enabled: bool, aBase: Corner, aStep: Attrs, bBase: Corner, bStep: Attrs)

  /** The upper half: rows y1 .. y2, between the edges 1-2 and 1-3. */
  function FirstHalf(c1: Corner, c2: Corner, c3: Corner): Half {
    Half(c1.y, c2.y, c2.y - c1.y != 0.0, c1, EdgeStep(c1, c2), c1, EdgeStep(c1, c3))
  }

  /** The lower half: rows y2 .. y3, between the edges 2-3 and 1-3. */
  function SecondHalf(c1: Corner, c2: Corner, c3: Corner): Half {
    Half(c2.y, c3.y, c3.y - c2.y != 0.0, c2, EdgeStep(c2, c3), c1, EdgeStep(c1, c3))
  }

  /** Row top + n passes the loop test `i <= bottom` of an enabled half. */
  predicate RowInHalf(h: Half, n: nat) {
    h.enabled && h.top + n as real <= h.bottom
  }

  /** How many times `for (i = top; i <= bottom; i++)` runs. */
  function RowCount(h: Half): (r: nat)
    ensures forall n: nat :: n < r <==> RowInHalf(h, n)
  {
    if h.enabled && h.top <= h.bottom then Floor(h.bottom - h.top) + 1 else 0
  }

  /** A scan line: start s and end e, with s.x <= e.x. */
  datatype Span = Span(s: Attrs, e: Attrs)

  /** The span of row y between the edge a (from aBase) and the edge b
      (from bBase), the two ends swapped when a lies right of b. */
  function EdgeSpan(aBase: Corner, aStep: Attrs, bBase: Corner, bStep: Attrs, y: real): (r: Span)
    ensures r.s.x <= r.e.x
    ensures {r.s, r.e} == {Along(aBase, aStep, y), Along(bBase, bStep, y)}
  {
    var a := Along(aBase, aStep, y);
    var b := Along(bBase, bStep, y);
    if a.x > b.x then Span(b, a) else Span(a, b)
  }

  /** The span of row y of a half. */
  function SpanAt(h: Half, y: real): Span {
    EdgeSpan(h.aBase, h.aStep, h.bBase, h.bStep, y)
  }

  /** Column s.x + k passes the loop test `j < e.x`. */
  predicate ColumnInSpan(sp: Span, k: nat) {
    sp.s.x + k as real < sp.e.x
  }

  /** How many times `for (j = s.x; j < e.x; j++)` runs. */
  function SpanLength(sp: Span): (r: nat)
    ensures forall k: nat :: k < r <==> ColumnInSpan(sp, k)
  {
    if sp.s.x < sp.e.x then Ceil(sp.e.x - sp.s.x) else 0
  }

  /** `tstep`; with s.x = e.x the TypeScript divides by zero, but then the span
      has no fragment. */
  function TStep(sp: Span): real {
    if sp.e.x - sp.s.x != 0.0 then 1.0 / (sp.e.x - sp.s.x) else 0.0
  }

  function Lerp(t: real, a: real, b: real): real {
    (1.0 - t) * a + t * b
  }

  /** Everything the textured scan reads besides the buffers. */
  datatype Shading = Shading(width: int, texture: Texture, materialColor: RGBA, intensity: real, sample: Sampler)

  /** The perspective divide of a texture coordinate.  With w = 0 the TypeScript
      passes an IEEE infinity or NaN to the sampler; here the coordinate is 0
      (`TexturedWritesHaveVisibleDepth` shows that such a fragment is never
      drawn while the depth buffer holds no negative value). */
  function PerspectiveDivide(a: real, w: real): real {
    if w != 0.0 then a / w else 0.0
  }

  /** The image bytes and the depth buffer together. */
  datatype Frame = Frame(image: seq<Byte>, depth: seq<real>)

  predicate IsIntegral(x: real) {
    x.Floor as real == x
  }

  /** The depth test: the buffer element at floor(y * width + x) exists and
      lies behind w.  A missing element reads as `undefined`, and a
      comparison with `undefined` is false. */
  predicate Visible(f: Frame, width: int, x: real, y: real, w: real) {
    var index := Floor(y * width as real + x);
    0 <= index < |f.depth| && w > f.depth[index]
  }

  /** One fragment (x, y) with interpolated u, v, w: when it passes the
      depth test, the sampled texel tinted by the material colour and the
      light intensity is drawn, and w is stored at y * width + x; that store
      only reaches an element of the depth array when the key is an
      integer (a fractional key names a plain property). */
  function Fragment(f: Frame, sh: Shading, x: real, y: real, u: real, v: real, w: real): (r: Frame)
    ensures |r.image| == |f.image|
    ensures r.depth == FragmentDepth(f, sh.width, x, y, w)
  {
    if Visible(f, sh.width, x, y, w) then
      var c := sh.sample(sh.texture, PerspectiveDivide(u, w), PerspectiveDivide(v, w));
      var image := PutPixel(f.image, sh.width, x, y, Tint(c, sh.materialColor, sh.intensity), c.alpha);
      Frame(image, FragmentDepth(f, sh.width, x, y, w))
    else f
  }

  /** The depth buffer after one fragment, which the sampled colour does not
      affect. */
  function FragmentDepth(f: Frame, width: int, x: real, y: real, w: real): (r: seq<real>)
    ensures |r| == |f.depth|
  {
    var key := y * width as real + x;
    if Visible(f, width, x, y, w) && IsIntegral(key) then f.depth[key.Floor := w] else f.depth
  }

  /** The k-th fragment of the span on row y: x = s.x + k and t = k * tstep,
      accumulated one `t += tstep` at a time. */
  function SpanFragment(f: Frame, sh: Shading, y: real, sp: Span, k: nat): Frame {
    var t := Accumulate(0.0, TStep(sp), k);
    Fragment(f, sh, sp.s.x + k as real, y, Lerp(t, sp.s.u, sp.e.u), Lerp(t, sp.s.v, sp.e.v), Lerp(t, sp.s.w, sp.e.w))
  }

  /** The first n fragments of the span. */
  function SpanFrame(f: Frame, sh: Shading, y: real, sp: Span, n: nat): (r: Frame)
    ensures |r.image| == |f.image| && |r.depth| == |f.depth|
  {
    if n == 0 then f else SpanFragment(SpanFrame(f, sh, y, sp, n - 1), sh, y, sp, n - 1)
  }

  lemma SpanFrameStep(f: Frame, sh: Shading, y: real, sp: Span, k: nat, t: real)
    requires t == Accumulate(0.0, TStep(sp), k)
    ensures SpanFrame(f, sh, y, sp, k + 1)
      == Fragment(SpanFrame(f, sh, y, sp, k), sh, sp.s.x + k as real, y, Lerp(t, sp.s.u, sp.e.u), Lerp(t, sp.s.v, sp.e.v), Lerp(t, sp.s.w, sp.e.w))
  {
  }

  /** The first n rows of a half. */
  function HalfFrame(f: Frame, sh: Shading, h: Half, n: nat): (r: Frame)
    ensures |r.image| == |f.image| && |r.depth| == |f.depth|
  {
    if n == 0 then f
    else
      var y := h.top + (n - 1) as real;
      var sp := SpanAt(h, y);
      SpanFrame(HalfFrame(f, sh, h, n - 1), sh, y, sp, SpanLength(sp))
  }

  /** `textureTrianglePerspectiveCorrect`: the corners sorted by y, then the
      upper half and the lower half. */
  function Textured(f: Frame, sh: Shading, tri: Tri): (r: Frame)
    ensures |r.image| == |f.image| && |r.depth| == |f.depth|
  {
    var (c1, c2, c3) := SortByY(CornerOf(tri.v1, tri.t1), CornerOf(tri.v2, tri.t2), CornerOf(tri.v3, tri.t3));
    var upper := FirstHalf(c1, c2, c3);
    var lower := SecondHalf(c1, c2, c3);
    HalfFrame(HalfFrame(f, sh, upper, RowCount(upper)), sh, lower, RowCount(lower))
  }

  // ---- properties of the textured scan ----

  /** Following an edge's step from its first corner for (to.y - from.y)
      rows lands on its second corner, in x, u, v and w alike. */
  lemma EdgeReachesItsEnd(from: Corner, to: Corner)
    requires from.y < to.y
    ensures Along(from, EdgeStep(from, to), to.y) == Attrs(to.x, to.u, to.v, to.w)
  {
    var k := to.y - from.y;
    assert Abs(k) == k;
    DivMul(to.x - from.x, k);
    DivMul(to.u - from.u, k);
    DivMul(to.v - from.v, k);
    DivMul(to.w - from.w, k);
  }

  /** Fragment k of a span (k below the fragment count) has interpolation
      parameter t = k * tstep in [0, 1): the interpolated values lie on the
      segment from the span's start towards its end. */
  lemma SpanParameterInRange(sp: Span, k: nat)
    requires k < SpanLength(sp)
    ensures 0.0 <= Accumulate(0.0, TStep(sp), k) < 1.0
  {
    assert ColumnInSpan(sp, k);
    var d := sp.e.x - sp.s.x;
    AccumulateIsLinear(0.0, TStep(sp), k);
    assert TStep(sp) == 1.0 / d;
    assert k as real * (1.0 / d) == k as real / d;
    assert k as real < d;
  }

  /** The depth test decides everything: a fragment that fails it leaves
      both buffers alone; one that passes stores its w at the checked index
      exactly when y * width + x is an integer, and leaves every other depth
      element alone. */
  lemma FragmentDepthTest(f: Frame, sh: Shading, x: real, y: real, u: real, v: real, w: real)
    ensures !Visible(f, sh.width, x, y, w) ==> Fragment(f, sh, x, y, u, v, w) == f
    ensures var r := FragmentDepth(f, sh.width, x, y, w);
      var index := Floor(y * sh.width as real + x);
      forall k | 0 <= k < |f.depth| && k != index :: r[k] == f.depth[k]
    ensures var r := FragmentDepth(f, sh.width, x, y, w);
      var index := Floor(y * sh.width as real + x);
      Visible(f, sh.width, x, y, w) ==>
        r[index] == (if IsIntegral(y * sh.width as real + x) then w else f.depth[index])
  {
  }

  /** No depth element ever moves away from the viewer: each one only grows. */
  predicate NoCloser(before: seq<real>, after: seq<real>) {
    |after| == |before| && forall k | 0 <= k < |before| :: before[k] <= after[k]
  }

  lemma NoCloserTransitive(a: seq<real>, b: seq<real>, c: seq<real>)
    requires NoCloser(a, b) && NoCloser(b, c)
    ensures NoCloser(a, c)
  {
  }

  lemma FragmentNoCloser(f: Frame, sh: Shading, x: real, y: real, u: real, v: real, w: real)
    ensures NoCloser(f.depth, Fragment(f, sh, x, y, u, v, w).depth)
  {
    FragmentDepthTest(f, sh, x, y, u, v, w);
  }

  lemma {:induction false} SpanFrameNoCloser(f: Frame, sh: Shading, y: real, sp: Span, n: nat)
    ensures NoCloser(f.depth, SpanFrame(f, sh, y, sp, n).depth)
  {
    if n > 0 {
      var prev := SpanFrame(f, sh, y, sp, n - 1);
      SpanFrameNoCloser(f, sh, y, sp, n - 1);
      var t := Accumulate(0.0, TStep(sp), n - 1);
      FragmentNoCloser(prev, sh, sp.s.x + (n - 1) as real, y, Lerp(t, sp.s.u, sp.e.u), Lerp(t, sp.s.v, sp.e.v), Lerp(t, sp.s.w, sp.e.w));
      NoCloserTransitive(f.depth, prev.depth, SpanFrame(f, sh, y, sp, n).depth);
    }
  }

  lemma {:induction false} HalfFrameNoCloser(f: Frame, sh: Shading, h: Half, n: nat)
    ensures NoCloser(f.depth, HalfFrame(f, sh, h, n).depth)
  {
    if n > 0 {
      var prev := HalfFrame(f, sh, h, n - 1);
      HalfFrameNoCloser(f, sh, h, n - 1);
      var y := h.top + (n - 1) as real;
      SpanFrameNoCloser(prev, sh, y, SpanAt(h, y), SpanLength(SpanAt(h, y)));
      NoCloserTransitive(f.depth, prev.depth, HalfFrame(f, sh, h, n).depth);
    }
  }

  /** A textured triangle only ever raises depth values (the depth test
      admits a fragment only with a larger w), so the depth buffer is a
      running maximum. */
  lemma TexturedDepthNeverDecreases(f: Frame, sh: Shading, tri: Tri)
    ensures NoCloser(f.depth, Textured(f, sh, tri).depth)
  {
    var (c1, c2, c3) := SortByY(CornerOf(tri.v1, tri.t1), CornerOf(tri.v2, tri.t2), CornerOf(tri.v3, tri.t3));
    var upper := FirstHalf(c1, c2, c3);
    var lower := SecondHalf(c1, c2, c3);
    var mid := HalfFrame(f, sh, upper, RowCount(upper));
    HalfFrameNoCloser(f, sh, upper, RowCount(upper));
    HalfFrameNoCloser(mid, sh, lower, RowCount(lower));
    NoCloserTransitive(f.depth, mid.depth, Textured(f, sh, tri).depth);
  }

  predicate NonNegative(depth: seq<real>) {
    forall k | 0 <= k < |depth| :: depth[k] >= 0.0
  }

  /** While the depth buffer holds no negative value (it starts filled with
      0), a fragment that passes the depth test has w > 0, so its
      perspective divide u / w, v / w is defined; and the buffer keeps
      holding no negative value. */
  lemma TexturedWritesHaveVisibleDepth(f: Frame, sh: Shading, tri: Tri, x: real, y: real, w: real)
    requires NonNegative(f.depth)
    ensures Visible(f, sh.width, x, y, w) ==> w > 0.0
    ensures NonNegative(Textured(f, sh, tri).depth)
  {
    TexturedDepthNeverDecreases(f, sh, tri);
  }

  /** A triangle whose three corners share one y is scanned in neither half
      and draws nothing. */
  lemma FlatTriangleDrawsNothing(f: Frame, sh: Shading, tri: Tri)
    requires tri.v1.y == tri.v2.y == tri.v3.y
    ensures Textured(f, sh, tri) == f
  {
    var (c1, c2, c3) := SortByY(CornerOf(tri.v1, tri.t1), CornerOf(tri.v2, tri.t2), CornerOf(tri.v3, tri.t3));
    assert c1 in multiset{c1, c2, c3} && c2 in multiset{c1, c2, c3} && c3 in multiset{c1, c2, c3};
    assert c1.y == c2.y == c3.y;
  }

  // ---------------------------------------------------------------------
  // The rasterizer object
  // ---------------------------------------------------------------------

  class Rasterizer {
    /** `_imageData.data`: four bytes per pixel. */
    const imageData: array<Byte>
    /** `_depthBuffer`: one number per pixel. */
    const depthBuffer: array<real>

    /** `new TriangleRasterizer(imageData, depthBuffer)`: keeps both buffers
        (the caller's arrays, not copies). */
    constructor (imageData: array<Byte>, depthBuffer: array<real>)
      ensures this.imageData == imageData && this.depthBuffer == depthBuffer
    {
      this.imageData := imageData;
      this.depthBuffer := depthBuffer;
    }

    /** One assignment to an element of `imageData`. */
    method Store(index: int, value: real)
      modifies imageData
      ensures imageData[..] == StoreByte(old(imageData[..]), index, value)
    {
      if 0 <= index < imageData.Length {
        imageData[index] := ToUint8Clamp(value);
      }
    }

    /** `drawPixel` */
    method DrawPixel(width: int, x: real, y: real, color: RGBA, alpha: real)
      modifies imageData
      ensures imageData[..] == PutPixel(old(imageData[..]), width, x, y, color, alpha)
    {
      var roundedX := Round(x);
      var roundedY := Round(y);
      var index := 4 * (width * roundedY + roundedX);
      Store(index + 0, color.red);
      Store(index + 1, color.green);
      Store(index + 2, color.blue);
      Store(index + 3, alpha);
    }

    /** `drawLine` */
    method DrawLine(width: int, x0: real, y0: real, x1: real, y1: real, color: RGBA)
      modifies imageData
      ensures imageData[..] == Paint(old(imageData[..]), width, LinePixels(x0, y0, x1, y1, color))
    {
      var x := x1 - x0;
      var y := y1 - y0;
      var max := Max(Abs(x), Abs(y));
      // With max = 0 the TypeScript divides by zero; the loop then runs no
      // step, so the quotient is never used.
      if max != 0.0 {
        x := x / max;
        y := y / max;
      }
      LineLoop(width, x0, y0, x1, y1, x, y, max, color);
    }

    /** The loop of `drawLine`: `max` steps of (x, y) from (x0, y0), one
        pixel per step. */
    method LineLoop(width: int, x0: real, y0: real, x1: real, y1: real, x: real, y: real, max: real, color: RGBA)
      requires max == LineSteps(x0, y0, x1, y1)
      requires max != 0.0 ==> x == (x1 - x0) / max && y == (y1 - y0) / max
      modifies imageData
      ensures imageData[..] == Paint(old(imageData[..]), width, LinePixels(x0, y0, x1, y1, color))
    {
      ghost var count := if max == 0.0 then 0 else Ceil(max);
      var px, py := x0, y0;
      var n := 0;
      while n as real < max
        invariant 0 <= n <= count
        invariant px == Accumulate(x0, x, n) && py == Accumulate(y0, y, n)
        invariant max != 0.0 ==> imageData[..] == Paint(old(imageData[..]), width, LinePrefix(x0, y0, x1, y1, color, n))
        invariant max == 0.0 ==> imageData[..] == old(imageData[..])
        decreases count - n
      {
        StepCount(max, n);
        LineStep(width, x0, y0, x1, y1, px, py, color, old(imageData[..]), n);
        px := px + x;
        py := py + y;
        n := n + 1;
      }
      if max != 0.0 {
        StepCount(max, n);
      }
    }

    /** One turn of `drawLine`'s loop: the pixel at step n. */
    method LineStep(width: int, x0: real, y0: real, x1: real, y1: real, px: real, py: real, color: RGBA,
                    ghost start: seq<Byte>, ghost n: nat)
      requires LineSteps(x0, y0, x1, y1) != 0.0
      requires px == Accumulate(x0, (x1 - x0) / LineSteps(x0, y0, x1, y1), n)
      requires py == Accumulate(y0, (y1 - y0) / LineSteps(x0, y0, x1, y1), n)
      requires imageData[..] == Paint(start, width, LinePrefix(x0, y0, x1, y1, color, n))
      modifies imageData
      ensures imageData[..] == Paint(start, width, LinePrefix(x0, y0, x1, y1, color, n + 1))
    {
      PaintLineStep(start, width, x0, y0, x1, y1, color, n);
      DrawPixel(width, px, py, color, color.alpha);
    }

    /** `rasterizeTriangle`.  It only writes image bytes: the depth buffer is
        never touched. */
    method RasterizeTriangle(width: int, tri: Tri, material: Material, drawMeshEnabled: bool,
                             textureMappingEnabled: bool, sample: Sampler)
      modifies imageData
      ensures imageData[..] == Rasterized(old(imageData[..]), FillJob(width, tri, material, textureMappingEnabled, sample), drawMeshEnabled)
      ensures depthBuffer[..] == old(depthBuffer[..])
    {
      ghost var job := FillJob(width, tri, material, textureMappingEnabled, sample);
      if drawMeshEnabled {
        var v1, v2, v3 := tri.v1, tri.v2, tri.v3;
        var minX := Floor(Min3(v1.x, v2.x, v3.x));
        var maxX := Ceil(Max3(v1.x, v2.x, v3.x));
        var minY := Floor(Min3(v1.y, v2.y, v3.y));
        var maxY := Ceil(Max3(v1.y, v2.y, v3.y));
        BoxIsNonEmpty(tri);
        ghost var cols := maxX - minX + 1;
        var y := minY;
        while y <= maxY
          invariant minY <= y <= maxY + 1
          invariant imageData[..] == FillRows(old(imageData[..]), job, minY, y - minY, minX, cols)
        {
          ghost var rowStart := imageData[..];
          var x := minX;
          while x <= maxX
            invariant minX <= x <= maxX + 1
            invariant imageData[..] == FillRow(rowStart, job, y, minX, x - minX)
          {
            FillPixelAt(width, tri, material, textureMappingEnabled, sample, x, y);
            x := x + 1;
          }
          y := y + 1;
        }
      }
      if material.wireframe {
        DrawWireframe(width, tri, material);
      }
    }

    /** The body of the box loops in `rasterizeTriangle`: the inside test and
        the pixel write for the pixel (x, y). */
    method FillPixelAt(width: int, tri: Tri, material: Material, textureMappingEnabled: bool, sample: Sampler, x: int, y: int)
      modifies imageData
      ensures imageData[..] == FillCell(old(imageData[..]), FillJob(width, tri, material, textureMappingEnabled, sample), x, y)
    {
      ghost var job := FillJob(width, tri, material, textureMappingEnabled, sample);
      var v1, v2, v3 := tri.v1, tri.v2, tri.v3;
      var materialColor := material.color;
      var denominator := (v2.y - v3.y) * (v1.x - v3.x) + (v3.x - v2.x) * (v1.y - v3.y);
      assert denominator == Denominator(tri);
      // A zero denominator makes the weights IEEE infinities or NaN,
      // which never pass the inside test (see `Covers`).
      if denominator != 0.0 {
        var lambda1 := ((v2.y - v3.y) * (x as real - v3.x) + (v3.x - v2.x) * (y as real - v3.y)) / denominator;
        var lambda2 := ((v3.y - v1.y) * (x as real - v3.x) + (v1.x - v3.x) * (y as real - v3.y)) / denominator;
        var lambda3 := 1.0 - lambda1 - lambda2;
        var weights := Weights(lambda1, lambda2, lambda3);
        assert Barycentric(tri, x as real, y as real) == weights;
        if lambda1 >= 0.0 && lambda2 >= 0.0 && lambda3 >= 0.0 {
          assert Covers(tri, x as real, y as real);
          DrawShaded(width, tri, material, textureMappingEnabled, sample, x as real, y as real, weights);
        } else {
          assert !Covers(tri, x as real, y as real);
        }
      } else {
        assert !Covers(tri, x as real, y as real);
      }
    }

    /** The pixel write of the box loops for a covered pixel, given its
        weights: the textured or the flat colour. */
    method DrawShaded(width: int, tri: Tri, material: Material, textureMappingEnabled: bool, sample: Sampler,
                      x: real, y: real, w: Weights)
      modifies imageData
      ensures var p := Shade(FillJob(width, tri, material, textureMappingEnabled, sample), x, y, w);
        imageData[..] == PutPixel(old(imageData[..]), width, p.x, p.y, p.color, p.alpha)
    {
      ghost var job := FillJob(width, tri, material, textureMappingEnabled, sample);
      var materialColor := material.color;
      if textureMappingEnabled && material.texture.Some? {
        var u := w.l1 * tri.t1.u + w.l2 * tri.t2.u + w.l3 * tri.t3.u;
        var v := w.l1 * tri.t1.v + w.l2 * tri.t2.v + w.l3 * tri.t3.v;
        var color := sample(material.texture.value, u, v);
        var red := color.red * (materialColor.red / 255.0) * tri.intensity;
        var green := color.green * (materialColor.green / 255.0) * tri.intensity;
        var blue := color.blue * (materialColor.blue / 255.0) * tri.intensity;
        assert u == Interpolate(w, job.tri.t1.u, job.tri.t2.u, job.tri.t3.u);
        assert v == Interpolate(w, job.tri.t1.v, job.tri.t2.v, job.tri.t3.v);
        assert color == TexelColour(job, w);
        assert Shade(job, x, y, w) == PixelWrite(x, y, RGBA(red, green, blue, 255.0), color.alpha);
        DrawPixel(width, x, y, RGBA(red, green, blue, 255.0), color.alpha);
      } else {
        var red := materialColor.red * tri.intensity;
        var green := materialColor.green * tri.intensity;
        var blue := materialColor.blue * tri.intensity;
        assert Shade(job, x, y, w) == PixelWrite(x, y, RGBA(red, green, blue, 255.0), materialColor.alpha);
        DrawPixel(width, x, y, RGBA(red, green, blue, 255.0), materialColor.alpha);
      }
    }

    /** One fragment of `textureTrianglePerspectiveCorrect`'s inner loops:
        the depth test at floor(y * width + x), then the tinted texel and the
        depth store. */
    method DrawFragment(width: int, x: real, y: real, u: real, v: real, w: real,
                        tex: Texture, materialColor: RGBA, intensity: real, sample: Sampler)
      modifies imageData, depthBuffer
      ensures Frame(imageData[..], depthBuffer[..])
        == Fragment(Frame(old(imageData[..]), old(depthBuffer[..])), Shading(width, tex, materialColor, intensity, sample), x, y, u, v, w)
    {
      ghost var sh := Shading(width, tex, materialColor, intensity, sample);
      ghost var before := Frame(imageData[..], depthBuffer[..]);
      var index := Floor(y * width as real + x);
      if 0 <= index < depthBuffer.Length && w > depthBuffer[index] {
        assert Visible(before, width, x, y, w);
        var color := sample(tex, PerspectiveDivide(u, w), PerspectiveDivide(v, w));
        var red := color.red * (materialColor.red / 255.0) * intensity;
        var green := color.green * (materialColor.green / 255.0) * intensity;
        var blue := color.blue * (materialColor.blue / 255.0) * intensity;
        assert color == sh.sample(sh.texture, PerspectiveDivide(u, w), PerspectiveDivide(v, w));
        assert RGBA(red, green, blue, 255.0) == Tint(color, sh.materialColor, sh.intensity);
        DrawPixel(width, x, y, RGBA(red, green, blue, 255.0), color.alpha);
        var key := y * width as real + x;
        if IsIntegral(key) {
          depthBuffer[key.Floor] := w;
          assert depthBuffer[..] == before.depth[key.Floor := w];
        }
      } else {
        assert !Visible(before, width, x, y, w);
      }
    }

    /** One turn of the inner loop: fragment k of the span, at column j with
        parameter t. */
    method ScanStep(width: int, y: real, j: real, t: real, sp: Span, tex: Texture, materialColor: RGBA,
                    intensity: real, sample: Sampler, ghost start: Frame, ghost k: nat)
      requires j == sp.s.x + k as real && t == Accumulate(0.0, TStep(sp), k)
      requires Frame(imageData[..], depthBuffer[..]) == SpanFrame(start, Shading(width, tex, materialColor, intensity, sample), y, sp, k)
      modifies imageData, depthBuffer
      ensures Frame(imageData[..], depthBuffer[..]) == SpanFrame(start, Shading(width, tex, materialColor, intensity, sample), y, sp, k + 1)
    {
      // texU = (1 - t) * su + t * eu, and likewise texV and texW
      var texU := Lerp(t, sp.s.u, sp.e.u);
      var texV := Lerp(t, sp.s.v, sp.e.v);
      var texW := Lerp(t, sp.s.w, sp.e.w);
      SpanFrameStep(start, Shading(width, tex, materialColor, intensity, sample), y, sp, k, t);
      DrawFragment(width, j, y, texU, texV, texW, tex, materialColor, intensity, sample);
    }

    /** The inner loop `for (j = ax; j < bx; j++)` of one row y, with t
        advancing by tstep = 1 / (bx - ax) per fragment. */
    method ScanSpan(width: int, y: real, ax: real, bx: real, su: real, sv: real, sw: real, eu: real, ev: real, ew: real,
                    tex: Texture, materialColor: RGBA, intensity: real, sample: Sampler)
      modifies imageData, depthBuffer
      ensures var sp := Span(Attrs(ax, su, sv, sw), Attrs(bx, eu, ev, ew));
        Frame(imageData[..], depthBuffer[..])
        == SpanFrame(Frame(old(imageData[..]), old(depthBuffer[..])), Shading(width, tex, materialColor, intensity, sample), y, sp, SpanLength(sp))
    {
      ghost var sh := Shading(width, tex, materialColor, intensity, sample);
      var sp := Span(Attrs(ax, su, sv, sw), Attrs(bx, eu, ev, ew));
      ghost var start := Frame(imageData[..], depthBuffer[..]);
      // With ax = bx the TypeScript's tstep is an infinity, but the loop then
      // runs no step.
      var tstep := 0.0;
      if bx - ax != 0.0 {
        tstep := 1.0 / (bx - ax);
      }
      assert tstep == TStep(sp);
      var t := 0.0;
      var j := ax;
      ghost var k: nat := 0;
      while j < bx
        invariant j == ax + k as real
        invariant t == Accumulate(0.0, tstep, k)
        invariant k <= SpanLength(sp)
        invariant Frame(imageData[..], depthBuffer[..]) == SpanFrame(start, sh, y, sp, k)
        decreases SpanLength(sp) - k
      {
        ScanStep(width, y, j, t, sp, tex, materialColor, intensity, sample, start, k);
        t := t + tstep;
        j := j + 1.0;
        k := k + 1;
      }
      assert !ColumnInSpan(sp, k);
    }

    /** `textureTrianglePerspectiveCorrect`: sorts the corners by y, then
        scans the upper half (rows y1 .. y2) and the lower half (rows
        y2 .. y3) one span at a time, drawing each fragment that passes the
        depth test. */
    method TextureTrianglePerspectiveCorrect(width: int, tri: Tri, tex: Texture, materialColor: RGBA, sample: Sampler)
      modifies imageData, depthBuffer
      ensures Frame(imageData[..], depthBuffer[..])
        == Textured(Frame(old(imageData[..]), old(depthBuffer[..])), Shading(width, tex, materialColor, tri.intensity, sample), tri)
    {
      ghost var sh := Shading(width, tex, materialColor, tri.intensity, sample);
      ghost var start := Frame(imageData[..], depthBuffer[..]);
      // The three compare-and-swaps on (x, y, u, v, w) together.
      var (c1, c2, c3) := SortByY(CornerOf(tri.v1, tri.t1), CornerOf(tri.v2, tri.t2), CornerOf(tri.v3, tri.t3));
      var x1, x2, x3 := c1.x, c2.x, c3.x;
      var y1, y2, y3 := c1.y, c2.y, c3.y;
      var u1, u2, u3 := c1.u, c2.u, c3.u;
      var v1, v2, v3 := c1.v, c2.v, c3.v;
      var w1, w2, w3 := c1.w, c2.w, c3.w;

      var dy1, dx1, dv1, du1, dw1 := y2 - y1, x2 - x1, v2 - v1, u2 - u1, w2 - w1;
      var dy2, dx2, dv2, du2, dw2 := y3 - y1, x3 - x1, v3 - v1, u3 - u1, w3 - w1;

      var daxStep, dbxStep := 0.0, 0.0;
      var du1Step, dv1Step, du2Step, dv2Step, dw1Step, dw2Step := 0.0, 0.0, 0.0, 0.0, 0.0, 0.0;
      if dy1 != 0.0 {
        daxStep := dx1 / Abs(dy1);
        du1Step := du1 / Abs(dy1);
        dv1Step := dv1 / Abs(dy1);
        dw1Step := dw1 / Abs(dy1);
      }
      if dy2 != 0.0 {
        dbxStep := dx2 / Abs(dy2);
        du2Step := du2 / Abs(dy2);
        dv2Step := dv2 / Abs(dy2);
        dw2Step := dw2 / Abs(dy2);
      }

      ghost var upper := FirstHalf(c1, c2, c3);
      assert Attrs(daxStep, du1Step, dv1Step, dw1Step) == upper.aStep;
      assert Attrs(dbxStep, du2Step, dv2Step, dw2Step) == upper.bStep;
      if dy1 != 0.0 {
        ScanHalf(width, y1, y2, c1, Attrs(daxStep, du1Step, dv1Step, dw1Step),
          c1, Attrs(dbxStep, du2Step, dv2Step, dw2Step), tex, materialColor, tri.intensity, sample);
      }
      ghost var middle := Frame(imageData[..], depthBuffer[..]);
      assert middle == HalfFrame(start, sh, upper, RowCount(upper));

      dy1 := y3 - y2;
      dx1 := x3 - x2;
      dv1 := v3 - v2;
      du1 := u3 - u2;
      dw1 := w3 - w2;
      // The TypeScript guards each step with its own `if`; a zero dy1 leaves
      // daxStep and dw1Step from the upper half, but then the lower half is
      // not scanned.
      du1Step, dv1Step := 0.0, 0.0;
      if dy1 != 0.0 {
        daxStep := dx1 / Abs(dy1);
        du1Step := du1 / Abs(dy1);
        dv1Step := dv1 / Abs(dy1);
        dw1Step := dw1 / Abs(dy1);
      }
      if dy2 != 0.0 {
        dbxStep := dx2 / Abs(dy2);
      }

      ghost var lower := SecondHalf(c1, c2, c3);
      if dy1 != 0.0 {
        assert Attrs(daxStep, du1Step, dv1Step, dw1Step) == lower.aStep;
        assert Attrs(dbxStep, du2Step, dv2Step, dw2Step) == lower.bStep;
        ScanHalf(width, y2, y3, c2, Attrs(daxStep, du1Step, dv1Step, dw1Step),
          c1, Attrs(dbxStep, du2Step, dv2Step, dw2Step), tex, materialColor, tri.intensity, sample);
      }
    }

    /** One of the two outer loops `for (i = top; i <= bottom; i++)`: on row
        i the edge a is at aBase + (i - aBase.y) * aStep and the edge b at
        bBase + (i - bBase.y) * bStep; the span between them (left end first)
        is scanned. */
    method ScanHalf(width: int, top: real, bottom: real, aBase: Corner, aStep: Attrs, bBase: Corner, bStep: Attrs,
                    tex: Texture, materialColor: RGBA, intensity: real, sample: Sampler)
      modifies imageData, depthBuffer
      ensures var h := Half(top, bottom, true, aBase, aStep, bBase, bStep);
        Frame(imageData[..], depthBuffer[..])
        == HalfFrame(Frame(old(imageData[..]), old(depthBuffer[..])), Shading(width, tex, materialColor, intensity, sample), h, RowCount(h))
    {
      ghost var sh := Shading(width, tex, materialColor, intensity, sample);
      ghost var h := Half(top, bottom, true, aBase, aStep, bBase, bStep);
      ghost var start := Frame(imageData[..], depthBuffer[..]);
      var i := top;
      ghost var r: nat := 0;
      while i <= bottom
        invariant i == top + r as real
        invariant r <= RowCount(h)
        invariant Frame(imageData[..], depthBuffer[..]) == HalfFrame(start, sh, h, r)
        decreases RowCount(h) - r
      {
        assert RowInHalf(h, r);
        ScanRow(width, i, aBase, aStep, bBase, bStep, tex, materialColor, intensity, sample);
        i := i + 1.0;
        r := r + 1;
      }
      assert !RowInHalf(h, r);
    }

    /** The body of an outer loop: the two edge positions on row i, swapped
        when a lies right of b, then the span between them. */
    method ScanRow(width: int, i: real, aBase: Corner, aStep: Attrs, bBase: Corner, bStep: Attrs,
                   tex: Texture, materialColor: RGBA, intensity: real, sample: Sampler)
      modifies imageData, depthBuffer
      ensures var sp := EdgeSpan(aBase, aStep, bBase, bStep, i);
        Frame(imageData[..], depthBuffer[..])
        == SpanFrame(Frame(old(imageData[..]), old(depthBuffer[..])), Shading(width, tex, materialColor, intensity, sample), i, sp, SpanLength(sp))
    {
      // ax, su, sv, sw: edge a at row i; bx, eu, ev, ew: edge b
      var a := Along(aBase, aStep, i);
      var b := Along(bBase, bStep, i);
      if a.x > b.x {
        a, b := b, a;
      }
      ScanSpan(width, i, a.x, b.x, a.u, a.v, a.w, b.u, b.v, b.w, tex, materialColor, intensity, sample);
    }

    /** `drawWireframe`: the three edges v1-v2, v2-v3, v3-v1 in the material's
        wireframe colour. */
    method DrawWireframe(width: int, tri: Tri, material: Material)
      modifies imageData
      ensures imageData[..] == Paint(old(imageData[..]), width, WireframePixels(tri, material.wireframeColor))
    {
      var c := material.wireframeColor;
      DrawLine(width, tri.v1.x, tri.v1.y, tri.v2.x, tri.v2.y, c);
      DrawLine(width, tri.v2.x, tri.v2.y, tri.v3.x, tri.v3.y, c);
      DrawLine(width, tri.v3.x, tri.v3.y, tri.v1.x, tri.v1.y, c);
      PaintAppend(old(imageData[..]), width, LinePixels(tri.v1.x, tri.v1.y, tri.v2.x, tri.v2.y, c),
        LinePixels(tri.v2.x, tri.v2.y, tri.v3.x, tri.v3.y, c));
      PaintAppend(old(imageData[..]), width,
        LinePixels(tri.v1.x, tri.v1.y, tri.v2.x, tri.v2.y, c) + LinePixels(tri.v2.x, tri.v2.y, tri.v3.x, tri.v3.y, c),
        LinePixels(tri.v3.x, tri.v3.y, tri.v1.x, tri.v1.y, c));
    }
  }

  /** The pixels of a wireframe: the three edge lines one after another. */
  function WireframePixels(tri: Tri, color: RGBA): seq<PixelWrite> {
    LinePixels(tri.v1.x, tri.v1.y, tri.v2.x, tri.v2.y, color)
    + LinePixels(tri.v2.x, tri.v2.y, tri.v3.x, tri.v3.y, color)
    + LinePixels(tri.v3.x, tri.v3.y, tri.v1.x, tri.v1.y, color)
  }
}
