/** Triangles (src/tri.ts): three vertices, their texels and one light
    intensity.  Every operation builds a new triangle; the input is a value and
    cannot change. */
module Triangles {
  import opened Numerics
  import opened Vectors
  import opened Matrices
  import opened Texels

  datatype Tri = Tri(v1: Vec3, v2: Vec3, v3: Vec3, t1: Texel, t2: Texel, t3: Texel, intensity: real)

  /** The field initialiser of `surfaceLightIntensity`. */
  const DefaultIntensity: real := 255.0

  /** `new Tri(v1, v2, v3, texel1?, texel2?, texel3?)`: a missing texel becomes
      `new Texel(0, 0)`, and the intensity starts at 255. */
  function NewTri(v1: Vec3, v2: Vec3, v3: Vec3, t1: Option<Texel>, t2: Option<Texel>, t3: Option<Texel>): (r: Tri)
    ensures r.v1 == v1 && r.v2 == v2 && r.v3 == v3
    ensures r.t1 == (if t1.Some? then t1.value else Texel(0.0, 0.0, 1.0))
    ensures r.t2 == (if t2.Some? then t2.value else Texel(0.0, 0.0, 1.0))
    ensures r.t3 == (if t3.Some? then t3.value else Texel(0.0, 0.0, 1.0))
    ensures r.intensity == 255.0
  {
    Tri(v1, v2, v3, OrDefault(t1), OrDefault(t2), OrDefault(t3), DefaultIntensity)
  }

  function OrDefault(t: Option<Texel>): Texel {
    if t.Some? then t.value else DefaultTexel
  }

  /** The cross product of the two edges leaving v1, before normalisation. */
  function EdgeCross(tri: Tri): Vec3 {
    Cross(Sub(tri.v2, tri.v1), Sub(tri.v3, tri.v1))
  }

  /** `getSurfaceNormal`: the normalised cross product of the edges v2 - v1 and
      v3 - v1.  A degenerate triangle has a zero cross product, for which the
      TypeScript divides by zero; the model requires a non-zero length. */
  function SurfaceNormal(m: Libm, tri: Tri): Vec3
    requires GetLength(m, EdgeCross(tri)) != 0.0
  {
    Normalize(m, EdgeCross(tri))
  }

  /** `Tri.matrixMul`: every vertex times the matrix; texels and intensity kept. */
  function MatrixMul(tri: Tri, a: Mat4x4): Tri
    requires Valid(a)
  {
    tri.(v1 := VecMatrixMul(tri.v1, a), v2 := VecMatrixMul(tri.v2, a), v3 := VecMatrixMul(tri.v3, a))
  }

  /** Every vertex has a non-zero `w` to divide by. */
  predicate HasNonZeroW(tri: Tri) {
    tri.v1.w != 0.0 && tri.v2.w != 0.0 && tri.v3.w != 0.0
  }

  /** `Tri.normalizeDepth`: the perspective divide of each vertex by its own `w`. */
  function NormalizeDepth(tri: Tri): Tri
    requires HasNonZeroW(tri)
  {
    tri.(v1 := Vectors.Div(tri.v1, tri.v1.w), v2 := Vectors.Div(tri.v2, tri.v2.w),
         v3 := Vectors.Div(tri.v3, tri.v3.w))
  }

  /** The viewport mapping of one vertex: x in [-1, 1] to [0, width], y = 1 to
      the top row; z is kept and w reset to 1. */
  function ScreenVertex(v: Vec3, width: real, height: real): Vec3 {
    Point((1.0 + v.x) * width * 0.5, (-1.0 + v.y) * (-height * 0.5), v.z)
  }

  /** `Tri.toScreenSpace` */
  function ToScreenSpace(tri: Tri, width: real, height: real): Tri {
    tri.(v1 := ScreenVertex(tri.v1, width, height), v2 := ScreenVertex(tri.v2, width, height),
         v3 := ScreenVertex(tri.v3, width, height))
  }

  /** `Tri.transform`: one multiplication by rotation x (translation x camera). */
  function Transform(tri: Tri, rotation: Mat4x4, translation: Mat4x4, camera: Mat4x4): Tri
    requires Valid(rotation) && Valid(translation) && Valid(camera)
  {
    MatrixMul(tri, MulSpec(rotation, MulSpec(translation, camera)))
  }

  /** The three vertices, in order. */
  function Vertices(tri: Tri): seq<Vec3> {
    [tri.v1, tri.v2, tri.v3]
  }

  /** The three texels, in vertex order. */
  function TexelsOf(tri: Tri): seq<Texel> {
    [tri.t1, tri.t2, tri.t3]
  }

  /** `Tri.copy`: a new triangle from copies of the vertices and texels, with
      the intensity carried over. */
  function Copy(tri: Tri): Tri {
    NewTri(tri.v1, tri.v2, tri.v3, Some(tri.t1), Some(tri.t2), Some(tri.t3)).(intensity := tri.intensity)
  }

  // ---- properties ----

  /** The surface normal is perpendicular to both edges leaving v1, and under a
      lawful square root it has length 1. */
  lemma SurfaceNormalIsUnitAndOrthogonal(m: Libm, tri: Tri)
    requires Lawful(m)
    requires LengthSquared(EdgeCross(tri)) > 0.0
    ensures GetLength(m, EdgeCross(tri)) != 0.0
    ensures Dot(SurfaceNormal(m, tri), Sub(tri.v2, tri.v1)) == 0.0
    ensures Dot(SurfaceNormal(m, tri), Sub(tri.v3, tri.v1)) == 0.0
    ensures LengthSquared(SurfaceNormal(m, tri)) == 1.0
  {
    var c := EdgeCross(tri);
    NormalizeHasUnitLength(m, c);
    var len := GetLength(m, c);
    CrossIsOrthogonal(Sub(tri.v2, tri.v1), Sub(tri.v3, tri.v1));
    DotScaled(Sub(tri.v2, tri.v1), c, len);
    DotScaled(Sub(tri.v3, tri.v1), c, len);
  }

  /** A copy is field-wise equal to the original, intensity included. */
  lemma CopyIsFieldwiseEqual(tri: Tri)
    ensures Copy(tri) == tri
  {
  }

  /** Transforming by the identity changes nothing. */
  lemma MatrixMulIdentity(tri: Tri)
    ensures MatrixMul(tri, Identity()) == tri
  {
    IdentityKeepsVector(tri.v1);
    IdentityKeepsVector(tri.v2);
    IdentityKeepsVector(tri.v3);
  }

  /** Multiplying by two matrices in turn is multiplying by their product. */
  lemma MatrixMulComposes(tri: Tri, a: Mat4x4, b: Mat4x4)
    requires Valid(a) && Valid(b)
    ensures MatrixMul(MatrixMul(tri, a), b) == MatrixMul(tri, MulSpec(a, b))
  {
    VecMatrixMulAssociates(tri.v1, a, b);
    VecMatrixMulAssociates(tri.v2, a, b);
    VecMatrixMulAssociates(tri.v3, a, b);
  }

  /** `transform` gives the same triangle as applying the rotation, then the
      translation, then the camera matrix, one after the other. */
  lemma TransformIsStepwise(tri: Tri, rotation: Mat4x4, translation: Mat4x4, camera: Mat4x4)
    requires Valid(rotation) && Valid(translation) && Valid(camera)
    ensures Transform(tri, rotation, translation, camera)
         == MatrixMul(MatrixMul(MatrixMul(tri, rotation), translation), camera)
  {
    MatrixMulComposes(MatrixMul(tri, rotation), translation, camera);
    MatrixMulComposes(tri, rotation, MulSpec(translation, camera));
  }

  /** After the perspective divide every vertex has w = 1, multiplying back by
      the old w restores x, y and z, and texels and intensity are kept. */
  lemma NormalizeDepthInverse(tri: Tri)
    requires HasNonZeroW(tri)
    ensures var n := NormalizeDepth(tri);
      && n.v1.w == 1.0 && n.v2.w == 1.0 && n.v3.w == 1.0
      && SameXYZ(Mul(n.v1, tri.v1.w), tri.v1)
      && SameXYZ(Mul(n.v2, tri.v2.w), tri.v2)
      && SameXYZ(Mul(n.v3, tri.v3.w), tri.v3)
      && TexelsOf(n) == TexelsOf(tri) && n.intensity == tri.intensity
  {
    DivMulRoundTrip(tri.v1, tri.v1.w);
    DivMulRoundTrip(tri.v2, tri.v2.w);
    DivMulRoundTrip(tri.v3, tri.v3.w);
  }

  /** The viewport mapping sends x in [-1, 1] into [0, width] and y in
      [-1, 1] into [0, height], with y = 1 on row 0; z is kept. */
  lemma ScreenVertexBounds(v: Vec3, width: real, height: real)
    requires width >= 0.0 && height >= 0.0
    ensures var s := ScreenVertex(v, width, height);
      && s.z == v.z && s.w == 1.0
      && (-1.0 <= v.x <= 1.0 ==> 0.0 <= s.x <= width)
      && (-1.0 <= v.y <= 1.0 ==> 0.0 <= s.y <= height)
      && (v.x == -1.0 ==> s.x == 0.0) && (v.x == 1.0 ==> s.x == width)
      && (v.y == 1.0 ==> s.y == 0.0) && (v.y == -1.0 ==> s.y == height)
  {
    var s := ScreenVertex(v, width, height);
    if -1.0 <= v.x <= 1.0 {
      HalfScale(1.0 + v.x, width);
      calc {
        0.0;
      <=
        (1.0 + v.x) * width * 0.5;
      ==
        s.x;
      }
      calc {
        s.x;
      ==
        (1.0 + v.x) * width * 0.5;
      <=
        width;
      }
    }
    if -1.0 <= v.y <= 1.0 {
      HalfScale(1.0 - v.y, height);
      FlipHalf(v.y, height);
      calc {
        0.0;
      <=
        (1.0 - v.y) * height * 0.5;
      ==
        (-1.0 + v.y) * (-height * 0.5);
      ==
        s.y;
      }
      calc {
        s.y;
      ==
        (-1.0 + v.y) * (-height * 0.5);
      ==
        (1.0 - v.y) * height * 0.5;
      <=
        height;
      }
    }
  }

  lemma HalfScale(a: real, k: real)
    requires 0.0 <= a <= 2.0 && k >= 0.0
    ensures 0.0 <= a * k * 0.5 <= k
  {
    assert a * k <= 2.0 * k;
  }

  lemma FlipHalf(y: real, k: real)
    ensures (-1.0 + y) * (-k * 0.5) == (1.0 - y) * k * 0.5
  {
  }

  /** The viewport mapping is undone by x = 2 sx / width - 1 and
      y = 1 - 2 sy / height. */
  lemma ScreenVertexInverse(v: Vec3, width: real, height: real)
    requires width != 0.0 && height != 0.0
    ensures var s := ScreenVertex(v, width, height);
      2.0 * s.x / width - 1.0 == v.x && 1.0 - 2.0 * s.y / height == v.y
  {
    var s := ScreenVertex(v, width, height);
    UnscaleX(v.x, width);
    UnscaleY(v.y, height);
    calc {
      2.0 * s.x / width - 1.0;
    ==
      2.0 * ((1.0 + v.x) * width * 0.5) / width - 1.0;
    ==
      v.x;
    }
    calc {
      1.0 - 2.0 * s.y / height;
    ==
      1.0 - 2.0 * ((-1.0 + v.y) * (-height * 0.5)) / height;
    ==
      v.y;
    }
  }

  lemma UnscaleX(x: real, k: real)
    requires k != 0.0
    ensures 2.0 * ((1.0 + x) * k * 0.5) / k - 1.0 == x
  {
    var p := (1.0 + x) * k;
    DivMul(p, k);
    CancelFactor(k, p / k, 1.0 + x);
    calc {
      2.0 * ((1.0 + x) * k * 0.5) / k - 1.0;
    ==
      p / k - 1.0;
    ==
      x;
    }
  }

  lemma UnscaleY(y: real, k: real)
    requires k != 0.0
    ensures 1.0 - 2.0 * ((-1.0 + y) * (-k * 0.5)) / k == y
  {
    var p := (1.0 - y) * k;
    DivMul(p, k);
    CancelFactor(k, p / k, 1.0 - y);
    calc {
      1.0 - 2.0 * ((-1.0 + y) * (-k * 0.5)) / k;
    ==
      1.0 - p / k;
    ==
      y;
    }
  }
}
