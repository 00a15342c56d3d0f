/** Homogeneous 3D vectors (src/vec3.ts).  Every operation returns a new value;
    the arithmetic ones build their result with the constructor's default
    `w = 1`, whatever the operands' `w`. */
module Vectors {
  import opened Numerics

  datatype Vec3 = Vec3(x: real, y: real, z: real, w: real)

  /** `new Vec3(x, y, z)`: the constructor's `w` defaults to 1. */
  function Point(x: real, y: real, z: real): (r: Vec3)
    ensures r.w == 1.0
  {
    Vec3(x, y, z, 1.0)
  }

  /** `Vec3.fromArray`: throws unless the array has exactly three entries. */
  function FromArray(arr: seq<real>): (r: Result<Vec3>)
    ensures r.Success? <==> |arr| == 3
    ensures r.Success? ==> r.value == Vec3(arr[0], arr[1], arr[2], 1.0)
  {
    if |arr| != 3 then Failure("Cannot create vec3 for array of this length")
    else Success(Point(arr[0], arr[1], arr[2]))
  }

  function Add(a: Vec3, b: Vec3): (r: Vec3)
    ensures r.w == 1.0
  {
    Point(a.x + b.x, a.y + b.y, a.z + b.z)
  }

  function Sub(a: Vec3, b: Vec3): (r: Vec3)
    ensures r.w == 1.0
  {
    Point(a.x - b.x, a.y - b.y, a.z - b.z)
  }

  function Mul(a: Vec3, k: real): (r: Vec3)
    ensures r.w == 1.0
  {
    Point(a.x * k, a.y * k, a.z * k)
  }

  function Div(a: Vec3, k: real): (r: Vec3)
    requires k != 0.0
    ensures r.w == 1.0
  {
    Point(a.x / k, a.y / k, a.z / k)
  }

  /** The dot product of the x, y, z parts; `w` takes no part. */
  function Dot(a: Vec3, b: Vec3): real {
    a.x * b.x + a.y * b.y + a.z * b.z
  }

  /** The squared length, the radicand of `getLength`. */
  function LengthSquared(a: Vec3): (r: real)
    ensures r >= 0.0
  {
    SquareNonNegative(a.x);
    SquareNonNegative(a.y);
    SquareNonNegative(a.z);
    a.x * a.x + a.y * a.y + a.z * a.z
  }

  lemma SquarePositive(x: real)
    requires x != 0.0
    ensures x * x > 0.0
  {
    if x < 0.0 {
      assert x * x == (-x) * (-x);
    }
  }

  lemma SquareNonNegative(x: real)
    ensures x * x >= 0.0
  {
    if x != 0.0 {
      SquarePositive(x);
    }
  }

  lemma SumOfSquaresPositive(x: real, y: real, z: real)
    requires x != 0.0 || y != 0.0 || z != 0.0
    ensures x * x + y * y + z * z > 0.0
  {
    SquareNonNegative(x);
    SquareNonNegative(y);
    SquareNonNegative(z);
    if x != 0.0 {
      SquarePositive(x);
    }
    if y != 0.0 {
      SquarePositive(y);
    }
    if z != 0.0 {
      SquarePositive(z);
    }
  }

  /** A vector with a non-zero x, y or z has a positive squared length. */
  lemma LengthSquaredPositive(a: Vec3)
    requires a.x != 0.0 || a.y != 0.0 || a.z != 0.0
    ensures LengthSquared(a) > 0.0
  {
    SumOfSquaresPositive(a.x, a.y, a.z);
    calc {
      LengthSquared(a);
    ==
      a.x * a.x + a.y * a.y + a.z * a.z;
    >
      0.0;
    }
  }

  /** Only the zero vector (in x, y, z) has squared length 0. */
  lemma LengthSquaredZero(a: Vec3)
    ensures LengthSquared(a) == 0.0 <==> a.x == 0.0 && a.y == 0.0 && a.z == 0.0
  {
    if a.x == 0.0 && a.y == 0.0 && a.z == 0.0 {
      assert LengthSquared(a) == LengthSquared(Point(0.0, 0.0, 0.0)) == 0.0;
    } else {
      LengthSquaredPositive(a);
    }
  }

  lemma UnitRoot(s: real)
    requires s > 0.0 && s * s == 1.0
    ensures s == 1.0
  {
    if s > 1.0 {
    } else if s < 1.0 {
    }
  }

  function GetLength(m: Libm, a: Vec3): real {
    m.sqrt(LengthSquared(a))
  }

  /** `Vec3.normalize`: divides x, y, z by the length (the TypeScript yields NaN
      for a zero-length vector; the model requires a non-zero length). */
  function Normalize(m: Libm, a: Vec3): (r: Vec3)
    requires GetLength(m, a) != 0.0
    ensures r.w == 1.0
  {
    var len := GetLength(m, a);
    Point(a.x / len, a.y / len, a.z / len)
  }

  function Cross(a: Vec3, b: Vec3): (r: Vec3)
    ensures r.w == 1.0
  {
    Point(a.y * b.z - a.z * b.y, a.z * b.x - a.x * b.z, a.x * b.y - a.y * b.x)
  }

  function GetOppositeVector(a: Vec3): (r: Vec3)
    ensures r.w == 1.0
  {
    Point(-a.x, -a.y, -a.z)
  }

  /** Two vectors with the same x, y and z (their `w` may differ). */
  predicate SameXYZ(a: Vec3, b: Vec3) {
    a.x == b.x && a.y == b.y && a.z == b.z
  }

  // ---- properties ----

  lemma AddSubRoundTrip(a: Vec3, b: Vec3)
    ensures SameXYZ(Sub(Add(a, b), b), a)
    ensures SameXYZ(Add(Sub(a, b), b), a)
  {
  }

  lemma MulDivRoundTrip(a: Vec3, k: real)
    requires k != 0.0
    ensures SameXYZ(Div(Mul(a, k), k), a)
  {
    assert a.x * k / k == a.x;
    assert a.y * k / k == a.y;
    assert a.z * k / k == a.z;
  }

  lemma DivMulRoundTrip(a: Vec3, k: real)
    requires k != 0.0
    ensures SameXYZ(Mul(Div(a, k), k), a)
  {
  }

  lemma DotIgnoresW(a: Vec3, b: Vec3, wa: real, wb: real)
    ensures Dot(a, b) == Dot(Vec3(a.x, a.y, a.z, wa), Vec3(b.x, b.y, b.z, wb))
  {
  }

  lemma DotCommutes(a: Vec3, b: Vec3)
    ensures Dot(a, b) == Dot(b, a)
  {
  }

  /** tests/vec3.test.ts: (2,3,4) . (1,2,3) = 20 */
  lemma DotExample()
    ensures Dot(Point(2.0, 3.0, 4.0), Point(1.0, 2.0, 3.0)) == 20.0
  {
  }

  lemma CrossIsOrthogonal(a: Vec3, b: Vec3)
    ensures Dot(Cross(a, b), a) == 0.0
    ensures Dot(Cross(a, b), b) == 0.0
  {
  }

  lemma OppositeIsInvolution(a: Vec3)
    ensures SameXYZ(GetOppositeVector(GetOppositeVector(a)), a)
    ensures Dot(GetOppositeVector(a), a) == -LengthSquared(a)
  {
  }

  /** Dotting with a vector divided by k divides the dot product by k. */
  lemma DotScaled(a: Vec3, b: Vec3, k: real)
    requires k != 0.0
    ensures Dot(a, Point(b.x / k, b.y / k, b.z / k)) == Dot(a, b) / k
    ensures Dot(Point(b.x / k, b.y / k, b.z / k), a) == Dot(a, b) / k
  {
    calc {
      Dot(a, Point(b.x / k, b.y / k, b.z / k));
      a.x * (b.x / k) + a.y * (b.y / k) + a.z * (b.z / k);
      (a.x * b.x) / k + (a.y * b.y) / k + (a.z * b.z) / k;
      Dot(a, b) / k;
    }
  }

  /** Under a lawful square root a non-zero vector has a positive length. */
  lemma LengthPositive(m: Libm, a: Vec3)
    requires Lawful(m)
    requires LengthSquared(a) > 0.0
    ensures GetLength(m, a) > 0.0
    ensures GetLength(m, a) * GetLength(m, a) == LengthSquared(a)
  {
  }

  /** Dividing by a length whose square is the squared length leaves a
      vector of squared length 1. */
  lemma UnitScale(a: Vec3, len: real)
    requires len != 0.0 && len * len == LengthSquared(a)
    ensures LengthSquared(Point(a.x / len, a.y / len, a.z / len)) == 1.0
  {
    var n := Point(a.x / len, a.y / len, a.z / len);
    calc {
      LengthSquared(n);
      Dot(n, n);
      { DotScaled(n, a, len); }
      Dot(n, a) / len;
      { DotScaled(a, a, len); }
      (Dot(a, a) / len) / len;
      { SelfQuotient(Dot(a, a), len); }
      1.0;
    }
  }

  lemma SelfQuotient(x: real, k: real)
    requires k != 0.0 && x == k * k
    ensures (x / k) / k == 1.0
  {
    assert x / k == k;
  }

  /** A normalized non-zero vector has length 1. */
  lemma NormalizeHasUnitLength(m: Libm, a: Vec3)
    requires Lawful(m)
    requires LengthSquared(a) > 0.0
    ensures GetLength(m, a) != 0.0
    ensures LengthSquared(Normalize(m, a)) == 1.0
    ensures GetLength(m, Normalize(m, a)) == 1.0
  {
    LengthPositive(m, a);
    UnitScale(a, GetLength(m, a));
    var one := m.sqrt(1.0);
    assert one > 0.0 && one * one == 1.0;
    UnitRoot(one);
  }
}
