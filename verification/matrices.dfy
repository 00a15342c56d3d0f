/** 4x4 matrices (src/mat4x4.ts) and the row-vector product (src/vec3.ts).

    A matrix is its array of rows.  `set` updates a cell; the model gives the
    updated matrix back as a new value, which is all the pipeline can observe,
    because every matrix it builds owns a fresh array literal. */
module Matrices {
  import opened Numerics
  import opened Vectors

  datatype Mat4x4 = Mat4x4(cells: seq<seq<real>>)

  /** Four rows of four entries each. */
  predicate Valid(a: Mat4x4) {
    |a.cells| == 4 && forall r | 0 <= r < 4 :: |a.cells[r]| == 4
  }

  /** `new Mat4x4(matrix)`: throws unless there are four rows and row 0 has four
      entries; the other rows are not checked and the array is kept as given. */
  function FromRows(rows: seq<seq<real>>): (r: Result<Mat4x4>)
    ensures r.Success? <==> |rows| == 4 && |rows[0]| == 4
    ensures r.Success? ==> r.value.cells == rows
  {
    if |rows| != 4 || |rows[0]| != 4 then Failure("Invalid matrix dimensions. Expected 4x4.")
    else Success(Mat4x4(rows))
  }

  /** `new Mat4x4()`: the default argument, sixteen zeros. */
  function Zero(): (r: Mat4x4)
    ensures Valid(r)
    ensures forall i, j | 0 <= i < 4 && 0 <= j < 4 :: r.cells[i][j] == 0.0
  {
    Mat4x4(seq(4, _ => seq(4, _ => 0.0)))
  }

  /** A matrix literal whose four rows are given one by one. */
  function Rows(r0: seq<real>, r1: seq<real>, r2: seq<real>, r3: seq<real>): (r: Mat4x4)
    requires |r0| == |r1| == |r2| == |r3| == 4
    ensures Valid(r)
  {
    Mat4x4([r0, r1, r2, r3])
  }

  function Get(a: Mat4x4, row: int, col: int): real
    requires 0 <= row < |a.cells| && 0 <= col < |a.cells[row]|
  {
    a.cells[row][col]
  }

  /** `set(row, col, val)`: only cell (row, col) changes. */
  function Set(a: Mat4x4, row: int, col: int, val: real): (r: Mat4x4)
    requires 0 <= row < |a.cells| && 0 <= col < |a.cells[row]|
    ensures |r.cells| == |a.cells|
    ensures forall i | 0 <= i < |a.cells| :: |r.cells[i]| == |a.cells[i]|
    ensures Get(r, row, col) == val
    ensures forall i, j | 0 <= i < |a.cells| && 0 <= j < |a.cells[i]| && (i != row || j != col) ::
      r.cells[i][j] == a.cells[i][j]
  {
    Mat4x4(a.cells[row := a.cells[row][col := val]])
  }

  /** Entry (row, col) of the product: row `row` of `a` times column `col` of `b`. */
  function Entry(a: Mat4x4, b: Mat4x4, row: int, col: int): real
    requires Valid(a) && Valid(b)
    requires 0 <= row < 4 && 0 <= col < 4
  {
    a.cells[row][0] * b.cells[0][col] + a.cells[row][1] * b.cells[1][col]
      + a.cells[row][2] * b.cells[2][col] + a.cells[row][3] * b.cells[3][col]
  }

  /** The matrix product, entry by entry. */
  function MulSpec(a: Mat4x4, b: Mat4x4): (r: Mat4x4)
    requires Valid(a) && Valid(b)
    ensures Valid(r)
  {
    Mat4x4(seq(4, i requires 0 <= i < 4 => seq(4, j requires 0 <= j < 4 => Entry(a, b, i, j))))
  }

  /** `Mat4x4.multiply`: fills a fresh zero matrix column by column through `set`. */
  method Multiply(a: Mat4x4, b: Mat4x4) returns (r: Mat4x4)
    requires Valid(a) && Valid(b)
    ensures r == MulSpec(a, b)
  {
    r := Zero();
    for col := 0 to 4
      invariant Valid(r)
      invariant forall i, j | 0 <= i < 4 && 0 <= j < col :: r.cells[i][j] == Entry(a, b, i, j)
    {
      for row := 0 to 4
        invariant Valid(r)
        invariant forall i, j | 0 <= i < 4 && 0 <= j < col :: r.cells[i][j] == Entry(a, b, i, j)
        invariant forall i | 0 <= i < row :: r.cells[i][col] == Entry(a, b, i, col)
      {
        r := Set(r, row, col,
          Get(a, row, 0) * Get(b, 0, col) + Get(a, row, 1) * Get(b, 1, col)
          + Get(a, row, 2) * Get(b, 2, col) + Get(a, row, 3) * Get(b, 3, col));
      }
    }
    SameEntriesEqual(r, MulSpec(a, b));
  }

  /** The sixteen entries of two matrices agree. */
  predicate SameEntries(a: Mat4x4, b: Mat4x4)
    requires Valid(a) && Valid(b)
  {
    forall i, j | 0 <= i < 4 && 0 <= j < 4 :: a.cells[i][j] == b.cells[i][j]
  }

  /** Two well-formed matrices with the same entries are the same matrix. */
  lemma SameEntriesEqual(a: Mat4x4, b: Mat4x4)
    requires Valid(a) && Valid(b)
    ensures SameEntries(a, b) <==> a == b
  {
    if SameEntries(a, b) {
      forall i | 0 <= i < 4
        ensures a.cells[i] == b.cells[i]
      {
        assert forall j | 0 <= j < 4 :: a.cells[i][j] == b.cells[i][j];
      }
      assert a.cells == b.cells;
    }
  }

  /** `Mat4x4.isEqual`: compares row by row and stops at the first difference. */
  method IsEqual(a: Mat4x4, b: Mat4x4) returns (r: bool)
    requires Valid(a) && Valid(b)
    ensures r <==> a == b
  {
    SameEntriesEqual(a, b);
    for row := 0 to 4
      invariant forall i, j | 0 <= i < row && 0 <= j < 4 :: a.cells[i][j] == b.cells[i][j]
    {
      for col := 0 to 4
        invariant forall i, j | 0 <= i < row && 0 <= j < 4 :: a.cells[i][j] == b.cells[i][j]
        invariant forall j | 0 <= j < col :: a.cells[row][j] == b.cells[row][j]
      {
        if Get(a, row, col) != Get(b, row, col) {
          return false;
        }
      }
    }
    return true;
  }

  /** `Vec3.matrixMul`: the row vector (x, y, z, w) times the matrix, all four
      components taking part. */
  function VecMatrixMul(v: Vec3, a: Mat4x4): Vec3
    requires Valid(a)
  {
    Vec3(Column(v, a, 0), Column(v, a, 1), Column(v, a, 2), Column(v, a, 3))
  }

  /** Component `col` of the row vector `v` times `a`. */
  function Column(v: Vec3, a: Mat4x4, col: int): real
    requires Valid(a) && 0 <= col < 4
  {
    v.x * Get(a, 0, col) + v.y * Get(a, 1, col) + v.z * Get(a, 2, col) + v.w * Get(a, 3, col)
  }

  function Identity(): (r: Mat4x4)
    ensures Valid(r)
  {
    Rows([1.0, 0.0, 0.0, 0.0], [0.0, 1.0, 0.0, 0.0], [0.0, 0.0, 1.0, 0.0], [0.0, 0.0, 0.0, 1.0])
  }

  function RotX(m: Libm, angle: real): (r: Mat4x4)
    ensures Valid(r)
  {
    var c, s := m.cos(angle), m.sin(angle);
    Rows([1.0, 0.0, 0.0, 0.0], [0.0, c, s, 0.0], [0.0, -s, c, 0.0], [0.0, 0.0, 0.0, 1.0])
  }

  function RotY(m: Libm, angle: real): (r: Mat4x4)
    ensures Valid(r)
  {
    var c, s := m.cos(angle), m.sin(angle);
    Rows([c, 0.0, -s, 0.0], [0.0, 1.0, 0.0, 0.0], [s, 0.0, c, 0.0], [0.0, 0.0, 0.0, 1.0])
  }

  function RotZ(m: Libm, angle: real): (r: Mat4x4)
    ensures Valid(r)
  {
    var c, s := m.cos(angle), m.sin(angle);
    Rows([c, s, 0.0, 0.0], [-s, c, 0.0, 0.0], [0.0, 0.0, 1.0, 0.0], [0.0, 0.0, 0.0, 1.0])
  }

  function Translation(pos: Vec3): (r: Mat4x4)
    ensures Valid(r)
  {
    Rows([1.0, 0.0, 0.0, 0.0], [0.0, 1.0, 0.0, 0.0], [0.0, 0.0, 1.0, 0.0], [pos.x, pos.y, pos.z, 1.0])
  }

  /** The argument of `Math.tan` in `getProjectionMatrix`: half the field of
      view, in radians. */
  function HalfFovRadians(fovDegrees: real): real {
    fovDegrees * 0.5 / 180.0 * PI
  }

  /** `getProjectionMatrix`.  The TypeScript divides by `tan` and by `far - near`;
      both must be non-zero for the matrix to be finite. */
  function Projection(m: Libm, fovDegrees: real, aspectRatio: real, near: real, far: real): (r: Mat4x4)
    requires m.tan(HalfFovRadians(fovDegrees)) != 0.0
    requires far != near
    ensures Valid(r)
  {
    var f := 1.0 / m.tan(HalfFovRadians(fovDegrees));
    Rows([aspectRatio * f, 0.0, 0.0, 0.0],
         [0.0, f, 0.0, 0.0],
         [0.0, 0.0, far / (far - near), 1.0],
         [0.0, 0.0, (-far * near) / (far - near), 0.0])
  }

  function PointAt(right: Vec3, up: Vec3, forward: Vec3): (r: Mat4x4)
    ensures Valid(r)
  {
    Rows([right.x, up.x, forward.x, 0.0],
         [right.y, up.y, forward.y, 0.0],
         [right.z, up.z, forward.z, 0.0],
         [0.0, 0.0, 0.0, 1.0])
  }

  // ---- properties ----

  /** tests/mat4x4.test.ts: setting the diagonal of the zero matrix and reading it back. */
  lemma GetSetExample()
    ensures var a := Set(Set(Set(Set(Zero(), 0, 0, 1.0), 1, 1, 2.0), 2, 2, 3.0), 3, 3, 4.0);
      Get(a, 0, 0) == 1.0 && Get(a, 1, 1) == 2.0 && Get(a, 2, 2) == 3.0 && Get(a, 3, 3) == 4.0
        && Get(a, 0, 1) == 0.0
  {
  }

  /** Reading a cell after writing it gives the value written, and writing a
      cell does not disturb any other. */
  lemma GetAfterSet(a: Mat4x4, row: int, col: int, val: real, i: int, j: int)
    requires Valid(a)
    requires 0 <= row < 4 && 0 <= col < 4 && 0 <= i < 4 && 0 <= j < 4
    ensures Valid(Set(a, row, col, val))
    ensures Get(Set(a, row, col, val), i, j) == if i == row && j == col then val else Get(a, i, j)
  {
  }

  /** tests/mat4x4.test.ts: the matrix 1..16 squared. */
  lemma MultiplyExample()
    ensures var a := Rows([1.0, 2.0, 3.0, 4.0], [5.0, 6.0, 7.0, 8.0], [9.0, 10.0, 11.0, 12.0], [13.0, 14.0, 15.0, 16.0]);
      MulSpec(a, a) == Rows([90.0, 100.0, 110.0, 120.0], [202.0, 228.0, 254.0, 280.0],
                            [314.0, 356.0, 398.0, 440.0], [426.0, 484.0, 542.0, 600.0])
  {
    var a := Rows([1.0, 2.0, 3.0, 4.0], [5.0, 6.0, 7.0, 8.0], [9.0, 10.0, 11.0, 12.0], [13.0, 14.0, 15.0, 16.0]);
    var e := Rows([90.0, 100.0, 110.0, 120.0], [202.0, 228.0, 254.0, 280.0],
                  [314.0, 356.0, 398.0, 440.0], [426.0, 484.0, 542.0, 600.0]);
    assert SameEntries(MulSpec(a, a), e);
    SameEntriesEqual(MulSpec(a, a), e);
  }

  /** The identity matrix is neutral on both sides of the product. */
  lemma IdentityIsNeutral(a: Mat4x4)
    requires Valid(a)
    ensures MulSpec(Identity(), a) == a
    ensures MulSpec(a, Identity()) == a
  {
    SameEntriesEqual(MulSpec(Identity(), a), a);
    SameEntriesEqual(MulSpec(a, Identity()), a);
  }

  /** The identity matrix leaves every vector unchanged. */
  lemma IdentityKeepsVector(v: Vec3)
    ensures VecMatrixMul(v, Identity()) == v
  {
  }

  /** tests/vec3.test.ts: the diagonal-2 matrix doubles every component, w included. */
  lemma DiagonalExample()
    ensures VecMatrixMul(Point(2.0, 3.0, 4.0),
      Rows([2.0, 0.0, 0.0, 0.0], [0.0, 2.0, 0.0, 0.0], [0.0, 0.0, 2.0, 0.0], [0.0, 0.0, 0.0, 2.0]))
      == Vec3(4.0, 6.0, 8.0, 2.0)
  {
  }

  /** Multiplying by `a` and then by `b` is multiplying by the product `a b`. */
  lemma VecMatrixMulAssociates(v: Vec3, a: Mat4x4, b: Mat4x4)
    requires Valid(a) && Valid(b)
    ensures VecMatrixMul(VecMatrixMul(v, a), b) == VecMatrixMul(v, MulSpec(a, b))
  {
    var u := VecMatrixMul(v, a);
    var p := MulSpec(a, b);
    ColumnAssociates(v, a, b, 0);
    ColumnAssociates(v, a, b, 1);
    ColumnAssociates(v, a, b, 2);
    ColumnAssociates(v, a, b, 3);
  }

  lemma ColumnAssociates(v: Vec3, a: Mat4x4, b: Mat4x4, col: int)
    requires Valid(a) && Valid(b) && 0 <= col < 4
    ensures Column(VecMatrixMul(v, a), b, col) == Column(v, MulSpec(a, b), col)
  {
    ExpandOuter(v, a, b, col);
    ExpandInner(v, a, b, col);
  }

  /** Both sides of `ColumnAssociates` expand to the same sixteen products. */
  function Expanded(v: Vec3, a: Mat4x4, b: Mat4x4, col: int): real
    requires Valid(a) && Valid(b) && 0 <= col < 4
  {
    var A, B := a.cells, b.cells;
    v.x * (A[0][0] * B[0][col]) + v.y * (A[1][0] * B[0][col]) + v.z * (A[2][0] * B[0][col]) + v.w * (A[3][0] * B[0][col])
    + (v.x * (A[0][1] * B[1][col]) + v.y * (A[1][1] * B[1][col]) + v.z * (A[2][1] * B[1][col]) + v.w * (A[3][1] * B[1][col]))
    + (v.x * (A[0][2] * B[2][col]) + v.y * (A[1][2] * B[2][col]) + v.z * (A[2][2] * B[2][col]) + v.w * (A[3][2] * B[2][col]))
    + (v.x * (A[0][3] * B[3][col]) + v.y * (A[1][3] * B[3][col]) + v.z * (A[2][3] * B[3][col]) + v.w * (A[3][3] * B[3][col]))
  }

  lemma ExpandOuter(v: Vec3, a: Mat4x4, b: Mat4x4, col: int)
    requires Valid(a) && Valid(b) && 0 <= col < 4
    ensures Column(VecMatrixMul(v, a), b, col) == Expanded(v, a, b, col)
  {
    var A, B := a.cells, b.cells;
    ScaleSum(v.x, v.y, v.z, v.w, A[0][0], A[1][0], A[2][0], A[3][0], B[0][col]);
    ScaleSum(v.x, v.y, v.z, v.w, A[0][1], A[1][1], A[2][1], A[3][1], B[1][col]);
    ScaleSum(v.x, v.y, v.z, v.w, A[0][2], A[1][2], A[2][2], A[3][2], B[2][col]);
    ScaleSum(v.x, v.y, v.z, v.w, A[0][3], A[1][3], A[2][3], A[3][3], B[3][col]);
  }

  lemma ExpandInner(v: Vec3, a: Mat4x4, b: Mat4x4, col: int)
    requires Valid(a) && Valid(b) && 0 <= col < 4
    ensures Column(v, MulSpec(a, b), col) == Expanded(v, a, b, col)
  {
    var A, B := a.cells, b.cells;
    SumScale(v.x, A[0][0] * B[0][col], A[0][1] * B[1][col], A[0][2] * B[2][col], A[0][3] * B[3][col]);
    SumScale(v.y, A[1][0] * B[0][col], A[1][1] * B[1][col], A[1][2] * B[2][col], A[1][3] * B[3][col]);
    SumScale(v.z, A[2][0] * B[0][col], A[2][1] * B[1][col], A[2][2] * B[2][col], A[2][3] * B[3][col]);
    SumScale(v.w, A[3][0] * B[0][col], A[3][1] * B[1][col], A[3][2] * B[2][col], A[3][3] * B[3][col]);
  }

  lemma ScaleSum(v0: real, v1: real, v2: real, v3: real, c0: real, c1: real, c2: real, c3: real, k: real)
    ensures (v0 * c0 + v1 * c1 + v2 * c2 + v3 * c3) * k == v0 * (c0 * k) + v1 * (c1 * k) + v2 * (c2 * k) + v3 * (c3 * k)
  {
  }

  lemma SumScale(k: real, x0: real, x1: real, x2: real, x3: real)
    ensures k * (x0 + x1 + x2 + x3) == k * x0 + k * x1 + k * x2 + k * x3
  {
  }

  /** At angle 0 every rotation builder yields the identity. */
  lemma RotationsAtZero(m: Libm)
    requires Lawful(m)
    ensures RotX(m, 0.0) == Identity()
    ensures RotY(m, 0.0) == Identity()
    ensures RotZ(m, 0.0) == Identity()
  {
  }

  /** The X rotation keeps x and w; the Z rotation keeps z and w; the Y
      rotation keeps y and w. */
  lemma RotationsKeepAxis(m: Libm, angle: real, v: Vec3)
    ensures VecMatrixMul(v, RotX(m, angle)).x == v.x && VecMatrixMul(v, RotX(m, angle)).w == v.w
    ensures VecMatrixMul(v, RotY(m, angle)).y == v.y && VecMatrixMul(v, RotY(m, angle)).w == v.w
    ensures VecMatrixMul(v, RotZ(m, angle)).z == v.z && VecMatrixMul(v, RotZ(m, angle)).w == v.w
  {
  }

  /** The X rotation is a rotation: it keeps the vector's length. */
  lemma RotXKeepsLength(m: Libm, angle: real, v: Vec3)
    requires Lawful(m)
    ensures LengthSquared(VecMatrixMul(v, RotX(m, angle))) == LengthSquared(v)
  {
    var c, s := m.cos(angle), m.sin(angle);
    assert s * s + c * c == 1.0;
    var r := VecMatrixMul(v, RotX(m, angle));
    assert r.y == v.y * c - v.z * s;
    assert r.z == v.y * s + v.z * c;
    calc {
      LengthSquared(r);
    ==
      v.x * v.x + (v.y * c - v.z * s) * (v.y * c - v.z * s) + (v.y * s + v.z * c) * (v.y * s + v.z * c);
    ==
      v.x * v.x + (v.y * v.y + v.z * v.z) * (s * s + c * c);
    ==
      v.x * v.x + (v.y * v.y + v.z * v.z) * 1.0;
    ==
      LengthSquared(v);
    }
  }

  /** A point (w = 1) times the translation matrix is moved by `pos`. */
  lemma TranslationMovesPoint(v: Vec3, pos: Vec3)
    requires v.w == 1.0
    ensures VecMatrixMul(v, Translation(pos)) == Vec3(v.x + pos.x, v.y + pos.y, v.z + pos.z, 1.0)
  {
  }

  /** The projection matrix copies the input z into w, so the perspective
      divide that follows divides by the depth; the projected z is
      far (z - near) / (far - near), which is 0 on the near plane and `far` on the
      far plane. */
  lemma ProjectionKeepsDepthInW(m: Libm, fovDegrees: real, aspectRatio: real, near: real, far: real, v: Vec3)
    requires m.tan(HalfFovRadians(fovDegrees)) != 0.0
    requires far != near
    requires v.w == 1.0
    ensures var p := VecMatrixMul(v, Projection(m, fovDegrees, aspectRatio, near, far));
      && p.w == v.z
      && p.x == v.x * aspectRatio / m.tan(HalfFovRadians(fovDegrees))
      && p.y == v.y / m.tan(HalfFovRadians(fovDegrees))
      && p.z == far * (v.z - near) / (far - near)
  {
    var t := m.tan(HalfFovRadians(fovDegrees));
    var p := VecMatrixMul(v, Projection(m, fovDegrees, aspectRatio, near, far));
    assert p.x == v.x * (aspectRatio * (1.0 / t));
    assert p.y == v.y * (1.0 / t);
    assert p.z == v.z * (far / (far - near)) + (-far * near) / (far - near);
  }

  /** The point-at matrix of the identity basis is the identity. */
  lemma PointAtIdentityBasis()
    ensures PointAt(Point(1.0, 0.0, 0.0), Point(0.0, 1.0, 0.0), Point(0.0, 0.0, 1.0)) == Identity()
  {
  }

  /** The point-at matrix expresses a vector in the camera basis: the new
      coordinates are the dot products with right, up and forward. */
  lemma PointAtProjectsOnBasis(v: Vec3, right: Vec3, up: Vec3, forward: Vec3)
    ensures var r := VecMatrixMul(v, PointAt(right, up, forward));
      r == Vec3(Dot(v, right), Dot(v, up), Dot(v, forward), v.w)
  {
  }
}
