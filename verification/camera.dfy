/** The camera (src/camera.ts): a position, a basis (right, up, forward) and
    two accumulated angles.  The basis is rebuilt from the identity basis
    every time the view matrix is requested. */
module Cameras {
  import opened Numerics
  import opened Vectors
  import opened Matrices
  import opened Triangles

  /** The rotation `updateAxii` applies: pitch about x, then yaw about y. */
  function Rotation(m: Libm, pitch: real, yaw: real): (r: Mat4x4)
    ensures Valid(r)
  {
    MulSpec(RotX(m, pitch), RotY(m, yaw))
  }

  const InitialForward: Vec3 := Point(0.0, 0.0, 1.0)
  const InitialUp: Vec3 := Point(0.0, 1.0, 0.0)
  const InitialRight: Vec3 := Point(1.0, 0.0, 0.0)

  /** The view matrix for a position and a pair of angles: the translation by
      -position, then the point-at matrix of the rotated basis. */
  function ViewMatrix(m: Libm, position: Vec3, pitch: real, yaw: real): (r: Mat4x4)
    ensures Valid(r)
  {
    MulSpec(Translation(Point(-position.x, -position.y, -position.z)), ViewBasis(m, pitch, yaw))
  }

  /** The point-at matrix of the rotated identity basis. */
  function ViewBasis(m: Libm, pitch: real, yaw: real): (r: Mat4x4)
    ensures Valid(r)
  {
    var rot := Rotation(m, pitch, yaw);
    PointAt(VecMatrixMul(InitialRight, rot), VecMatrixMul(InitialUp, rot), VecMatrixMul(InitialForward, rot))
  }

  class Camera {
    var position: Vec3
    var up: Vec3
    var forward: Vec3
    var right: Vec3
    var anglePitch: real
    var angleYaw: real

    /** `new Camera(position, up, forward, right)`: both angles start at 0. */
    constructor(position: Vec3, up: Vec3, forward: Vec3, right: Vec3)
      ensures this.position == position && this.up == up
      ensures this.forward == forward && this.right == right
      ensures anglePitch == 0.0 && angleYaw == 0.0
    {
      this.position := position;
      this.up := up;
      this.forward := forward;
      this.right := right;
      anglePitch := 0.0;
      angleYaw := 0.0;
    }

    /** `new Camera()`: the constructor's defaults. */
    constructor Default()
      ensures position == Point(0.0, 0.0, 0.0)
      ensures up == InitialUp && forward == InitialForward && right == InitialRight
      ensures anglePitch == 0.0 && angleYaw == 0.0
    {
      position := Point(0.0, 0.0, 0.0);
      up := InitialUp;
      forward := InitialForward;
      right := InitialRight;
      anglePitch := 0.0;
      angleYaw := 0.0;
    }

    /** `yaw`: accumulates the angle; nothing else changes. */
    method Yaw(angle: real)
      modifies this
      ensures angleYaw == old(angleYaw) + angle
      ensures anglePitch == old(anglePitch) && position == old(position)
      ensures up == old(up) && forward == old(forward) && right == old(right)
    {
      angleYaw := angleYaw + angle;
    }

    /** `pitch`: accumulates the angle; nothing else changes. */
    method Pitch(angle: real)
      modifies this
      ensures anglePitch == old(anglePitch) + angle
      ensures angleYaw == old(angleYaw) && position == old(position)
      ensures up == old(up) && forward == old(forward) && right == old(right)
    {
      anglePitch := anglePitch + angle;
    }

    /** `axiiIdentity`: the basis back to the axes. */
    method AxiiIdentity()
      modifies this
      ensures forward == InitialForward && up == InitialUp && right == InitialRight
      ensures position == old(position) && anglePitch == old(anglePitch) && angleYaw == old(angleYaw)
    {
      forward := Point(0.0, 0.0, 1.0);
      up := Point(0.0, 1.0, 0.0);
      right := Point(1.0, 0.0, 0.0);
    }

    /** The basis `updateAxii` leaves behind: the three axes rotated by the
      current pitch, then the current yaw. */
    ghost predicate Oriented(m: Libm)
      reads this
    {
      && forward == VecMatrixMul(InitialForward, Rotation(m, anglePitch, angleYaw))
      && right == VecMatrixMul(InitialRight, Rotation(m, anglePitch, angleYaw))
      && up == VecMatrixMul(InitialUp, Rotation(m, anglePitch, angleYaw))
    }

    /** `updateAxii`: the basis is the identity basis rotated by the current
      angles, whatever it was before. */
    method UpdateAxii(m: Libm)
      modifies this
      ensures forward == VecMatrixMul(InitialForward, Rotation(m, anglePitch, angleYaw))
      ensures right == VecMatrixMul(InitialRight, Rotation(m, anglePitch, angleYaw))
      ensures up == VecMatrixMul(InitialUp, Rotation(m, anglePitch, angleYaw))
      ensures position == old(position) && anglePitch == old(anglePitch) && angleYaw == old(angleYaw)
    {
      AxiiIdentity();
      var rotationMatX := RotX(m, anglePitch);
      var rotationMatY := RotY(m, angleYaw);
      var rotate := Multiply(rotationMatX, rotationMatY);
      forward := VecMatrixMul(forward, rotate);
      right := VecMatrixMul(right, rotate);
      up := VecMatrixMul(up, rotate);
    }

    /** `cameraMatrix`: rebuilds the basis, then returns the view matrix.  It
      depends only on the position and the angles, which it leaves unchanged,
      so two calls in a row return the same matrix. */
    method CameraMatrix(m: Libm) returns (r: Mat4x4)
      modifies this
      ensures r == ViewMatrix(m, position, anglePitch, angleYaw)
      ensures forward == VecMatrixMul(InitialForward, Rotation(m, anglePitch, angleYaw))
      ensures right == VecMatrixMul(InitialRight, Rotation(m, anglePitch, angleYaw))
      ensures up == VecMatrixMul(InitialUp, Rotation(m, anglePitch, angleYaw))
      ensures position == old(position) && anglePitch == old(anglePitch) && angleYaw == old(angleYaw)
    {
      UpdateAxii(m);
      var translationMat := Translation(Point(-position.x, -position.y, -position.z));
      var pointAtMatrix := PointAt(right, up, forward);
      r := Multiply(translationMat, pointAtMatrix);
    }

    /** `isVisibleTri`: the surface normal against the ray from `forward` (not
      from the position) to the first vertex. */
    predicate IsVisibleTri(m: Libm, tri: Tri)
      reads this
      requires GetLength(m, EdgeCross(tri)) != 0.0
    {
      FacesCamera(m, forward, tri)
    }
  }

  /** The test `isVisibleTri` applies, for a camera whose forward vector is
      `forward`: the normal points against the ray from `forward` to the
      first vertex. */
  predicate FacesCamera(m: Libm, forward: Vec3, tri: Tri)
    requires GetLength(m, EdgeCross(tri)) != 0.0
  {
    Dot(SurfaceNormal(m, tri), Sub(tri.v1, forward)) < 0.0
  }

  // ---- properties ----

  /** With both angles 0 the rotation is the identity and the basis is the
      axes. */
  lemma BasisAtZeroAngles(m: Libm)
    requires Lawful(m)
    ensures Rotation(m, 0.0, 0.0) == Identity()
    ensures VecMatrixMul(InitialForward, Rotation(m, 0.0, 0.0)) == InitialForward
    ensures VecMatrixMul(InitialUp, Rotation(m, 0.0, 0.0)) == InitialUp
    ensures VecMatrixMul(InitialRight, Rotation(m, 0.0, 0.0)) == InitialRight
  {
    RotationsAtZero(m);
    IdentityIsNeutral(Identity());
    IdentityKeepsVector(InitialForward);
    IdentityKeepsVector(InitialUp);
    IdentityKeepsVector(InitialRight);
  }

  /** With both angles 0 the view matrix is just the translation by
      -position. */
  lemma ViewMatrixAtZeroAngles(m: Libm, position: Vec3)
    requires Lawful(m)
    ensures ViewMatrix(m, position, 0.0, 0.0) == Translation(Point(-position.x, -position.y, -position.z))
  {
    var t := Translation(Point(-position.x, -position.y, -position.z));
    assert ViewMatrix(m, position, 0.0, 0.0) == MulSpec(t, ViewBasis(m, 0.0, 0.0));
    ViewBasisAtZeroAngles(m);
    IdentityIsNeutral(t);
  }

  /** With both angles 0 the basis matrix is the identity. */
  lemma ViewBasisAtZeroAngles(m: Libm)
    requires Lawful(m)
    ensures ViewBasis(m, 0.0, 0.0) == Identity()
  {
    BasisAtZeroAngles(m);
    PointAtIdentityBasis();
  }

  /** With both angles 0 the view matrix takes the camera's position (as a
      point, w = 1) to the origin. */
  lemma ViewMatrixCentresPosition(m: Libm, position: Vec3)
    requires Lawful(m)
    requires position.w == 1.0
    ensures VecMatrixMul(position, ViewMatrix(m, position, 0.0, 0.0)) == Point(0.0, 0.0, 0.0)
  {
    ViewMatrixAtZeroAngles(m, position);
    TranslationMovesPoint(position, Point(-position.x, -position.y, -position.z));
  }

  /** The same triangle with v2 and v3 swapped. */
  function ReverseWinding(tri: Tri): (r: Tri)
    ensures Vertices(r) == [tri.v1, tri.v3, tri.v2]
  {
    tri.(v2 := tri.v3, v3 := tri.v2, t2 := tri.t3, t3 := tri.t2)
  }

  /** Reversing the winding negates the surface normal. */
  lemma ReverseWindingNegatesNormal(m: Libm, tri: Tri)
    requires GetLength(m, EdgeCross(tri)) != 0.0
    ensures GetLength(m, EdgeCross(ReverseWinding(tri))) == GetLength(m, EdgeCross(tri))
    ensures SameXYZ(SurfaceNormal(m, ReverseWinding(tri)), GetOppositeVector(SurfaceNormal(m, tri)))
  {
    var c := EdgeCross(tri);
    var d := EdgeCross(ReverseWinding(tri));
    assert SameXYZ(d, GetOppositeVector(c));
    assert LengthSquared(d) == LengthSquared(c);
    var len := GetLength(m, c);
    assert d.x / len == -(c.x / len);
    assert d.y / len == -(c.y / len);
    assert d.z / len == -(c.z / len);
  }

  /** The back-face test: a triangle and the same triangle with the opposite
      winding are never both visible, and cameras with the same `forward` agree
      whatever their positions. */
  lemma VisibilityIsOneSided(m: Libm, cam: Camera, other: Camera, tri: Tri)
    requires GetLength(m, EdgeCross(tri)) != 0.0
    requires other.forward == cam.forward
    ensures GetLength(m, EdgeCross(ReverseWinding(tri))) != 0.0
    ensures cam.IsVisibleTri(m, tri) ==> !cam.IsVisibleTri(m, ReverseWinding(tri))
    ensures cam.IsVisibleTri(m, tri) == other.IsVisibleTri(m, tri)
  {
    ReverseWindingNegatesNormal(m, tri);
    var n := SurfaceNormal(m, tri);
    var ray := Sub(tri.v1, cam.forward);
    assert Dot(SurfaceNormal(m, ReverseWinding(tri)), ray) == -Dot(n, ray);
  }
}
