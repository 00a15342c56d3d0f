/** Planes (src/plane.ts): a normal and a point on the plane.  The side the
    normal points to is "inside" (positive signed distance). */
module Planes {
  import opened Numerics
  import opened Vectors

  datatype Plane = Plane(normal: Vec3, point: Vec3)

  /** `Plane.distFromPlane`: n . v - n . p, with the stored (not normalised)
      normal.  The normalised copy of `v` the TypeScript computes first is never
      used and is not modelled. */
  function DistFromPlane(plane: Plane, v: Vec3): real {
    plane.normal.x * v.x + plane.normal.y * v.y + plane.normal.z * v.z - Dot(plane.normal, plane.point)
  }

  /** The intersection parameter of `linePlaneIntersect` (its local `t`), which
      the clipper also reads as `getNormalizedIntersectionDistance`.  It is
      defined when the normal has a non-zero length and the segment's ends are
      at different distances from the plane. */
  predicate Crosses(m: Libm, plane: Plane, start: Vec3, end: Vec3) {
    GetLength(m, plane.normal) != 0.0 && DistFromPlane(plane, start) != DistFromPlane(plane, end)
  }

  function IntersectionT(m: Libm, plane: Plane, start: Vec3, end: Vec3): real
    requires Crosses(m, plane, start, end)
  {
    var n := Normalize(m, plane.normal);
    var planeDistance := -Dot(n, plane.point);
    var startDistance := Dot(start, n);
    var endDistance := Dot(end, n);
    ScaledDistances(m, plane, start, end);
    (-planeDistance - startDistance) / (endDistance - startDistance)
  }

  /** `Plane.linePlaneIntersect`: start + (end - start) t. */
  function LinePlaneIntersect(m: Libm, plane: Plane, start: Vec3, end: Vec3): (r: Vec3)
    requires Crosses(m, plane, start, end)
    ensures r.w == 1.0
  {
    Add(start, Mul(Sub(end, start), IntersectionT(m, plane, start, end)))
  }

  // ---- properties ----

  /** The signed distance is the normal dotted with the offset from the
      plane's point, and does not depend on `w`. */
  lemma DistIsDotOfOffset(plane: Plane, v: Vec3, w: real)
    ensures DistFromPlane(plane, v) == Dot(plane.normal, Sub(v, plane.point))
    ensures DistFromPlane(plane, v) == DistFromPlane(plane, Vec3(v.x, v.y, v.z, w))
  {
  }

  /** The plane's own point lies on the plane. */
  lemma PointOnOwnPlane(plane: Plane)
    ensures DistFromPlane(plane, plane.point) == 0.0
  {
  }

  /** The signed distance is affine along a segment. */
  lemma DistAlongSegment(plane: Plane, start: Vec3, end: Vec3, t: real)
    ensures DistFromPlane(plane, Add(start, Mul(Sub(end, start), t)))
         == DistFromPlane(plane, start) + t * (DistFromPlane(plane, end) - DistFromPlane(plane, start))
  {
    var n := plane.normal;
    calc {
      DistFromPlane(plane, Add(start, Mul(Sub(end, start), t)));
    ==
      n.x * (start.x + (end.x - start.x) * t) + n.y * (start.y + (end.y - start.y) * t)
        + n.z * (start.z + (end.z - start.z) * t) - Dot(n, plane.point);
    ==
      DistFromPlane(plane, start) + t * (DistFromPlane(plane, end) - DistFromPlane(plane, start));
    }
  }

  /** Dotting with the normalised normal divides each distance term by the
      normal's length; in particular the two ends' terms differ. */
  lemma ScaledDistances(m: Libm, plane: Plane, start: Vec3, end: Vec3)
    requires GetLength(m, plane.normal) != 0.0
    ensures var n := Normalize(m, plane.normal);
      var len := GetLength(m, plane.normal);
      && Dot(n, plane.point) == Dot(plane.normal, plane.point) / len
      && Dot(start, n) == Dot(start, plane.normal) / len
      && Dot(end, n) == Dot(end, plane.normal) / len
      && (Dot(end, n) - Dot(start, n) == 0.0 <==> DistFromPlane(plane, end) == DistFromPlane(plane, start))
  {
    var len := GetLength(m, plane.normal);
    DotScaled(plane.point, plane.normal, len);
    DotScaled(start, plane.normal, len);
    DotScaled(end, plane.normal, len);
    QuotientsEqual(Dot(end, plane.normal), Dot(start, plane.normal), len);
    DistancesEqual(plane, start, end);
  }

  lemma DistancesEqual(plane: Plane, start: Vec3, end: Vec3)
    ensures DistFromPlane(plane, end) == DistFromPlane(plane, start) <==> Dot(end, plane.normal) == Dot(start, plane.normal)
  {
    DotCommutes(start, plane.normal);
    DotCommutes(end, plane.normal);
  }

  lemma QuotientsEqual(a: real, b: real, k: real)
    requires k != 0.0
    ensures a / k - b / k == 0.0 <==> a == b
  {
    DivMul(a, k);
    DivMul(b, k);
  }

  /** Whatever the normal's length, `t` is ds / (ds - de) for the signed
      distances ds of the start and de of the end. */
  lemma IntersectionTIsDistanceRatio(m: Libm, plane: Plane, start: Vec3, end: Vec3)
    requires Crosses(m, plane, start, end)
    ensures var ds := DistFromPlane(plane, start);
      IntersectionT(m, plane, start, end) == ds / (ds - DistFromPlane(plane, end))
  {
    var len := GetLength(m, plane.normal);
    ScaledDistances(m, plane, start, end);
    DotCommutes(start, plane.normal);
    DotCommutes(end, plane.normal);
    var pd := Dot(plane.normal, plane.point);
    var sd := Dot(start, plane.normal);
    var ed := Dot(end, plane.normal);
    assert IntersectionT(m, plane, start, end) == (pd / len - sd / len) / (ed / len - sd / len);
    ScaledRatio(pd, sd, ed, len);
    var ds := DistFromPlane(plane, start);
    var de := DistFromPlane(plane, end);
    assert ds == sd - pd && de == ed - pd;
  }

  lemma ScaledRatio(pd: real, sd: real, ed: real, len: real)
    requires len != 0.0 && ed != sd
    ensures (pd / len - sd / len) / (ed / len - sd / len) == (sd - pd) / ((sd - pd) - (ed - pd))
  {
    RatioOfQuotients(pd - sd, ed - sd, len);
    NegateRatio(pd - sd, ed - sd);
  }

  lemma NegateRatio(a: real, b: real)
    requires b != 0.0
    ensures a / b == (-a) / (-b)
  {
  }

  /** The intersection point lies on the plane. */
  lemma IntersectionOnPlane(m: Libm, plane: Plane, start: Vec3, end: Vec3)
    requires Crosses(m, plane, start, end)
    ensures DistFromPlane(plane, LinePlaneIntersect(m, plane, start, end)) == 0.0
  {
    var t := IntersectionT(m, plane, start, end);
    var ds := DistFromPlane(plane, start);
    var de := DistFromPlane(plane, end);
    IntersectionTIsDistanceRatio(m, plane, start, end);
    DistAlongSegment(plane, start, end, t);
    DivMul(ds, ds - de);
  }

  /** From a start inside (distance >= 0) to an end outside (< 0), `t` lies in
      [0, 1), so the intersection lies on the segment, before its end. */
  lemma IntersectionTOnSegment(m: Libm, plane: Plane, start: Vec3, end: Vec3)
    requires GetLength(m, plane.normal) != 0.0
    requires DistFromPlane(plane, start) >= 0.0 > DistFromPlane(plane, end)
    ensures Crosses(m, plane, start, end)
    ensures 0.0 <= IntersectionT(m, plane, start, end) < 1.0
  {
    IntersectionTIsDistanceRatio(m, plane, start, end);
    var ds := DistFromPlane(plane, start);
    var de := DistFromPlane(plane, end);
    FractionBounds(ds, ds - de);
  }

  lemma FractionBounds(a: real, b: real)
    requires 0.0 <= a < b
    ensures 0.0 <= a / b < 1.0
  {
    DivMul(a, b);
  }

  /** A start already on the plane is its own intersection point (in x, y, z). */
  lemma IntersectionAtStart(m: Libm, plane: Plane, start: Vec3, end: Vec3)
    requires Crosses(m, plane, start, end)
    requires DistFromPlane(plane, start) == 0.0
    ensures IntersectionT(m, plane, start, end) == 0.0
    ensures SameXYZ(LinePlaneIntersect(m, plane, start, end), start)
  {
    IntersectionTIsDistanceRatio(m, plane, start, end);
  }
}
