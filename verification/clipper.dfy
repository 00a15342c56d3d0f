/** Clipping one triangle against one plane (src/triangle-clipper.ts).  A vertex
    at signed distance >= 0 is inside.  The result holds 0, 1 or 2 triangles,
    each carrying the input's light intensity. */
module Clipping {
  import opened Numerics
  import opened Vectors
  import opened Texels
  import opened Triangles
  import opened Planes

  /** The four lists `classifyPoints` returns. */
  datatype Classified = Classified(
    insidePoints: seq<Vec3>, outsidePoints: seq<Vec3>,
    texelsInsidePoints: seq<Texel>, texelsOutsidePoints: seq<Texel>)

  predicate IsInside(plane: Plane, v: Vec3) {
    DistFromPlane(plane, v) >= 0.0
  }

  /** The four lists after the first n vertices have been pushed. */
  function ClassifyPrefix(plane: Plane, tri: Tri, n: nat): (c: Classified)
    requires n <= 3
    ensures |c.insidePoints| + |c.outsidePoints| == n
    ensures |c.texelsInsidePoints| == |c.insidePoints|
    ensures |c.texelsOutsidePoints| == |c.outsidePoints|
    ensures forall i :: 0 <= i < |c.insidePoints| ==> IsInside(plane, c.insidePoints[i])
    ensures forall i :: 0 <= i < |c.outsidePoints| ==> !IsInside(plane, c.outsidePoints[i])
  {
    if n == 0 then Classified([], [], [], [])
    else
      var c := ClassifyPrefix(plane, tri, n - 1);
      var v := Vertices(tri)[n - 1];
      var t := TexelsOf(tri)[n - 1];
      if IsInside(plane, v) then
        c.(insidePoints := c.insidePoints + [v], texelsInsidePoints := c.texelsInsidePoints + [t])
      else
        c.(outsidePoints := c.outsidePoints + [v], texelsOutsidePoints := c.texelsOutsidePoints + [t])
  }

  function Classify(plane: Plane, tri: Tri): Classified {
    ClassifyPrefix(plane, tri, 3)
  }

  /** `classifyPoints`: one pass over the three vertices, pushing each vertex
      and its texel onto the inside or the outside lists. */
  method ClassifyPoints(plane: Plane, tri: Tri) returns (c: Classified)
    ensures c == Classify(plane, tri)
  {
    var insidePoints: seq<Vec3> := [];
    var outsidePoints: seq<Vec3> := [];
    var texelsInsidePoints: seq<Texel> := [];
    var texelsOutsidePoints: seq<Texel> := [];
    var points := [tri.v1, tri.v2, tri.v3];
    var texels := [tri.t1, tri.t2, tri.t3];
    for i := 0 to 3
      invariant Classified(insidePoints, outsidePoints, texelsInsidePoints, texelsOutsidePoints)
             == ClassifyPrefix(plane, tri, i)
    {
      var point := points[i];
      var texel := texels[i];
      var dist := DistFromPlane(plane, point);
      if dist >= 0.0 {
        insidePoints := insidePoints + [point];
        texelsInsidePoints := texelsInsidePoints + [texel];
      } else {
        outsidePoints := outsidePoints + [point];
        texelsOutsidePoints := texelsOutsidePoints + [texel];
      }
    }
    c := Classified(insidePoints, outsidePoints, texelsInsidePoints, texelsOutsidePoints);
  }

  /** `interpolateTexel`: inside + t (outside - inside), field by field.  The
      TypeScript also takes the plane, which it does not use. */
  function InterpolateTexel(inside: Texel, outside: Texel, t: real): (r: Texel)
    ensures t == 0.0 ==> r == inside
    ensures t == 1.0 ==> r == outside
  {
    Texel(t * (outside.u - inside.u) + inside.u,
          t * (outside.v - inside.v) + inside.v,
          t * (outside.w - inside.w) + inside.w)
  }

  /** The point where the edge from an inside vertex to an outside vertex
      meets the plane, with its texel interpolated by the same `t`. */
  function EdgePoint(m: Libm, plane: Plane, inside: Vec3, outside: Vec3): Vec3
    requires Crosses(m, plane, inside, outside)
  {
    LinePlaneIntersect(m, plane, inside, outside)
  }

  function EdgeTexel(m: Libm, plane: Plane, inside: Vec3, outside: Vec3, tin: Texel, tout: Texel): Texel
    requires Crosses(m, plane, inside, outside)
  {
    InterpolateTexel(tin, tout, IntersectionT(m, plane, inside, outside))
  }

  /** The normal has a non-zero length and each inside vertex is at a
      different distance from each outside vertex. */
  predicate CanCut(m: Libm, plane: Plane, c: Classified) {
    && GetLength(m, plane.normal) != 0.0
    && |c.texelsInsidePoints| == |c.insidePoints|
    && |c.texelsOutsidePoints| == |c.outsidePoints|
    && (forall i :: 0 <= i < |c.insidePoints| ==> IsInside(plane, c.insidePoints[i]))
    && (forall i :: 0 <= i < |c.outsidePoints| ==> !IsInside(plane, c.outsidePoints[i]))
  }

  /** `handleOneInsidePoint`: the inside vertex and the two points where its
      edges leave the plane. */
  function HandleOneInsidePoint(m: Libm, tri: Tri, plane: Plane, c: Classified): (r: seq<Tri>)
    requires CanCut(m, plane, c)
    requires |c.insidePoints| == 1 && |c.outsidePoints| == 2
    ensures |r| == 1
  {
    var in0 := c.insidePoints[0];
    var out0 := c.outsidePoints[0];
    var out1 := c.outsidePoints[1];
    var v2 := EdgePoint(m, plane, in0, out0);
    var texel2 := EdgeTexel(m, plane, in0, out0, c.texelsInsidePoints[0], c.texelsOutsidePoints[0]);
    var v3 := EdgePoint(m, plane, in0, out1);
    var texel3 := EdgeTexel(m, plane, in0, out1, c.texelsInsidePoints[0], c.texelsOutsidePoints[1]);
    var newTri := NewTri(in0, v2, v3, Some(c.texelsInsidePoints[0]), Some(texel2), Some(texel3));
    [newTri.(intensity := tri.intensity)]
  }

  /** `handleTwoInsidePoints`: the quad left inside, split into the fan
      (in0, in1, p0) and (in1, p0, p1), where p0 is on edge in0 -> out and p1 on
      edge in1 -> out. */
  function HandleTwoInsidePoints(m: Libm, tri: Tri, plane: Plane, c: Classified): (r: seq<Tri>)
    requires CanCut(m, plane, c)
    requires |c.insidePoints| == 2 && |c.outsidePoints| == 1
    ensures |r| == 2
  {
    var in0 := c.insidePoints[0];
    var in1 := c.insidePoints[1];
    var out0 := c.outsidePoints[0];
    var newTri1v3 := EdgePoint(m, plane, in0, out0);
    var newTri1uv3 := EdgeTexel(m, plane, in0, out0, c.texelsInsidePoints[0], c.texelsOutsidePoints[0]);
    var newTri1 := NewTri(in0, in1, newTri1v3,
      Some(c.texelsInsidePoints[0]), Some(c.texelsInsidePoints[1]), Some(newTri1uv3));
    var newTri2v3 := EdgePoint(m, plane, in1, out0);
    var newTri2uv3 := EdgeTexel(m, plane, in1, out0, c.texelsInsidePoints[1], c.texelsOutsidePoints[0]);
    var newTri2 := NewTri(in1, newTri1v3, newTri2v3,
      Some(c.texelsInsidePoints[1]), Some(newTri1.t3), Some(newTri2uv3));
    [newTri1.(intensity := tri.intensity), newTri2.(intensity := tri.intensity)]
  }

  /** What `clipAgainstPlane` returns. */
  function Clip(m: Libm, plane: Plane, tri: Tri): (r: seq<Tri>)
    requires Lawful(m)
  {
    var c := Classify(plane, tri);
    if |c.insidePoints| == 0 then []
    else if |c.insidePoints| == 3 then [Copy(tri)]
    else
      NormalIsNonZero(m, plane, c.outsidePoints[0]);
      if |c.insidePoints| == 1 && |c.outsidePoints| == 2 then HandleOneInsidePoint(m, tri, plane, c)
      else if |c.insidePoints| == 2 && |c.outsidePoints| == 1 then HandleTwoInsidePoints(m, tri, plane, c)
      else []
  }

  /** `clipAgainstPlane` */
  method ClipAgainstPlane(m: Libm, plane: Plane, tri: Tri) returns (r: seq<Tri>)
    requires Lawful(m)
    ensures r == Clip(m, plane, tri)
  {
    var c := ClassifyPoints(plane, tri);
    if |c.insidePoints| == 0 {
      return [];
    }
    if |c.insidePoints| == 3 {
      return [Copy(tri)];
    }
    NormalIsNonZero(m, plane, c.outsidePoints[0]);
    if |c.insidePoints| == 1 && |c.outsidePoints| == 2 {
      return HandleOneInsidePoint(m, tri, plane, c);
    }
    if |c.insidePoints| == 2 && |c.outsidePoints| == 1 {
      return HandleTwoInsidePoints(m, tri, plane, c);
    }
    return [];
  }

  // ---- properties ----

  /** A vertex strictly outside proves the normal is not the zero vector, so
      under a lawful square root it has a non-zero length. */
  lemma NormalIsNonZero(m: Libm, plane: Plane, v: Vec3)
    requires Lawful(m)
    requires !IsInside(plane, v)
    ensures GetLength(m, plane.normal) != 0.0
  {
    var n := plane.normal;
    if n.x == 0.0 && n.y == 0.0 && n.z == 0.0 {
      assert false;
    }
    LengthSquaredPositive(n);
  }

  /** The indices 0, 1, 2 of the vertices on one side, in increasing order. */
  function SideIndices(plane: Plane, tri: Tri, inside: bool): (ix: seq<int>)
    ensures forall j :: 0 <= j < |ix| ==> 0 <= ix[j] < 3
    ensures forall j, k :: 0 <= j < k < |ix| ==> ix[j] < ix[k]
    ensures forall k :: 0 <= k < 3 ==> (k in ix <==> IsInside(plane, Vertices(tri)[k]) == inside)
  {
    SideIndex(plane, tri, inside, 0) + SideIndex(plane, tri, inside, 1) + SideIndex(plane, tri, inside, 2)
  }

  /** [k] when vertex k is on the side, [] otherwise. */
  function SideIndex(plane: Plane, tri: Tri, inside: bool, k: nat): seq<int>
    requires k < 3
  {
    if IsInside(plane, Vertices(tri)[k]) == inside then [k] else []
  }

  /** The elements of s at the indices ix, in the order of ix. */
  function Pick<T>(s: seq<T>, ix: seq<int>): (r: seq<T>)
    requires forall j :: 0 <= j < |ix| ==> 0 <= ix[j] < |s|
    ensures |r| == |ix|
  {
    seq(|ix|, j requires 0 <= j < |ix| => s[ix[j]])
  }

  /** Classification is a stable partition: each list holds the vertices on
      its side in their original order, each texel stays with its vertex, and
      the two sides together hold all three vertices. */
  lemma ClassifyIsStablePartition(plane: Plane, tri: Tri)
    ensures var c := Classify(plane, tri);
      var ix := SideIndices(plane, tri, true);
      var ox := SideIndices(plane, tri, false);
      && c.insidePoints == Pick(Vertices(tri), ix)
      && c.texelsInsidePoints == Pick(TexelsOf(tri), ix)
      && c.outsidePoints == Pick(Vertices(tri), ox)
      && c.texelsOutsidePoints == Pick(TexelsOf(tri), ox)
      && |c.insidePoints| + |c.outsidePoints| == 3
  {
    SideMatches(plane, tri, true);
    SideMatches(plane, tri, false);
  }

  /** One side's points and texels, as `classifyPoints` lists them. */
  function SidePoints(c: Classified, inside: bool): seq<Vec3> {
    if inside then c.insidePoints else c.outsidePoints
  }

  function SideTexels(c: Classified, inside: bool): seq<Texel> {
    if inside then c.texelsInsidePoints else c.texelsOutsidePoints
  }

  lemma SideMatches(plane: Plane, tri: Tri, inside: bool)
    ensures var c := Classify(plane, tri);
      var ix := SideIndices(plane, tri, inside);
      SidePoints(c, inside) == Pick(Vertices(tri), ix) && SideTexels(c, inside) == Pick(TexelsOf(tri), ix)
  {
    var ix1 := SideStep(plane, tri, inside, 0, []);
    var ix2 := SideStep(plane, tri, inside, 1, ix1);
    var ix3 := SideStep(plane, tri, inside, 2, ix2);
    assert [] + SideIndex(plane, tri, inside, 0) == SideIndex(plane, tri, inside, 0);
  }

  /** Pushing vertex n onto its side extends that side's index list by n
      when the vertex is on it. */
  lemma SideStep(plane: Plane, tri: Tri, inside: bool, n: nat, ix: seq<int>) returns (ix': seq<int>)
    requires n < 3
    requires forall j :: 0 <= j < |ix| ==> 0 <= ix[j] < 3
    requires SidePoints(ClassifyPrefix(plane, tri, n), inside) == Pick(Vertices(tri), ix)
    requires SideTexels(ClassifyPrefix(plane, tri, n), inside) == Pick(TexelsOf(tri), ix)
    ensures ix' == ix + SideIndex(plane, tri, inside, n)
    ensures forall j :: 0 <= j < |ix'| ==> 0 <= ix'[j] < 3
    ensures SidePoints(ClassifyPrefix(plane, tri, n + 1), inside) == Pick(Vertices(tri), ix')
    ensures SideTexels(ClassifyPrefix(plane, tri, n + 1), inside) == Pick(TexelsOf(tri), ix')
  {
    if IsInside(plane, Vertices(tri)[n]) == inside {
      ix' := ix + [n];
      SideGrows(plane, tri, inside, n, ix);
    } else {
      ix' := ix;
      assert ix' == ix + [];
      SideStays(plane, tri, inside, n);
    }
  }

  lemma SideGrows(plane: Plane, tri: Tri, inside: bool, n: nat, ix: seq<int>)
    requires n < 3 && IsInside(plane, Vertices(tri)[n]) == inside
    requires forall j :: 0 <= j < |ix| ==> 0 <= ix[j] < 3
    requires SidePoints(ClassifyPrefix(plane, tri, n), inside) == Pick(Vertices(tri), ix)
    requires SideTexels(ClassifyPrefix(plane, tri, n), inside) == Pick(TexelsOf(tri), ix)
    ensures SidePoints(ClassifyPrefix(plane, tri, n + 1), inside) == Pick(Vertices(tri), ix + [n])
    ensures SideTexels(ClassifyPrefix(plane, tri, n + 1), inside) == Pick(TexelsOf(tri), ix + [n])
  {
    PickSnoc(Vertices(tri), ix, n);
    PickSnoc(TexelsOf(tri), ix, n);
  }

  lemma SideStays(plane: Plane, tri: Tri, inside: bool, n: nat)
    requires n < 3 && IsInside(plane, Vertices(tri)[n]) != inside
    ensures SidePoints(ClassifyPrefix(plane, tri, n + 1), inside) == SidePoints(ClassifyPrefix(plane, tri, n), inside)
    ensures SideTexels(ClassifyPrefix(plane, tri, n + 1), inside) == SideTexels(ClassifyPrefix(plane, tri, n), inside)
  {
  }

  lemma PickSnoc<T>(s: seq<T>, ix: seq<int>, k: int)
    requires forall j :: 0 <= j < |ix| ==> 0 <= ix[j] < |s|
    requires 0 <= k < |s|
    ensures Pick(s, ix + [k]) == Pick(s, ix) + [s[k]]
  {
    var l := Pick(s, ix + [k]);
    var r := Pick(s, ix) + [s[k]];
    assert forall j | 0 <= j < |l| :: l[j] == r[j];
  }

  /** The inside and outside counts always sum to 3, so one of the four cases
      of `clipAgainstPlane` applies and its final `return []` is never reached. */
  lemma FallbackUnreachable(plane: Plane, tri: Tri)
    ensures var c := Classify(plane, tri);
      || |c.insidePoints| == 0
      || |c.insidePoints| == 3
      || (|c.insidePoints| == 1 && |c.outsidePoints| == 2)
      || (|c.insidePoints| == 2 && |c.outsidePoints| == 1)
  {
  }

  /** The number of triangles: none when no vertex is inside, the triangle
      itself when all are, one for one inside vertex and two for two. */
  lemma ClipCount(m: Libm, plane: Plane, tri: Tri)
    requires Lawful(m)
    ensures var k := |Classify(plane, tri).insidePoints|;
      |Clip(m, plane, tri)| == (if k == 0 then 0 else if k == 2 then 2 else 1)
    ensures |Clip(m, plane, tri)| == 0 <==> !IsInside(plane, tri.v1) && !IsInside(plane, tri.v2) && !IsInside(plane, tri.v3)
  {
    NoneInsideIff(plane, tri);
  }

  /** No vertex is listed inside exactly when none is inside. */
  lemma NoneInsideIff(plane: Plane, tri: Tri)
    ensures |Classify(plane, tri).insidePoints| == 0
      <==> !IsInside(plane, tri.v1) && !IsInside(plane, tri.v2) && !IsInside(plane, tri.v3)
  {
    var c1 := ClassifyPrefix(plane, tri, 1);
    var c2 := ClassifyPrefix(plane, tri, 2);
    assert |c1.insidePoints| == 0 <==> !IsInside(plane, tri.v1);
    assert |c2.insidePoints| == 0 <==> !IsInside(plane, tri.v1) && !IsInside(plane, tri.v2);
  }

  /** All three vertices inside: the triangle passes through unchanged. */
  lemma ClipAllInside(m: Libm, plane: Plane, tri: Tri)
    requires Lawful(m)
    requires IsInside(plane, tri.v1) && IsInside(plane, tri.v2) && IsInside(plane, tri.v3)
    ensures Clip(m, plane, tri) == [tri]
  {
    ClassifyIsStablePartition(plane, tri);
    CopyIsFieldwiseEqual(tri);
  }

  /** One vertex inside: one triangle, starting at the inside vertex and its
      texel, whose other two corners are where the inside vertex's edges to
      the two outside vertices (in vertex order) meet the plane, each texel
      interpolated with the same `t` as its position. */
  lemma ClipOneInside(m: Libm, plane: Plane, tri: Tri)
    requires Lawful(m)
    requires |Classify(plane, tri).insidePoints| == 1
    ensures var c := Classify(plane, tri);
      var in0 := c.insidePoints[0];
      var out0 := c.outsidePoints[0];
      var out1 := c.outsidePoints[1];
      var r := Clip(m, plane, tri);
      && Crosses(m, plane, in0, out0) && Crosses(m, plane, in0, out1)
      && |r| == 1
      && r[0].v1 == in0 && r[0].t1 == c.texelsInsidePoints[0]
      && r[0].v2 == LinePlaneIntersect(m, plane, in0, out0)
      && r[0].t2 == InterpolateTexel(c.texelsInsidePoints[0], c.texelsOutsidePoints[0], IntersectionT(m, plane, in0, out0))
      && r[0].v3 == LinePlaneIntersect(m, plane, in0, out1)
      && r[0].t3 == InterpolateTexel(c.texelsInsidePoints[0], c.texelsOutsidePoints[1], IntersectionT(m, plane, in0, out1))
      && r[0].intensity == tri.intensity
  {
    var c := Classify(plane, tri);
    NormalIsNonZero(m, plane, c.outsidePoints[0]);
  }

  /** Two vertices inside: exactly the fan (in0, in1, p0), (in1, p0, p1), where
      the second triangle shares the first one's new corner and its texel. */
  lemma ClipTwoInside(m: Libm, plane: Plane, tri: Tri)
    requires Lawful(m)
    requires |Classify(plane, tri).insidePoints| == 2
    ensures var c := Classify(plane, tri);
      var in0 := c.insidePoints[0];
      var in1 := c.insidePoints[1];
      var out0 := c.outsidePoints[0];
      var r := Clip(m, plane, tri);
      && Crosses(m, plane, in0, out0) && Crosses(m, plane, in1, out0)
      && |r| == 2
      && r[0].v1 == in0 && r[0].v2 == in1 && r[0].v3 == LinePlaneIntersect(m, plane, in0, out0)
      && r[0].t1 == c.texelsInsidePoints[0] && r[0].t2 == c.texelsInsidePoints[1]
      && r[0].t3 == InterpolateTexel(c.texelsInsidePoints[0], c.texelsOutsidePoints[0], IntersectionT(m, plane, in0, out0))
      && r[1].v1 == in1 && r[1].v2 == r[0].v3 && r[1].v3 == LinePlaneIntersect(m, plane, in1, out0)
      && r[1].t1 == c.texelsInsidePoints[1] && r[1].t2 == r[0].t3
      && r[1].t3 == InterpolateTexel(c.texelsInsidePoints[1], c.texelsOutsidePoints[0], IntersectionT(m, plane, in1, out0))
      && r[0].intensity == tri.intensity && r[1].intensity == tri.intensity
  {
    var c := Classify(plane, tri);
    ClassifyIsStablePartition(plane, tri);
    NormalIsNonZero(m, plane, c.outsidePoints[0]);
  }

  /** Every output triangle carries the input's light intensity. */
  lemma ClipKeepsIntensity(m: Libm, plane: Plane, tri: Tri)
    requires Lawful(m)
    ensures forall r :: r in Clip(m, plane, tri) ==> r.intensity == tri.intensity
  {
    var c := Classify(plane, tri);
    ClassifyIsStablePartition(plane, tri);
    var k := |c.insidePoints|;
    if k == 1 {
      ClipOneInside(m, plane, tri);
    } else if k == 2 {
      ClipTwoInside(m, plane, tri);
    }
  }

  /** Every vertex of every output triangle is inside the plane. */
  lemma ClipOutputInside(m: Libm, plane: Plane, tri: Tri)
    requires Lawful(m)
    ensures forall r :: r in Clip(m, plane, tri) ==> AllInside(plane, r)
  {
    var k := |Classify(plane, tri).insidePoints|;
    ClassifyIsStablePartition(plane, tri);
    if k == 1 {
      OneInsideOutputInside(m, plane, tri);
    } else if k == 2 {
      TwoInsideOutputInside(m, plane, tri);
    } else if k == 3 {
      ClipAllInside(m, plane, tri);
    }
  }

  predicate AllInside(plane: Plane, r: Tri) {
    IsInside(plane, r.v1) && IsInside(plane, r.v2) && IsInside(plane, r.v3)
  }

  lemma OneInsideOutputInside(m: Libm, plane: Plane, tri: Tri)
    requires Lawful(m)
    requires |Classify(plane, tri).insidePoints| == 1
    ensures |Clip(m, plane, tri)| == 1 && AllInside(plane, Clip(m, plane, tri)[0])
  {
    var c := Classify(plane, tri);
    ClipOneInside(m, plane, tri);
    IntersectionOnPlane(m, plane, c.insidePoints[0], c.outsidePoints[0]);
    IntersectionOnPlane(m, plane, c.insidePoints[0], c.outsidePoints[1]);
  }

  lemma TwoInsideOutputInside(m: Libm, plane: Plane, tri: Tri)
    requires Lawful(m)
    requires |Classify(plane, tri).insidePoints| == 2
    ensures |Clip(m, plane, tri)| == 2
    ensures AllInside(plane, Clip(m, plane, tri)[0]) && AllInside(plane, Clip(m, plane, tri)[1])
  {
    var c := Classify(plane, tri);
    ClipTwoInside(m, plane, tri);
    IntersectionOnPlane(m, plane, c.insidePoints[0], c.outsidePoints[0]);
    IntersectionOnPlane(m, plane, c.insidePoints[1], c.outsidePoints[0]);
  }
  /** A point of a segment at a parameter in [0, 1] is inside every plane
      both ends are inside: a half-space is convex. */
  lemma SegmentStaysInside(other: Plane, start: Vec3, end: Vec3, t: real)
    requires 0.0 <= t <= 1.0
    requires IsInside(other, start) && IsInside(other, end)
    ensures IsInside(other, Add(start, Mul(Sub(end, start), t)))
  {
    DistAlongSegment(other, start, end, t);
    var ds := DistFromPlane(other, start);
    var de := DistFromPlane(other, end);
    NonNegativeProduct(1.0 - t, ds);
    NonNegativeProduct(t, de);
    assert ds + t * (de - ds) == (1.0 - t) * ds + t * de;
  }

  lemma NonNegativeProduct(a: real, b: real)
    requires a >= 0.0 && b >= 0.0
    ensures a * b >= 0.0
  {
  }

  /** Where an edge from an inside vertex to an outside vertex meets the
      clipping plane is inside every plane both vertices are inside. */
  lemma EdgePointStaysInside(m: Libm, plane: Plane, other: Plane, inside: Vec3, outside: Vec3)
    requires GetLength(m, plane.normal) != 0.0
    requires IsInside(plane, inside) && !IsInside(plane, outside)
    requires IsInside(other, inside) && IsInside(other, outside)
    ensures Crosses(m, plane, inside, outside)
    ensures IsInside(other, LinePlaneIntersect(m, plane, inside, outside))
  {
    IntersectionTOnSegment(m, plane, inside, outside);
    SegmentStaysInside(other, inside, outside, IntersectionT(m, plane, inside, outside));
  }

  /** Clipping against one plane never moves a triangle out of a half-space
      that holds all of it: every output vertex is then inside that plane
      too.  So clipping against several planes in turn leaves triangles
      inside all of them. */
  lemma ClipStaysInside(m: Libm, plane: Plane, other: Plane, tri: Tri)
    requires Lawful(m)
    requires AllInside(other, tri)
    ensures forall r | r in Clip(m, plane, tri) :: AllInside(other, r)
  {
    var k := |Classify(plane, tri).insidePoints|;
    if k == 1 {
      OneInsideStaysInside(m, plane, other, tri);
    } else if k == 2 {
      TwoInsideStaysInside(m, plane, other, tri);
    } else if k == 3 {
      ClassifyIsStablePartition(plane, tri);
      ClipAllInside(m, plane, tri);
    } else {
      ClipCount(m, plane, tri);
    }
  }

  /** Every point `classifyPoints` lists is a vertex of the triangle. */
  lemma {:induction false} ClassifiedAreVertices(plane: Plane, tri: Tri, n: nat)
    requires n <= 3
    ensures var c := ClassifyPrefix(plane, tri, n);
      (forall v | v in c.insidePoints :: v in Vertices(tri)) && (forall v | v in c.outsidePoints :: v in Vertices(tri))
  {
    if n > 0 {
      ClassifiedAreVertices(plane, tri, n - 1);
    }
  }

  lemma VertexInside(other: Plane, tri: Tri, v: Vec3)
    requires AllInside(other, tri) && v in Vertices(tri)
    ensures IsInside(other, v)
  {
  }

  lemma OneInsideStaysInside(m: Libm, plane: Plane, other: Plane, tri: Tri)
    requires Lawful(m)
    requires AllInside(other, tri)
    requires |Classify(plane, tri).insidePoints| == 1
    ensures forall r | r in Clip(m, plane, tri) :: AllInside(other, r)
  {
    var c := Classify(plane, tri);
    ClassifiedAreVertices(plane, tri, 3);
    assert c.insidePoints[0] in c.insidePoints && c.outsidePoints[0] in c.outsidePoints && c.outsidePoints[1] in c.outsidePoints;
    VertexInside(other, tri, c.insidePoints[0]);
    VertexInside(other, tri, c.outsidePoints[0]);
    VertexInside(other, tri, c.outsidePoints[1]);
    ClipOneInside(m, plane, tri);
    NormalIsNonZero(m, plane, c.outsidePoints[0]);
    EdgePointStaysInside(m, plane, other, c.insidePoints[0], c.outsidePoints[0]);
    EdgePointStaysInside(m, plane, other, c.insidePoints[0], c.outsidePoints[1]);
  }

  lemma TwoInsideStaysInside(m: Libm, plane: Plane, other: Plane, tri: Tri)
    requires Lawful(m)
    requires AllInside(other, tri)
    requires |Classify(plane, tri).insidePoints| == 2
    ensures forall r | r in Clip(m, plane, tri) :: AllInside(other, r)
  {
    var c := Classify(plane, tri);
    ClassifiedAreVertices(plane, tri, 3);
    assert c.insidePoints[0] in c.insidePoints && c.insidePoints[1] in c.insidePoints && c.outsidePoints[0] in c.outsidePoints;
    VertexInside(other, tri, c.insidePoints[0]);
    VertexInside(other, tri, c.insidePoints[1]);
    VertexInside(other, tri, c.outsidePoints[0]);
    ClipTwoInside(m, plane, tri);
    NormalIsNonZero(m, plane, c.outsidePoints[0]);
    EdgePointStaysInside(m, plane, other, c.insidePoints[0], c.outsidePoints[0]);
    EdgePointStaysInside(m, plane, other, c.insidePoints[1], c.outsidePoints[0]);
  }
}
