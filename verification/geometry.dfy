/** The built-in unit cube (src/geometry.ts): two triangles per face, faces
    in the order south (z = 0), east (x = 1), north (z = 1), west (x = 0), top
    (y = 1), bottom (y = 0). */
module Geometry {
  import opened Numerics
  import opened Vectors
  import opened Texels
  import opened Triangles
  import opened Meshes

  /** The texels of a face's first triangle: (0, 1), (0, 0), (1, 0), written in
      the TypeScript as `Vec2` values (u = x, v = y, w = 1). */
  const FirstHalfTexels: seq<Texel> := [FromVec2(0.0, 1.0), FromVec2(0.0, 0.0), FromVec2(1.0, 0.0)]

  /** The texels of a face's second triangle: (0, 1), (1, 0), (1, 1). */
  const SecondHalfTexels: seq<Texel> := [FromVec2(0.0, 1.0), FromVec2(1.0, 0.0), FromVec2(1.0, 1.0)]

  function Face(a: Vec3, b: Vec3, c: Vec3, texels: seq<Texel>): Tri
    requires |texels| == 3
  {
    NewTri(a, b, c, Some(texels[0]), Some(texels[1]), Some(texels[2]))
  }

  // south face
  const South1: Tri := Face(Point(0.0, 0.0, 0.0), Point(0.0, 1.0, 0.0), Point(1.0, 1.0, 0.0), FirstHalfTexels)
  const South2: Tri := Face(Point(0.0, 0.0, 0.0), Point(1.0, 1.0, 0.0), Point(1.0, 0.0, 0.0), SecondHalfTexels)
  // east face
  const East1: Tri := Face(Point(1.0, 0.0, 0.0), Point(1.0, 1.0, 0.0), Point(1.0, 1.0, 1.0), FirstHalfTexels)
  const East2: Tri := Face(Point(1.0, 0.0, 0.0), Point(1.0, 1.0, 1.0), Point(1.0, 0.0, 1.0), SecondHalfTexels)
  // north face
  const North1: Tri := Face(Point(1.0, 0.0, 1.0), Point(1.0, 1.0, 1.0), Point(0.0, 1.0, 1.0), FirstHalfTexels)
  const North2: Tri := Face(Point(1.0, 0.0, 1.0), Point(0.0, 1.0, 1.0), Point(0.0, 0.0, 1.0), SecondHalfTexels)
  // west face
  const West1: Tri := Face(Point(0.0, 0.0, 1.0), Point(0.0, 1.0, 1.0), Point(0.0, 1.0, 0.0), FirstHalfTexels)
  const West2: Tri := Face(Point(0.0, 0.0, 1.0), Point(0.0, 1.0, 0.0), Point(0.0, 0.0, 0.0), SecondHalfTexels)
  // top face
  const Top1: Tri := Face(Point(0.0, 1.0, 0.0), Point(0.0, 1.0, 1.0), Point(1.0, 1.0, 1.0), FirstHalfTexels)
  const Top2: Tri := Face(Point(0.0, 1.0, 0.0), Point(1.0, 1.0, 1.0), Point(1.0, 1.0, 0.0), SecondHalfTexels)
  // bottom face
  const Bottom1: Tri := Face(Point(1.0, 0.0, 1.0), Point(0.0, 0.0, 1.0), Point(0.0, 0.0, 0.0), FirstHalfTexels)
  const Bottom2: Tri := Face(Point(1.0, 0.0, 1.0), Point(0.0, 0.0, 0.0), Point(1.0, 0.0, 0.0), SecondHalfTexels)

  const CubeTris: seq<Tri> := [
    South1, South2, East1, East2, North1, North2,
    West1, West2, Top1, Top2, Bottom1, Bottom2
  ]

  /** `Geometry.cube()` */
  function Cube(): (r: Model)
    ensures |r.tris| == 12
  {
    NewModel(CubeTris)
  }

  // ---- properties ----

  predicate IsUnit(c: real) {
    c == 0.0 || c == 1.0
  }

  predicate OnUnitLattice(v: Vec3) {
    IsUnit(v.x) && IsUnit(v.y) && IsUnit(v.z) && v.w == 1.0
  }

  /** Every vertex is a corner of the unit cube, with w = 1. */
  lemma CubeVerticesAreCorners()
    ensures forall i | 0 <= i < |Cube().tris| ::
      OnUnitLattice(Cube().tris[i].v1) && OnUnitLattice(Cube().tris[i].v2) && OnUnitLattice(Cube().tris[i].v3)
  {
  }

  /** The coordinate (0 = x, 1 = y, 2 = z) a face holds fixed, and its value. */
  function Coordinate(v: Vec3, axis: int): real {
    if axis == 0 then v.x else if axis == 1 then v.y else v.z
  }

  const FaceAxis: seq<int> := [2, 0, 2, 0, 1, 1]
  const FaceValue: seq<real> := [0.0, 1.0, 1.0, 0.0, 1.0, 0.0]

  /** Triangles 2k and 2k + 1 lie in the plane of face k. */
  lemma CubeFacesArePlanar()
    ensures forall i | 0 <= i < |Cube().tris| ::
      var axis := FaceAxis[i / 2];
      var value := FaceValue[i / 2];
      && Coordinate(Cube().tris[i].v1, axis) == value
      && Coordinate(Cube().tris[i].v2, axis) == value
      && Coordinate(Cube().tris[i].v3, axis) == value
  {
  }

  const Centre: Vec3 := Point(0.5, 0.5, 0.5)

  /** The edge cross product of `t` points away from the cube's centre. */
  predicate PointsOutward(t: Tri) {
    Dot(EdgeCross(t), Sub(t.v1, Centre)) > 0.0
  }

  /** `PointsOutward` written out over the corner coordinates. */
  lemma OutwardOf(t: Tri, x1: real, y1: real, z1: real, x2: real, y2: real, z2: real, x3: real, y3: real, z3: real)
    requires t.v1 == Point(x1, y1, z1) && t.v2 == Point(x2, y2, z2) && t.v3 == Point(x3, y3, z3)
    ensures PointsOutward(t) <==>
      ((y2 - y1) * (z3 - z1) - (z2 - z1) * (y3 - y1)) * (x1 - 0.5)
      + ((z2 - z1) * (x3 - x1) - (x2 - x1) * (z3 - z1)) * (y1 - 0.5)
      + ((x2 - x1) * (y3 - y1) - (y2 - y1) * (x3 - x1)) * (z1 - 0.5) > 0.0
  {
  }

  /** Every triangle is wound so that its edge cross product points away from
      the cube's centre, which is what back-face culling relies on. */
  lemma CubeNormalsPointOutward(t: Tri)
    requires t in Cube().tris
    ensures PointsOutward(t)
  {
    assert Cube().tris == CubeTris;
    if t == South1 {
      OutwardOf(t, 0.0, 0.0, 0.0, 0.0, 1.0, 0.0, 1.0, 1.0, 0.0);
    } else if t == South2 {
      OutwardOf(t, 0.0, 0.0, 0.0, 1.0, 1.0, 0.0, 1.0, 0.0, 0.0);
    } else if t == East1 {
      OutwardOf(t, 1.0, 0.0, 0.0, 1.0, 1.0, 0.0, 1.0, 1.0, 1.0);
    } else if t == East2 {
      OutwardOf(t, 1.0, 0.0, 0.0, 1.0, 1.0, 1.0, 1.0, 0.0, 1.0);
    } else if t == North1 {
      OutwardOf(t, 1.0, 0.0, 1.0, 1.0, 1.0, 1.0, 0.0, 1.0, 1.0);
    } else if t == North2 {
      OutwardOf(t, 1.0, 0.0, 1.0, 0.0, 1.0, 1.0, 0.0, 0.0, 1.0);
    } else if t == West1 {
      OutwardOf(t, 0.0, 0.0, 1.0, 0.0, 1.0, 1.0, 0.0, 1.0, 0.0);
    } else if t == West2 {
      OutwardOf(t, 0.0, 0.0, 1.0, 0.0, 1.0, 0.0, 0.0, 0.0, 0.0);
    } else if t == Top1 {
      OutwardOf(t, 0.0, 1.0, 0.0, 0.0, 1.0, 1.0, 1.0, 1.0, 1.0);
    } else if t == Top2 {
      OutwardOf(t, 0.0, 1.0, 0.0, 1.0, 1.0, 1.0, 1.0, 1.0, 0.0);
    } else if t == Bottom1 {
      OutwardOf(t, 1.0, 0.0, 1.0, 0.0, 0.0, 1.0, 0.0, 0.0, 0.0);
    } else {
      OutwardOf(t, 1.0, 0.0, 1.0, 0.0, 0.0, 0.0, 1.0, 0.0, 0.0);
    }
  }

  /** The two triangles of a face share their first vertex and the face's
      diagonal, and carry the same texel pattern. */
  lemma CubeFacesSplitAlongDiagonal()
    ensures forall k | 0 <= k < 6 ::
      var a := Cube().tris[2 * k];
      var b := Cube().tris[2 * k + 1];
      a.v1 == b.v1 && a.v3 == b.v2
      && TexelsOf(a) == FirstHalfTexels && TexelsOf(b) == SecondHalfTexels
      && a.intensity == 255.0 && b.intensity == 255.0
  {
    forall k | 0 <= k < 6
      ensures Cube().tris[2 * k].v1 == Cube().tris[2 * k + 1].v1
      ensures Cube().tris[2 * k].v3 == Cube().tris[2 * k + 1].v2
      ensures TexelsOf(Cube().tris[2 * k]) == FirstHalfTexels
      ensures TexelsOf(Cube().tris[2 * k + 1]) == SecondHalfTexels
    {
      assert Cube().tris == CubeTris;
    }
  }
}
