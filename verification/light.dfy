/** Directional light (src/light.ts).  The light also carries the enabled
    flag the renderer reads. */
module Lighting {
  import opened Numerics
  import opened Vectors
  import opened Triangles

  datatype Light = Light(direction: Vec3, isEnabled: bool)

  /** `calculateLightIntensity`: the surface normal dotted with the unit vector
      towards the light, floored at 0.  A degenerate triangle or a zero
      direction makes the TypeScript divide by zero; the model requires non-zero
      lengths. */
  function CalculateLightIntensity(m: Libm, light: Light, tri: Tri): (r: real)
    requires GetLength(m, EdgeCross(tri)) != 0.0
    requires GetLength(m, GetOppositeVector(light.direction)) != 0.0
    ensures r >= 0.0
    ensures r == 0.0 || r == FacingDot(m, light, tri)
  {
    Max(FacingDot(m, light, tri), 0.0)
  }

  function FacingDot(m: Libm, light: Light, tri: Tri): real
    requires GetLength(m, EdgeCross(tri)) != 0.0
    requires GetLength(m, GetOppositeVector(light.direction)) != 0.0
  {
    Dot(SurfaceNormal(m, tri), Normalize(m, GetOppositeVector(light.direction)))
  }

  // ---- properties ----

  /** A surface facing away from the light (or edge-on) gets intensity 0;
      one facing it gets exactly the cosine. */
  lemma IntensityCases(m: Libm, light: Light, tri: Tri)
    requires GetLength(m, EdgeCross(tri)) != 0.0
    requires GetLength(m, GetOppositeVector(light.direction)) != 0.0
    ensures FacingDot(m, light, tri) <= 0.0 ==> CalculateLightIntensity(m, light, tri) == 0.0
    ensures FacingDot(m, light, tri) > 0.0 ==> CalculateLightIntensity(m, light, tri) == FacingDot(m, light, tri)
  {
  }

  /** The dot product of two unit vectors is at most 1. */
  lemma UnitDotAtMostOne(a: Vec3, b: Vec3)
    requires LengthSquared(a) == 1.0 && LengthSquared(b) == 1.0
    ensures Dot(a, b) <= 1.0
  {
    var d := Sub(a, b);
    assert LengthSquared(d) == LengthSquared(a) + LengthSquared(b) - 2.0 * Dot(a, b);
  }

  /** Under a lawful square root the intensity is at most 1, for any
      non-degenerate triangle and any non-zero light direction. */
  lemma IntensityAtMostOne(m: Libm, light: Light, tri: Tri)
    requires Lawful(m)
    requires LengthSquared(EdgeCross(tri)) > 0.0
    requires LengthSquared(light.direction) > 0.0
    ensures GetLength(m, EdgeCross(tri)) != 0.0
    ensures GetLength(m, GetOppositeVector(light.direction)) != 0.0
    ensures 0.0 <= CalculateLightIntensity(m, light, tri) <= 1.0
  {
    var o := GetOppositeVector(light.direction);
    assert LengthSquared(o) == LengthSquared(light.direction);
    SurfaceNormalIsUnitAndOrthogonal(m, tri);
    NormalizeHasUnitLength(m, o);
    UnitDotAtMostOne(SurfaceNormal(m, tri), Normalize(m, o));
  }
}
