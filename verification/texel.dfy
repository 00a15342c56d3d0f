/** Texture coordinates (src/texel.ts).  `w` carries the perspective divisor
    the rasterizer interpolates alongside `u` and `v`. */
module Texels {
  import opened Numerics

  datatype Texel = Texel(u: real, v: real, w: real)

  /** `new Texel()`: the constructor's defaults. */
  const DefaultTexel: Texel := Texel(0.0, 0.0, 1.0)

  /** `Texel.div`: u, v and w divided by the same k. */
  function Div(t: Texel, k: real): (r: Texel)
    requires k != 0.0
    ensures r.w * k == t.w
    ensures r.u * k == t.u && r.v * k == t.v
  {
    Texel(t.u / k, t.v / k, t.w / k)
  }

  /** A `Vec2` literal standing where a Texel is expected: u = x, v = y and
      the Texel's `w` default of 1. */
  function FromVec2(x: real, y: real): (r: Texel)
    ensures r.u == x && r.v == y && r.w == 1.0
  {
    Texel(x, y, 1.0)
  }

  /** Dividing by k keeps the ratios u/w and v/w the rasterizer later recovers. */
  lemma DivKeepsRatios(t: Texel, k: real)
    requires k != 0.0 && t.w != 0.0
    ensures Div(t, k).w != 0.0
    ensures Div(t, k).u / Div(t, k).w == t.u / t.w
    ensures Div(t, k).v / Div(t, k).w == t.v / t.w
  {
    RatioOfQuotients(t.u, t.w, k);
    RatioOfQuotients(t.v, t.w, k);
  }
}
