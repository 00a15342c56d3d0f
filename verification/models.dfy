/** Models (src/model.ts): a triangle list with a material, a rotation and a
    translation, and the texture-coordinate fix-up applied while the faces of
    an OBJ file are assembled. */
module Models {
  import opened Numerics
  import opened Vectors
  import opened Texels
  import opened Triangles
  import opened Colors

  datatype Model = Model(tris: seq<Tri>, material: Material, rotation: Vec3, translation: Vec3)

  /** `new Model(tris, material?, rotation?, translation?)`: the list is stored
      as given; the others default to the default material and (0, 0, 0). */
  function NewModel(tris: seq<Tri>, material: Option<Material>, rotation: Option<Vec3>, translation: Option<Vec3>): (r: Model)
    ensures r.tris == tris
    ensures r.material == (if material.Some? then material.value else DefaultMaterial)
    ensures r.rotation == (if rotation.Some? then rotation.value else Point(0.0, 0.0, 0.0))
    ensures r.translation == (if translation.Some? then translation.value else Point(0.0, 0.0, 0.0))
  {
    Model(tris,
      if material.Some? then material.value else DefaultMaterial,
      if rotation.Some? then rotation.value else Point(0.0, 0.0, 0.0),
      if translation.Some? then translation.value else Point(0.0, 0.0, 0.0))
  }

  /** `normalizeBetweenZeroAndOne`: the fractional part for x >= 0; for x < 0,
      1 minus the fractional part of -x. */
  function NormalizeBetweenZeroAndOne(x: real): (r: real)
    ensures x >= 0.0 ==> 0.0 <= r < 1.0 && r == x - Floor(x) as real
    ensures x < 0.0 ==> 0.0 < r <= 1.0
  {
    RemOneIsFraction(if x < 0.0 then -x else x);
    if x < 0.0 then 1.0 - Rem(-x, 1.0) else Rem(x, 1.0)
  }

  /** The rewrite face assembly applies to a texel's v: only a negative v is
      normalised. */
  function FixNegativeV(v: real): (r: real)
    ensures v >= 0.0 ==> r == v
    ensures v < 0.0 ==> 0.0 < r <= 1.0
  {
    if v < 0.0 then NormalizeBetweenZeroAndOne(v) else v
  }

  /** The texel indices (0-based) named by one face line, one per corner. */
  datatype FaceTexels = FaceTexels(t1: int, t2: int, t3: int)

  /** The `vt` list after rewriting the v of the texel at index k (an index that
      names no texel leaves the list alone: the triangle then gets a fresh
      default texel). */
  function RewriteAt(store: seq<Texel>, k: int, f: real -> real): (r: seq<Texel>)
    ensures |r| == |store|
  {
    if 0 <= k < |store| then store[k := store[k].(v := f(store[k].v))] else store
  }

  /** The `vt` list after the corners of the given faces, in file order, have
      been rewritten in place.  A texel named by several corners is the same
      object each time, so it is rewritten once per corner. */
  function RewriteFaces(store: seq<Texel>, faces: seq<FaceTexels>, f: real -> real): (r: seq<Texel>)
    ensures |r| == |store|
  {
    if |faces| == 0 then store
    else
      var face := faces[|faces| - 1];
      var s := RewriteFaces(store, faces[..|faces| - 1], f);
      RewriteAt(RewriteAt(RewriteAt(s, face.t1, f), face.t2, f), face.t3, f)
  }

  /** The face-assembly loop: for each face, the v of each corner's texel is
      rewritten in place through the shared `vt` list. */
  method RewriteTexelV(store: array<Texel>, faces: seq<FaceTexels>, f: real -> real)
    modifies store
    ensures store[..] == RewriteFaces(old(store[..]), faces, f)
  {
    for i := 0 to |faces|
      invariant store[..] == RewriteFaces(old(store[..]), faces[..i], f)
    {
      var face := faces[i];
      assert faces[..i + 1][..i] == faces[..i];
      if 0 <= face.t1 < store.Length {
        store[face.t1] := store[face.t1].(v := f(store[face.t1].v));
      }
      if 0 <= face.t2 < store.Length {
        store[face.t2] := store[face.t2].(v := f(store[face.t2].v));
      }
      if 0 <= face.t3 < store.Length {
        store[face.t3] := store[face.t3].(v := f(store[face.t3].v));
      }
    }
    assert faces[..|faces|] == faces;
  }

  /** f applied n times. */
  function Iterate(f: real -> real, n: nat, x: real): real {
    if n == 0 then x else f(Iterate(f, n - 1, x))
  }

  /** The texel indices of all corners, in file order. */
  function Corners(faces: seq<FaceTexels>): (r: seq<int>)
    ensures |r| == 3 * |faces|
  {
    if |faces| == 0 then []
    else
      var face := faces[|faces| - 1];
      Corners(faces[..|faces| - 1]) + [face.t1, face.t2, face.t3]
  }

  /** A texel named by n corners has had its v rewritten exactly n times; its u
      and w, and every texel no corner names, are unchanged. */
  lemma {:induction false} RewriteFacesCounts(store: seq<Texel>, faces: seq<FaceTexels>, f: real -> real, k: int)
    requires 0 <= k < |store|
    ensures RewriteFaces(store, faces, f)[k]
         == store[k].(v := Iterate(f, multiset(Corners(faces))[k], store[k].v))
    decreases |faces|
  {
    if |faces| > 0 {
      var face := faces[|faces| - 1];
      var prefix := faces[..|faces| - 1];
      RewriteFacesCounts(store, prefix, f, k);
      var n := multiset(Corners(prefix))[k];
      var s0 := RewriteFaces(store, prefix, f);
      var s1 := RewriteAt(s0, face.t1, f);
      var s2 := RewriteAt(s1, face.t2, f);
      var n1 := n + (if face.t1 == k then 1 else 0);
      var n2 := n1 + (if face.t2 == k then 1 else 0);
      RewriteAtStep(s0, face.t1, f, k, store[k], n);
      RewriteAtStep(s1, face.t2, f, k, store[k], n1);
      RewriteAtStep(s2, face.t3, f, k, store[k], n2);
      assert RewriteFaces(store, faces, f) == RewriteAt(s2, face.t3, f);
      LastFaceCount(faces, k);
      assert multiset(Corners(faces))[k] == n2 + (if face.t3 == k then 1 else 0);
    }
  }

  lemma RewriteAtStep(s: seq<Texel>, j: int, f: real -> real, k: int, base: Texel, n: nat)
    requires 0 <= k < |s| && s[k] == base.(v := Iterate(f, n, base.v))
    ensures RewriteAt(s, j, f)[k] == base.(v := Iterate(f, n + (if j == k then 1 else 0), base.v))
  {
  }

  lemma LastFaceCount(faces: seq<FaceTexels>, k: int)
    requires |faces| > 0
    ensures var face := faces[|faces| - 1];
      multiset(Corners(faces))[k] == multiset(Corners(faces[..|faces| - 1]))[k]
        + (if face.t1 == k then 1 else 0) + (if face.t2 == k then 1 else 0) + (if face.t3 == k then 1 else 0)
  {
    var face := faces[|faces| - 1];
    assert Corners(faces) == Corners(faces[..|faces| - 1]) + [face.t1, face.t2, face.t3];
    assert multiset([face.t1, face.t2, face.t3]) == multiset{face.t1} + multiset{face.t2} + multiset{face.t3};
  }

  // ---- properties ----

  /** Values already in [0, 1) are returned unchanged. */
  lemma NormalizeKeepsUnitInterval(x: real)
    requires 0.0 <= x < 1.0
    ensures NormalizeBetweenZeroAndOne(x) == x
  {
  }

  /** A negative x is wrapped like a non-negative one (to x - floor x) unless it
      is an integer, which maps to 1 rather than 0. */
  lemma NormalizeNegative(x: real)
    requires x < 0.0
    ensures x.Floor as real == x ==> NormalizeBetweenZeroAndOne(x) == 1.0
    ensures x.Floor as real != x ==> NormalizeBetweenZeroAndOne(x) == x - x.Floor as real
  {
    RemOneIsFraction(-x);
    var f := (-x).Floor;
    assert f as real <= -x < f as real + 1.0;
    if x.Floor as real == x {
      assert f as real == -x;
    } else {
      assert x.Floor == -f - 1;
    }
  }

  /** Under the model.ts rewrite, one application settles v: a texel shared by
      several faces ends with the same v as one used once. */
  lemma FixNegativeVSettles(v: real, n: nat)
    requires n >= 1
    ensures Iterate(FixNegativeV, n, v) == FixNegativeV(v)
  {
    if n > 1 {
      FixNegativeVSettles(v, n - 1);
    }
  }

  /** After face assembly every texel named by some corner has v rewritten by
      `FixNegativeV` exactly once in effect; non-negative v (even above 1),
      u and w are untouched. */
  lemma FaceAssemblyFixesNegativeV(store: seq<Texel>, faces: seq<FaceTexels>, k: int)
    requires 0 <= k < |store|
    ensures var r := RewriteFaces(store, faces, FixNegativeV);
      && r[k].u == store[k].u && r[k].w == store[k].w
      && r[k].v == (if k in Corners(faces) then FixNegativeV(store[k].v) else store[k].v)
  {
    RewriteFacesCounts(store, faces, FixNegativeV, k);
    var n := multiset(Corners(faces))[k];
    if n >= 1 {
      FixNegativeVSettles(store[k].v, n);
    }
  }
}
