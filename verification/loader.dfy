/** The standalone OBJ loader (src/model-loader.ts).  Unlike src/model.ts it
    normalises the v of every face corner's texel, negative or not. */
module Loader {
  import opened Numerics
  import opened Texels
  import opened Models

  /** The `vt` list after face assembly in this loader. */
  function LoadedTexels(store: seq<Texel>, faces: seq<FaceTexels>): (r: seq<Texel>)
    ensures |r| == |store|
  {
    RewriteFaces(store, faces, NormalizeBetweenZeroAndOne)
  }

  /** One or more normalisations land in [0, 1]. */
  lemma IterateNormalizeInUnitInterval(n: nat, x: real)
    requires n >= 1
    ensures 0.0 <= Iterate(NormalizeBetweenZeroAndOne, n, x) <= 1.0
  {
  }

  /** Every texel a face names ends with v in [0, 1]; u and w are unchanged and
      texels no face names are left alone. */
  lemma LoadedVInUnitInterval(store: seq<Texel>, faces: seq<FaceTexels>, k: int)
    requires 0 <= k < |store|
    ensures var r := LoadedTexels(store, faces);
      && r[k].u == store[k].u && r[k].w == store[k].w
      && (k in Corners(faces) ==> 0.0 <= r[k].v <= 1.0)
      && (k !in Corners(faces) ==> r[k] == store[k])
  {
    RewriteFacesCounts(store, faces, NormalizeBetweenZeroAndOne, k);
    var n := multiset(Corners(faces))[k];
    if n >= 1 {
      IterateNormalizeInUnitInterval(n, store[k].v);
    }
  }

  /** A corner with no texel gets a fresh default texel, whose v = 0 the
      normalisation keeps. */
  lemma DefaultTexelKept()
    ensures NormalizeBetweenZeroAndOne(DefaultTexel.v) == DefaultTexel.v
  {
  }

  /** A v of exactly 1 becomes 0 here, whereas src/model.ts keeps it. */
  lemma OneBecomesZero()
    ensures NormalizeBetweenZeroAndOne(1.0) == 0.0
    ensures FixNegativeV(1.0) == 1.0
  {
    assert Rem(1.0, 1.0) == 0.0;
  }

  /** Because the rewrite goes through the shared `vt` list, the result depends
      on how many corners name a texel: v = -1 named once ends at 1, named twice
      ends at 0. */
  lemma SharingChangesResult()
    ensures Iterate(NormalizeBetweenZeroAndOne, 1, -1.0) == 1.0
    ensures Iterate(NormalizeBetweenZeroAndOne, 2, -1.0) == 0.0
  {
    NormalizeNegative(-1.0);
    OneBecomesZero();
  }
}
