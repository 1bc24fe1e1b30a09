/**
 * What the baker relies on from Unity's `Vector3.normalized` / `Vector3.Normalize`.
 * The library code is not part of this model, so the baking functions take the
 * normalizer as a parameter; the facts below hold for any normalizer that meets
 * Unity's documented contract: a vector whose magnitude exceeds 1e-5 becomes the
 * unit vector pointing the same way, and a shorter one becomes the zero vector.
 */
module Normalization {
  import opened Vectors

  /** Unity's cut-off on the magnitude below which a vector normalizes to zero. */
  const Epsilon: real := 0.00001

  /** Magnitude above the cut-off, compared on squares so no square root is needed. */
  predicate IsNormalizable(v: Vec3) {
    SqrMagnitude(v) > Epsilon * Epsilon
  }

  /** `u` has length one and is a positive multiple of `v`. */
  ghost predicate IsUnitMultipleOf(u: Vec3, v: Vec3) {
    SqrMagnitude(u) == 1.0 && exists k: real :: k > 0.0 && u == Scale(v, k)
  }

  ghost predicate NormalizesAt(normalize: Vec3 -> Vec3, v: Vec3) {
    if IsNormalizable(v) then IsUnitMultipleOf(normalize(v), v) else normalize(v) == Zero
  }

  /** Unity's documented behaviour of `Vector3.normalized`. */
  ghost predicate IsUnityNormalizer(normalize: Vec3 -> Vec3) {
    forall v :: NormalizesAt(normalize, v)
  }

  /** A unit vector is left as it is. */
  lemma UnitVectorIsFixed(normalize: Vec3 -> Vec3, u: Vec3)
    requires IsUnityNormalizer(normalize)
    requires SqrMagnitude(u) == 1.0
    ensures normalize(u) == u
  {
    assert NormalizesAt(normalize, u);
    assert IsNormalizable(u);
    var k: real :| k > 0.0 && normalize(u) == Scale(u, k);
    SqrMagnitudeOfScale(u, k);
    assert k * k == 1.0;
    PositiveRootOfOne(k);
  }

  lemma PositiveRootOfOne(k: real)
    requires k > 0.0 && k * k == 1.0
    ensures k == 1.0
  {
  }

  /** Normalizing twice is normalizing once: the result is a unit vector or zero. */
  lemma NormalizeIsIdempotent(normalize: Vec3 -> Vec3, v: Vec3)
    requires IsUnityNormalizer(normalize)
    ensures normalize(normalize(v)) == normalize(v)
  {
    assert NormalizesAt(normalize, v);
    if IsNormalizable(v) {
      UnitVectorIsFixed(normalize, normalize(v));
    } else {
      assert NormalizesAt(normalize, Zero);
    }
  }
}
