/** Properties of the baking transform that relate several bakes or several inputs. */
module BakeProperties {
  import opened Results
  import opened Vectors
  import opened Normalization
  import opened BlendShapeBake

  function ConcatGeometry(a: Geometry, b: Geometry): Geometry {
    Geometry(a.vertices + b.vertices, a.normals + b.normals, a.tangents + b.tangents)
  }

  function ConcatDeltas(a: Deltas, b: Deltas): Deltas {
    Deltas(a.vertices + b.vertices, a.normals + b.normals, a.tangents + b.tangents)
  }

  /**
   * No cross-vertex dependency and no reordering: baking two runs of vertices
   * one after the other gives the bake of the joined arrays.
   */
  lemma BakeSplitsOverConcat(b1: Geometry, d1: Deltas, b2: Geometry, d2: Deltas, normalize: Vec3 -> Vec3)
    requires Matched(b1, d1) && Matched(b2, d2)
    ensures ApplyBlendShapeDeltas(b1, d1, normalize).Success?
    ensures ApplyBlendShapeDeltas(b2, d2, normalize).Success?
    ensures ApplyBlendShapeDeltas(ConcatGeometry(b1, b2), ConcatDeltas(d1, d2), normalize)
         == Success(ConcatGeometry(ApplyBlendShapeDeltas(b1, d1, normalize).value,
                                   ApplyBlendShapeDeltas(b2, d2, normalize).value))
  {
    var r1 := ApplyBlendShapeDeltas(b1, d1, normalize).value;
    var r2 := ApplyBlendShapeDeltas(b2, d2, normalize).value;
    var b := ConcatGeometry(b1, b2);
    var d := ConcatDeltas(d1, d2);
    var r := ConcatGeometry(r1, r2);
    var n1 := |b1.vertices|;
    forall i | 0 <= i < |b.vertices|
      ensures BakedAt(r, b, d, normalize, i)
    {
      if i < n1 {
        assert BakedAt(r1, b1, d1, normalize, i);
      } else {
        assert BakedAt(r2, b2, d2, normalize, i - n1);
      }
    }
    ApplyIsCharacterized(r, b, d, normalize);
  }

  /** With an all-zero frame, every position comes out exactly as it went in. */
  lemma ZeroFrameKeepsPositions(base: Geometry, d: Deltas, normalize: Vec3 -> Vec3)
    requires CoversVertices(base, d) && IsZeroFrame(d)
    ensures ApplyBlendShapeDeltas(base, d, normalize).Success?
    ensures ApplyBlendShapeDeltas(base, d, normalize).value.vertices == base.vertices
  {
    var r := ApplyBlendShapeDeltas(base, d, normalize).value;
    forall i | 0 <= i < |base.vertices| ensures r.vertices[i] == base.vertices[i] {
      assert BakedAt(r, base, d, normalize, i);
    }
  }

  /** Normals and tangent directions of unit length, as a well-formed mesh stores them. */
  predicate HasUnitShadingVectors(g: Geometry) {
    && (forall i :: 0 <= i < |g.normals| ==> SqrMagnitude(g.normals[i]) == 1.0)
    && (forall i :: 0 <= i < |g.tangents| ==> SqrMagnitude(Xyz(g.tangents[i])) == 1.0)
  }

  /**
   * Zero-delta identity: baking an all-zero frame into a mesh whose normals and
   * tangent directions are unit vectors reproduces the mesh exactly.
   */
  lemma ZeroFrameIsIdentity(base: Geometry, d: Deltas, normalize: Vec3 -> Vec3)
    requires IsUnityNormalizer(normalize)
    requires Matched(base, d) && IsZeroFrame(d) && HasUnitShadingVectors(base)
    ensures ApplyBlendShapeDeltas(base, d, normalize) == Success(base)
  {
    forall i | 0 <= i < |base.vertices| ensures BakedAt(base, base, d, normalize, i) {
      UnitVectorIsFixed(normalize, base.normals[i]);
      UnitVectorIsFixed(normalize, Xyz(base.tangents[i]));
    }
    ApplyIsCharacterized(base, base, d, normalize);
  }

  /** Unity's normalized vectors are unit vectors, or zero below the magnitude cut-off. */
  lemma NormalizedIsUnitOrZero(normalize: Vec3 -> Vec3, v: Vec3)
    requires IsUnityNormalizer(normalize)
    ensures IsNormalizable(v) ==> SqrMagnitude(normalize(v)) == 1.0
    ensures !IsNormalizable(v) ==> normalize(v) == Zero
  {
    assert NormalizesAt(normalize, v);
  }

  /**
   * Every baked normal and tangent direction has unit length when its blended sum
   * exceeds Unity's magnitude cut-off, and is the zero vector otherwise; the
   * tangent sign is the base's.
   */
  lemma BakedShadingVectorsAreUnitOrZero(base: Geometry, d: Deltas, normalize: Vec3 -> Vec3, i: int)
    requires IsUnityNormalizer(normalize)
    requires CoversVertices(base, d) && 0 <= i < |base.vertices|
    ensures var r := ApplyBlendShapeDeltas(base, d, normalize).value;
      && (IsNormalizable(Add(base.normals[i], d.normals[i])) ==> SqrMagnitude(r.normals[i]) == 1.0)
      && (!IsNormalizable(Add(base.normals[i], d.normals[i])) ==> r.normals[i] == Zero)
      && (IsNormalizable(Add(Xyz(base.tangents[i]), d.tangents[i])) ==> SqrMagnitude(Xyz(r.tangents[i])) == 1.0)
      && (!IsNormalizable(Add(Xyz(base.tangents[i]), d.tangents[i])) ==> Xyz(r.tangents[i]) == Zero)
      && r.tangents[i].w == base.tangents[i].w
  {
    var r := ApplyBlendShapeDeltas(base, d, normalize).value;
    assert BakedAt(r, base, d, normalize, i);
    NormalizedIsUnitOrZero(normalize, Add(base.normals[i], d.normals[i]));
    NormalizedIsUnitOrZero(normalize, Add(Xyz(base.tangents[i]), d.tangents[i]));
  }

  /**
   * Baking is stable: baking an all-zero frame into an already baked mesh changes
   * nothing, since its normals and tangent directions are already normalized.
   */
  lemma RebakeWithZeroFrameIsStable(base: Geometry, d: Deltas, zero: Deltas, normalize: Vec3 -> Vec3)
    requires IsUnityNormalizer(normalize)
    requires CoversVertices(base, d)
    requires |zero.vertices| == |zero.normals| == |zero.tangents| == |base.vertices| && IsZeroFrame(zero)
    ensures var once := ApplyBlendShapeDeltas(base, d, normalize).value;
      ApplyBlendShapeDeltas(once, zero, normalize) == Success(once)
  {
    var once := ApplyBlendShapeDeltas(base, d, normalize).value;
    forall i | 0 <= i < |once.vertices| ensures BakedAt(once, once, zero, normalize, i) {
      assert BakedAt(once, base, d, normalize, i);
      NormalizeIsIdempotent(normalize, Add(base.normals[i], d.normals[i]));
      NormalizeIsIdempotent(normalize, Add(Xyz(base.tangents[i]), d.tangents[i]));
    }
    ApplyIsCharacterized(once, once, zero, normalize);
  }

  /** Positions accumulate exactly: two bakes in a row move positions by the sum of both frames. */
  lemma SuccessiveBakesAddPositions(base: Geometry, d1: Deltas, d2: Deltas, normalize: Vec3 -> Vec3)
    requires Matched(base, d1) && Matched(base, d2)
    ensures var once := ApplyBlendShapeDeltas(base, d1, normalize).value;
      var twice := ApplyBlendShapeDeltas(once, d2, normalize);
      && twice.Success?
      && forall i :: 0 <= i < |base.vertices| ==>
           twice.value.vertices[i] == Add(base.vertices[i], Add(d1.vertices[i], d2.vertices[i]))
  {
    var once := ApplyBlendShapeDeltas(base, d1, normalize).value;
    var twice := ApplyBlendShapeDeltas(once, d2, normalize).value;
    forall i | 0 <= i < |base.vertices|
      ensures twice.vertices[i] == Add(base.vertices[i], Add(d1.vertices[i], d2.vertices[i]))
    {
      assert BakedAt(once, base, d1, normalize, i);
      assert BakedAt(twice, once, d2, normalize, i);
    }
  }

  /** The doubled normal (0, 2, 0) of `OneVertexScenario` normalizes to (0, 1, 0). */
  lemma DoubledNormalNormalizes(normalize: Vec3 -> Vec3)
    requires IsUnityNormalizer(normalize)
    ensures normalize(Vec3(0.0, 2.0, 0.0)) == Vec3(0.0, 1.0, 0.0)
  {
    var doubled := Vec3(0.0, 2.0, 0.0);
    assert NormalizesAt(normalize, doubled);
    assert IsNormalizable(doubled);
    var k: real :| k > 0.0 && normalize(doubled) == Scale(doubled, k);
    SqrMagnitudeOfScale(doubled, k);
    PositiveRootOfOne(2.0 * k);
  }

  /**
   * One vertex, worked through: the position moves by its delta, a normal doubled
   * by its delta renormalizes to itself, and a zero tangent delta keeps the
   * tangent and its sign.
   */
  lemma OneVertexScenario(normalize: Vec3 -> Vec3)
    requires IsUnityNormalizer(normalize)
    ensures ApplyBlendShapeDeltas(
              Geometry([Zero], [Vec3(0.0, 1.0, 0.0)], [Vec4(1.0, 0.0, 0.0, 1.0)]),
              Deltas([Vec3(1.0, 0.0, 0.0)], [Vec3(0.0, 1.0, 0.0)], [Zero]), normalize)
         == Success(Geometry([Vec3(1.0, 0.0, 0.0)], [Vec3(0.0, 1.0, 0.0)], [Vec4(1.0, 0.0, 0.0, 1.0)]))
  {
    DoubledNormalNormalizes(normalize);
    UnitVectorIsFixed(normalize, Vec3(1.0, 0.0, 0.0));
    var r := Geometry([Vec3(1.0, 0.0, 0.0)], [Vec3(0.0, 1.0, 0.0)], [Vec4(1.0, 0.0, 0.0, 1.0)]);
    var base := Geometry([Zero], [Vec3(0.0, 1.0, 0.0)], [Vec4(1.0, 0.0, 0.0, 1.0)]);
    var d := Deltas([Vec3(1.0, 0.0, 0.0)], [Vec3(0.0, 1.0, 0.0)], [Zero]);
    assert BakedAt(r, base, d, normalize, 0);
    ApplyIsCharacterized(r, base, d, normalize);
  }

  /** A normal cancelled exactly by its delta bakes to the zero vector, Unity's fallback. */
  lemma CancelledNormalScenario(normalize: Vec3 -> Vec3)
    requires IsUnityNormalizer(normalize)
    ensures ApplyBlendShapeDeltas(
              Geometry([Zero], [Vec3(0.0, 1.0, 0.0)], [Vec4(1.0, 0.0, 0.0, -1.0)]),
              Deltas([Zero], [Vec3(0.0, -1.0, 0.0)], [Zero]), normalize).value.normals
         == [Zero]
  {
    var base := Geometry([Zero], [Vec3(0.0, 1.0, 0.0)], [Vec4(1.0, 0.0, 0.0, -1.0)]);
    var d := Deltas([Zero], [Vec3(0.0, -1.0, 0.0)], [Zero]);
    assert Add(base.normals[0], d.normals[0]) == Zero;
    assert normalize(Zero) == Zero by {
      assert NormalizesAt(normalize, Zero);
    }
    var r := ApplyBlendShapeDeltas(base, d, normalize).value;
    assert BakedAt(r, base, d, normalize, 0);
    assert r.normals == [Zero];
  }
}
