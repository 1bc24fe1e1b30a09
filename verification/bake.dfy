/**
 * The blendshape-baking transform `ApplyBlendShapeDeltas`: one blendshape frame's
 * per-vertex deltas are added into a mesh's base geometry. Positions are summed,
 * normals are summed and renormalized, tangent directions are summed and
 * renormalized while the tangent's handedness `w` is carried over from the base.
 */
module BlendShapeBake {
  import opened Results
  import opened Vectors
  import opened Normalization

  /** A mesh's parallel vertex attribute arrays (`vertices`, `normals`, `tangents`). */
  datatype Geometry = Geometry(vertices: seq<Vec3>, normals: seq<Vec3>, tangents: seq<Vec4>)

  /** One blendshape frame's delta arrays; tangent deltas have no `w`. */
  datatype Deltas = Deltas(vertices: seq<Vec3>, normals: seq<Vec3>, tangents: seq<Vec3>)

  /**
   * The loop runs over `baseVertices.Length`; each of the other five arrays must
   * be at least that long or an index runs off its end. Longer arrays are accepted
   * and their extra entries ignored.
   */
  predicate CoversVertices(base: Geometry, d: Deltas) {
    var n := |base.vertices|;
    |d.vertices| >= n && |base.normals| >= n && |d.normals| >= n
    && |base.tangents| >= n && |d.tangents| >= n
  }

  /** All six arrays have exactly the vertex count. */
  predicate Matched(base: Geometry, d: Deltas) {
    var n := |base.vertices|;
    |d.vertices| == n && |base.normals| == n && |d.normals| == n
    && |base.tangents| == n && |d.tangents| == n
  }

  /** Every delta is the zero vector. */
  predicate IsZeroFrame(d: Deltas) {
    (forall i :: 0 <= i < |d.vertices| ==> d.vertices[i] == Zero)
    && (forall i :: 0 <= i < |d.normals| ==> d.normals[i] == Zero)
    && (forall i :: 0 <= i < |d.tangents| ==> d.tangents[i] == Zero)
  }

  /** The three output values at index `i` are the baked values of the inputs at index `i`. */
  ghost predicate BakedAt(r: Geometry, base: Geometry, d: Deltas, normalize: Vec3 -> Vec3, i: int)
    requires 0 <= i < |r.vertices| && i < |r.normals| && i < |r.tangents|
    requires CoversVertices(base, d) && i < |base.vertices|
  {
    && r.vertices[i] == Add(base.vertices[i], d.vertices[i])
    && r.normals[i] == normalize(Add(base.normals[i], d.normals[i]))
    && Xyz(r.tangents[i]) == normalize(Add(Xyz(base.tangents[i]), d.tangents[i]))
    && r.tangents[i].w == base.tangents[i].w
  }

  /**
   * Reference description of a bake, vertex by vertex: the outputs have one entry
   * per base vertex, and entry `i` depends only on the inputs at index `i`.
   */
  ghost predicate IsBakeOf(r: Geometry, base: Geometry, d: Deltas, normalize: Vec3 -> Vec3) {
    && CoversVertices(base, d)
    && |r.vertices| == |base.vertices|
    && |r.normals| == |base.vertices|
    && |r.tangents| == |base.vertices|
    && forall i :: 0 <= i < |base.vertices| ==> BakedAt(r, base, d, normalize, i)
  }

  /** The tangent written at one vertex: blended, renormalized direction with the base's `w`. */
  function BakedTangent(baseTangent: Vec4, deltaTangent: Vec3, normalize: Vec3 -> Vec3): Vec4 {
    WithW(normalize(Add(Xyz(baseTangent), deltaTangent)), baseTangent.w)
  }

  /** The first `n` iterations of the baking loop. */
  function BakePrefix(base: Geometry, d: Deltas, normalize: Vec3 -> Vec3, n: nat): (r: Geometry)
    requires CoversVertices(base, d) && n <= |base.vertices|
    ensures |r.vertices| == n && |r.normals| == n && |r.tangents| == n
    ensures forall i :: 0 <= i < n ==> BakedAt(r, base, d, normalize, i)
  {
    if n == 0 then Geometry([], [], [])
    else
      var p := BakePrefix(base, d, normalize, n - 1);
      var i := n - 1;
      var r := Geometry(
        p.vertices + [Add(base.vertices[i], d.vertices[i])],
        p.normals + [normalize(Add(base.normals[i], d.normals[i]))],
        p.tangents + [BakedTangent(base.tangents[i], d.tangents[i], normalize)]);
      assert forall j :: 0 <= j < i ==> BakedAt(p, base, d, normalize, j) && BakedAt(r, base, d, normalize, j);
      r
  }

  /**
   * `ApplyBlendShapeDeltas`: bakes `d` into `base`, or fails with an index out of
   * range when one of the arrays is shorter than `base.vertices`.
   */
  function ApplyBlendShapeDeltas(base: Geometry, d: Deltas, normalize: Vec3 -> Vec3): (r: Result<Geometry>)
    ensures r.Success? <==> CoversVertices(base, d)
    ensures r.Failure? ==> r.error == IndexOutOfRange
    ensures r.Success? ==> IsBakeOf(r.value, base, d, normalize)
  {
    if CoversVertices(base, d) then Success(BakePrefix(base, d, normalize, |base.vertices|))
    else Failure(IndexOutOfRange)
  }

  /** The reference description determines the output completely. */
  lemma BakeIsUnique(r1: Geometry, r2: Geometry, base: Geometry, d: Deltas, normalize: Vec3 -> Vec3)
    requires IsBakeOf(r1, base, d, normalize) && IsBakeOf(r2, base, d, normalize)
    ensures r1 == r2
  {
    forall i | 0 <= i < |base.vertices|
      ensures r1.tangents[i] == r2.tangents[i]
    {
      assert BakedAt(r1, base, d, normalize, i) && BakedAt(r2, base, d, normalize, i);
      assert Xyz(r1.tangents[i]) == Xyz(r2.tangents[i]);
    }
    assert r1.tangents == r2.tangents;
    assert r1.vertices == r2.vertices by {
      forall i | 0 <= i < |base.vertices| ensures r1.vertices[i] == r2.vertices[i] {
        assert BakedAt(r1, base, d, normalize, i) && BakedAt(r2, base, d, normalize, i);
      }
    }
    assert r1.normals == r2.normals by {
      forall i | 0 <= i < |base.vertices| ensures r1.normals[i] == r2.normals[i] {
        assert BakedAt(r1, base, d, normalize, i) && BakedAt(r2, base, d, normalize, i);
      }
    }
  }

  /** A successful bake is exactly a geometry meeting the reference description. */
  lemma ApplyIsCharacterized(r: Geometry, base: Geometry, d: Deltas, normalize: Vec3 -> Vec3)
    ensures ApplyBlendShapeDeltas(base, d, normalize) == Success(r) <==> IsBakeOf(r, base, d, normalize)
  {
    if IsBakeOf(r, base, d, normalize) {
      BakeIsUnique(ApplyBlendShapeDeltas(base, d, normalize).value, r, base, d, normalize);
    }
  }

  /**
   * `ApplyBlendShapeDeltas` written as the source's `for` loop, indexing each array
   * in turn and failing at the first index that runs off an array.
   */
  method ApplyBlendShapeDeltasLoop(base: Geometry, d: Deltas, normalize: Vec3 -> Vec3)
    returns (r: Result<Geometry>)
    ensures r == ApplyBlendShapeDeltas(base, d, normalize)
  {
    var vertexCount := |base.vertices|;
    var newVertices: seq<Vec3> := [];
    var newNormals: seq<Vec3> := [];
    var newTangents: seq<Vec4> := [];
    var i := 0;
    while i < vertexCount
      invariant 0 <= i <= vertexCount
      invariant |newVertices| == i && |newNormals| == i && |newTangents| == i
      invariant i <= |d.vertices| && i <= |base.normals| && i <= |d.normals|
      invariant i <= |base.tangents| && i <= |d.tangents|
      invariant forall j :: 0 <= j < i ==>
        && newVertices[j] == Add(base.vertices[j], d.vertices[j])
        && newNormals[j] == normalize(Add(base.normals[j], d.normals[j]))
        && newTangents[j] == BakedTangent(base.tangents[j], d.tangents[j], normalize)
    {
      if i >= |d.vertices| || i >= |base.normals| || i >= |d.normals|
        || i >= |base.tangents| || i >= |d.tangents|
      {
        return Failure(IndexOutOfRange);
      }
      newVertices := newVertices + [Add(base.vertices[i], d.vertices[i])];
      var blendedNormal := Add(base.normals[i], d.normals[i]);
      newNormals := newNormals + [normalize(blendedNormal)];
      var blendedTangentXyz := normalize(Add(Xyz(base.tangents[i]), d.tangents[i]));
      newTangents := newTangents + [WithW(blendedTangentXyz, base.tangents[i].w)];
      i := i + 1;
    }
    var g := Geometry(newVertices, newNormals, newTangents);
    assert forall j :: 0 <= j < vertexCount ==> BakedAt(g, base, d, normalize, j);
    ApplyIsCharacterized(g, base, d, normalize);
    r := Success(g);
  }
}
