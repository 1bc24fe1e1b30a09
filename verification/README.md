# Blendshape baker — Dafny model

A model of the core of the Unity editor tool `BlendshapeBakerEditor`, which
permanently applies one frame of a skinned mesh's blendshape (morph target) to a
copy of the mesh. The heart of it is `ApplyBlendShapeDeltas`, a per-vertex map
over parallel arrays: positions are summed with their deltas, normals are summed
and renormalized, and tangent directions are summed and renormalized while each
tangent's handedness `w` is copied from the base tangent. Around it the model
covers the checks `Bake` makes before touching the mesh and `GetBlendshapeNames`.

Files, one module each:

- `results.dfy` (`Results`): `Option`, the bake's error kinds and `Result`.
- `vectors.dfy` (`Vectors`): `Vector3`/`Vector4` as records of `real`, with sum,
  dot product and the Vector4-to-Vector3 cast.
- `normalization.dfy` (`Normalization`): Unity's `Vector3.normalized` is library
  code, so every baking function takes the normalizer as a parameter
  `normalize: Vec3 -> Vec3`. The structural properties hold for any normalizer.
  Unit-length facts are proved for any normalizer meeting Unity's documented
  contract (`IsUnityNormalizer`): a vector longer than 1e-5 becomes the unit
  vector in its direction, and a shorter one becomes the zero vector.
- `bake.dfy` (`BlendShapeBake`): `ApplyBlendShapeDeltas` as a function, its
  vertex-by-vertex reference description `IsBakeOf`, and the source's `for` loop
  as a method proved equal to the function.
- `bake_properties.dfy` (`BakeProperties`): independence of vertices, the
  zero-delta identity, stability of re-baking, unit length, and position additivity.
- `baker_editor.dfy` (`BakerEditor`): `GetBlendshapeNames`, the validation at
  the top of `Bake`, and `Bake` as validation, frame lookup and baking in sequence.

Facts about the code that a reader might not expect:

- Arrays that are longer than `baseVertices` are accepted, and their extra
  entries are ignored. Only a shorter array fails, as an index out of range at
  the first missing index.
- A blended normal or tangent too short to normalize is not a special case in the
  code. It becomes whatever `Vector3.normalized` returns, which Unity documents as
  the zero vector.
- `Bake` does not check the frame number itself. A bad frame, or an index below
  -1, is refused only by Unity's `GetBlendShapeFrameVertices`, after the mesh has
  been cloned. The guard's -1 matches the "not found" value that the name search
  returns.

## Model

| member | source | states |
|---|---|---|
| BlendShapeBake.ApplyBlendShapeDeltas | BlendshapeBaker/Editor/BlendshapeBakerEditor.cs:185-215 | succeeds exactly when the five other arrays are at least as long as `baseVertices`, otherwise fails with an index out of range; a success meets the vertex-by-vertex description `IsBakeOf` (lengths equal to the vertex count, position = base + delta, normal = normalize(base + delta), tangent xyz = normalize(base xyz + delta), tangent w = base w) |
| BlendShapeBake.BakePrefix | BlendshapeBaker/Editor/BlendshapeBakerEditor.cs:197-210 | after `n` loop iterations the outputs hold exactly `n` entries, each the baked value of the inputs at its own index |
| BlendShapeBake.ApplyBlendShapeDeltasLoop | BlendshapeBaker/Editor/BlendshapeBakerEditor.cs:191-214 | the loop that appends to fresh sequences index by index, and fails at the first index past the end of an input array, returns the same result as the functional transform |
| BlendShapeBake.BakeIsUnique | BlendshapeBaker/Editor/BlendshapeBakerEditor.cs:197-210 | two outputs that both meet the vertex-by-vertex description are equal, so the description fixes the result completely |
| BlendShapeBake.ApplyIsCharacterized | BlendshapeBaker/Editor/BlendshapeBakerEditor.cs:185-215 | the transform returns `g` if and only if `g` meets the vertex-by-vertex description |
| BakeProperties.BakeSplitsOverConcat | BlendshapeBaker/Editor/BlendshapeBakerEditor.cs:197-210 | baking two runs of vertices separately and joining the results equals baking the joined arrays: no reordering, no cross-vertex dependency |
| BakeProperties.ZeroFrameKeepsPositions | BlendshapeBaker/Editor/BlendshapeBakerEditor.cs:200 | with all-zero deltas the baked positions equal the base positions exactly, whatever the normalizer |
| BakeProperties.ZeroFrameIsIdentity | BlendshapeBaker/Editor/BlendshapeBakerEditor.cs:200-209 | with all-zero deltas and unit base normals and tangent directions, the bake returns the base geometry unchanged, handedness included |
| BakeProperties.BakedShadingVectorsAreUnitOrZero | BlendshapeBaker/Editor/BlendshapeBakerEditor.cs:203-209 | each baked normal and tangent direction has unit length when its blended sum is longer than 1e-5 and is zero otherwise, and each tangent keeps its base sign |
| BakeProperties.RebakeWithZeroFrameIsStable | BlendshapeBaker/Editor/BlendshapeBakerEditor.cs:197-210 | baking an all-zero frame into an already baked mesh changes nothing |
| BakeProperties.SuccessiveBakesAddPositions | BlendshapeBaker/Editor/BlendshapeBakerEditor.cs:200 | baking two frames one after the other moves each position by the sum of both deltas |
| BakeProperties.DoubledNormalNormalizes | BlendshapeBaker/Editor/BlendshapeBakerEditor.cs:203-204 | the blended normal (0, 2, 0) normalizes to (0, 1, 0) |
| BakeProperties.OneVertexScenario | BlendshapeBaker/Editor/BlendshapeBakerEditor.cs:197-210 | one vertex at the origin, moved by (1, 0, 0), with normal (0, 1, 0) doubled by its delta and tangent (1, 0, 0, 1) with a zero delta, bakes to position (1, 0, 0), normal (0, 1, 0) and tangent (1, 0, 0, 1) |
| BakeProperties.CancelledNormalScenario | BlendshapeBaker/Editor/BlendshapeBakerEditor.cs:203-204 | a normal (0, 1, 0) cancelled by the delta (0, -1, 0) bakes to the zero vector, not to an undefined value |
| Normalization.UnitVectorIsFixed | BlendshapeBaker/Editor/BlendshapeBakerEditor.cs:204 | normalizing a unit vector returns it unchanged |
| Normalization.NormalizeIsIdempotent | BlendshapeBaker/Editor/BlendshapeBakerEditor.cs:207-208 | normalizing an already normalized vector returns it unchanged, including the zero fallback |
| BakerEditor.NamesBelow | BlendshapeBaker/Editor/BlendshapeBakerEditor.cs:74 | the range-and-select builds a list of exactly `n` names, where position `x` holds the name of blendshape `x` |
| BakerEditor.GetBlendshapeNames | BlendshapeBaker/Editor/BlendshapeBakerEditor.cs:68-75 | the list holds one name per blendshape, in index order; it is empty when the mesh has no blendshapes |
| BakerEditor.ValidateBake | BlendshapeBaker/Editor/BlendshapeBakerEditor.cs:143-150 | fails with "mesh is null" exactly when there is no renderer or no shared mesh; otherwise fails with "invalid index" exactly when the index is -1 or at least the blendshape count; a present mesh with any other index is accepted and handed back |
| BakerEditor.Bake | BlendshapeBaker/Editor/BlendshapeBakerEditor.cs:143-183 | succeeds exactly when validation passes, the frame is available and the arrays cover the vertices; a failed validation is the bake's result, before any frame lookup or baking; a frame the mesh cannot supply fails; an index-out-of-range failure happens exactly when validation and lookup pass but an array is too short; a success is the shared mesh with its geometry baked by the frame's deltas and its blendshape count kept |
| BakerEditor.ListedIndexPassesGuard | BlendshapeBaker/Editor/BlendshapeBakerEditor.cs:149 | every position in the blendshape-name list is an index that the guard accepts |
| BakerEditor.NotFoundIndexIsRefused | BlendshapeBaker/Editor/BlendshapeBakerEditor.cs:149-150 | index -1, which the name search returns for "not found", is always refused |
| BakerEditor.GuardAdmitsOtherNegativeIndices | BlendshapeBaker/Editor/BlendshapeBakerEditor.cs:149 | the guard lets every index below -1 through, because it tests only for -1 and not for all negative indices |
| BakerEditor.MeshWithoutTangentsFailsInLoop | BlendshapeBaker/Editor/BlendshapeBakerEditor.cs:169-178 | a mesh that has vertices but no tangents passes the guard and the frame lookup, then fails with an index out of range inside the loop |

## Left out

- The editor window, `OnGUI`, search field, popup, slider, menu items and
  `Selection` handling (lines 53-133) are user interface. `OpenWindow`'s use of
  `GetBlendshapeNames` is not modelled.
- The `ScriptableSingleton` settings (lines 17-48) are host editor state. The
  renderer, index and frame become parameters of `Bake`.
- `GetBlendshapeIndex` (lines 135-141) is left out. It wraps Unity's name lookup,
  whose only fact used here is that it returns -1 for "not found".
- `Bake` after the guard is only partly modelled. The asset path generation,
  `Instantiate`, `CreateAsset`, renderer rebinding, `SetDirty` and the log line
  (lines 152-164) are persistence plumbing. Only the geometry of the clone and
  its blendshape count are modelled.
- Unity's mesh calls are parameters. `GetBlendShapeFrameVertices` is modelled as
  `getFrameDeltas`; its checks on the frame and index are outside this model.
  `SetVertices`, `SetNormals` and `SetTangents` are the replacement of the
  clone's geometry. The model does not force `getFrameDeltas` to return arrays
  of `vertexCount` entries, which the source's preallocated arrays guarantee.
- BakerEditor.GetBlendshapeNames: `GetBlendShapeName` is the `nameAt`
  parameter, so the names themselves are not modelled.
- The numerics of `Vector3.normalized` and `Normalize` are not modelled. This
  includes square roots and single-precision rounding. Vectors are exact reals,
  so every sum is exact, not a `float` sum. Unit-length facts assume
  Unity's documented normalizer contract rather than proving it.
