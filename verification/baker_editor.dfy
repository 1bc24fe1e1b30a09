/**
 * The non-UI logic of the baker's editor window: listing a mesh's blendshape
 * names, the checks `Bake` makes before it touches the mesh, and the bake itself
 * as validation, frame lookup and `ApplyBlendShapeDeltas` in sequence.
 */
module BakerEditor {
  import opened Results
  import opened Vectors
  import opened BlendShapeBake

  /** A mesh as the baker sees it: its geometry and how many blendshapes it has. */
  datatype Mesh = Mesh(geometry: Geometry, blendShapeCount: nat)

  /** A skinned mesh renderer; its shared mesh may be unassigned. */
  datatype SkinnedMeshRenderer = SkinnedMeshRenderer(sharedMesh: Option<Mesh>)

  /** The names of blendshapes `0 .. n-1`, in index order. */
  function NamesBelow(n: nat, nameAt: nat -> string): (names: seq<string>)
    ensures |names| == n
    ensures forall x :: 0 <= x < n ==> names[x] == nameAt(x)
  {
    if n == 0 then [] else NamesBelow(n - 1, nameAt) + [nameAt(n - 1)]
  }

  /**
   * `GetBlendshapeNames`: one name per blendshape, the name of blendshape `x` at
   * position `x`; `nameAt` stands for the mesh's `GetBlendShapeName`.
   */
  function GetBlendshapeNames(blendShapeCount: nat, nameAt: nat -> string): (names: seq<string>)
    ensures |names| == blendShapeCount
    ensures forall x :: 0 <= x < blendShapeCount ==> names[x] == nameAt(x)
  {
    if blendShapeCount == 0 then [] else NamesBelow(blendShapeCount, nameAt)
  }

  /** The renderer's shared mesh, absent when there is no renderer. */
  function MeshOf(renderer: Option<SkinnedMeshRenderer>): Option<Mesh> {
    if renderer.None? then None else renderer.value.sharedMesh
  }

  /**
   * The guard at the top of `Bake`: a missing renderer or mesh is rejected first,
   * then a blendshape index that is -1 or not below the blendshape count.
   */
  function ValidateBake(renderer: Option<SkinnedMeshRenderer>, blendshapeIndex: int): (r: Result<Mesh>)
    ensures r == Failure(MeshIsNull) <==> MeshOf(renderer).None?
    ensures r == Failure(InvalidBlendshapeIndex) <==>
      MeshOf(renderer).Some?
      && (blendshapeIndex == -1 || blendshapeIndex >= MeshOf(renderer).value.blendShapeCount)
    ensures r.Success? ==>
      MeshOf(renderer) == Some(r.value) && blendshapeIndex != -1 && blendshapeIndex < r.value.blendShapeCount
    ensures (MeshOf(renderer).Some? && blendshapeIndex != -1
             && blendshapeIndex < MeshOf(renderer).value.blendShapeCount)
      ==> r == Success(MeshOf(renderer).value)
  {
    if renderer.None? || renderer.value.sharedMesh.None? then Failure(MeshIsNull)
    else
      var mesh := renderer.value.sharedMesh.value;
      if blendshapeIndex == -1 || blendshapeIndex >= mesh.blendShapeCount then Failure(InvalidBlendshapeIndex)
      else Success(mesh)
  }

  /**
   * `Bake` up to the asset write: validate, fetch the frame's deltas from a clone
   * of the mesh (`getFrameDeltas` stands for `GetBlendShapeFrameVertices`, `None`
   * for the exception it throws on a frame or index it does not have), then bake
   * them into the clone's geometry. The clone keeps its blendshapes.
   */
  function Bake(renderer: Option<SkinnedMeshRenderer>, blendshapeIndex: int, frame: int,
                getFrameDeltas: (int, int) -> Option<Deltas>, normalize: Vec3 -> Vec3): (r: Result<Mesh>)
    ensures ValidateBake(renderer, blendshapeIndex).Failure? ==>
      r == Failure(ValidateBake(renderer, blendshapeIndex).error)
    ensures ValidateBake(renderer, blendshapeIndex).Success? && getFrameDeltas(blendshapeIndex, frame).None? ==>
      r == Failure(FrameUnavailable)
    ensures r.Success? ==>
      && MeshOf(renderer).Some?
      && getFrameDeltas(blendshapeIndex, frame).Some?
      && r.value.blendShapeCount == MeshOf(renderer).value.blendShapeCount
      && IsBakeOf(r.value.geometry, MeshOf(renderer).value.geometry,
                  getFrameDeltas(blendshapeIndex, frame).value, normalize)
    ensures r.Success? <==>
      && ValidateBake(renderer, blendshapeIndex).Success?
      && getFrameDeltas(blendshapeIndex, frame).Some?
      && CoversVertices(MeshOf(renderer).value.geometry, getFrameDeltas(blendshapeIndex, frame).value)
    ensures r == Failure(IndexOutOfRange) <==>
      && ValidateBake(renderer, blendshapeIndex).Success?
      && getFrameDeltas(blendshapeIndex, frame).Some?
      && !CoversVertices(MeshOf(renderer).value.geometry, getFrameDeltas(blendshapeIndex, frame).value)
  {
    match ValidateBake(renderer, blendshapeIndex)
    case Failure(e) => Failure(e)
    case Success(mesh) =>
      match getFrameDeltas(blendshapeIndex, frame)
      case None => Failure(FrameUnavailable)
      case Some(deltas) =>
        match ApplyBlendShapeDeltas(mesh.geometry, deltas, normalize)
        case Failure(e) => Failure(e)
        case Success(baked) => Success(Mesh(baked, mesh.blendShapeCount))
  }

  /** Every index the blendshape-name list offers passes the guard. */
  lemma ListedIndexPassesGuard(mesh: Mesh, nameAt: nat -> string, index: int)
    requires 0 <= index < |GetBlendshapeNames(mesh.blendShapeCount, nameAt)|
    ensures ValidateBake(Some(SkinnedMeshRenderer(Some(mesh))), index) == Success(mesh)
  {
  }

  /** The "not found" index -1 is always refused, whatever the mesh. */
  lemma NotFoundIndexIsRefused(renderer: Option<SkinnedMeshRenderer>)
    ensures ValidateBake(renderer, -1).Failure?
  {
  }

  /** The guard lets negative indices other than -1 through; only the frame lookup can refuse them. */
  lemma GuardAdmitsOtherNegativeIndices(mesh: Mesh, index: int)
    requires index < -1
    ensures ValidateBake(Some(SkinnedMeshRenderer(Some(mesh))), index) == Success(mesh)
  {
  }

  /**
   * A mesh with vertices but no tangent array (Unity then reports an empty
   * `tangents`) passes the guard and the frame lookup, then fails in the loop.
   */
  lemma MeshWithoutTangentsFailsInLoop(mesh: Mesh, index: int, frame: int,
                                       getFrameDeltas: (int, int) -> Option<Deltas>, normalize: Vec3 -> Vec3)
    requires 0 <= index < mesh.blendShapeCount
    requires |mesh.geometry.vertices| > 0 && |mesh.geometry.tangents| == 0
    requires getFrameDeltas(index, frame).Some?
    ensures Bake(Some(SkinnedMeshRenderer(Some(mesh))), index, frame, getFrameDeltas, normalize)
         == Failure(IndexOutOfRange)
  {
  }
}
