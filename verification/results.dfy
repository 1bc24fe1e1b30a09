/** Option and the bake's Result type. */
module Results {

  /** A reference that may be null (an unassigned renderer or mesh). */
  datatype Option<+T> = None | Some(value: T)

  /** The ways a bake can fail before it produces a mesh. */
  datatype BakeError =
    | MeshIsNull              // Bake: no renderer, or the renderer has no shared mesh
    | InvalidBlendshapeIndex  // Bake: index is -1 or at least the blendshape count
    | FrameUnavailable        // the mesh cannot supply the requested blendshape frame
    | IndexOutOfRange         // ApplyBlendShapeDeltas indexed past the end of an input array

  datatype Result<+T> = Success(value: T) | Failure(error: BakeError)
}
