/** Failure-compatible result type for the pipeline's thrown errors and error returns. */
module Wrappers {

  /** The conditions under which the pipeline throws (or, for `fillh`, returns nothing). */
  datatype MeshError =
    | VolumeTooSmall       // voxels2mesh: a dimension is below 3
    | NoVoxelsSurvive      // voxels2mesh: extraction produced fewer than 3 floats
    | NoValidTriangles     // cullDegenerateTriangles: every triangle is degenerate
    | FillUndefined        // fillh returned undefined (a dimension below 3) and fillBubbles read it
    | BufferRange          // CustomBuffer.append: typed-array set past the end (RangeError)

  datatype Result<+T> = Ok(value: T) | Err(error: MeshError) {
    predicate IsFailure() {
      Err?
    }

    function PropagateFailure<U>(): Result<U>
      requires Err?
    {
      Err(error)
    }

    function Extract(): T
      requires Ok?
    {
      value
    }
  }

  datatype Option<+T> = None | Some(value: T)
}
