/** Python exceptions raised by the core, as values. */
module Errors {

  /** Why an operation failed; one constructor per `raise` site of the core. */
  datatype Reason =
    | MissingDim(name: string)      // a required dimension name is not among the array's dims
    | NotPermutation                // transpose(time, y, x) does not name every dim exactly once
    | BadConnectivity(connectivity: int)   // connectivity other than 6 or 26
    | BadHullMethod(given: string)  // hull_method other than "convex"
    | NoSections(tubeId: int)       // the chosen tube produced no valid polygon
    | UnknownRule(given: string)    // a string rule other than "ndvi"
    | CustomNotArray                // a custom rule returned something that is not a DataArray
    | CustomDimsMismatch            // a custom rule returned a mask with other dims than the cube
    | NoTubes                       // the metrics table is empty
    | BadSelect(given: string)      // a select string other than "longest" / "largest"
    | TubeNotFound(tubeId: int)     // an explicit tube id that is not in the table
    | NotMapping                    // the area of interest is not a mapping
    | NoCoordinates                 // the area of interest holds no coordinate pair
    | NotIterable                   // a `features` value that Python cannot iterate over
    | NotFloat                      // float() rejected the second entry of a position
    | NotOneVariable                // a Dataset with other than exactly one data variable
    | NotXarray                     // neither a DataArray nor a Dataset
    | TooFewDims                    // fewer than two dimensions
    | NoSpatialDims                 // fewer than two dimensions left once time is removed

  /** The Python exception class a failure surfaces as. */
  datatype Error = ValueError(reason: Reason) | TypeError(reason: Reason) | OverflowError(reason: Reason)

  datatype Result<T> = Ok(value: T) | Err(error: Error)

  datatype Option<T> = None | Some(value: T)
}
