/** Vocabulary shared by every part of the pipeline: bytes, optional values,
    results, and the conditions under which a run stops. */
module Base {

  /** An unsigned 8-bit value (`u8`). */
  type Byte = x: int | 0 <= x < 256

  datatype Option<+T> = None | Some(value: T)

  /** Every way a pipeline run can stop early. Each one is a panic or an
      error return in the program; here they are values. */
  datatype Error =
    | NoFiles                           // the scan listing is empty
    | MissingTimeField(id: string)      // the identifier has no second `_` field
    | UnparsableTime(field: string)     // the second field is not a `%H%M%S` time
    | MissingReflectivity               // a radial carries no reflectivity moment
    | UnsupportedWordSize(size: nat)    // a moment's data word size is not 8
    | GateIndexOutOfRange(index: nat)   // more moment bytes than gates
    | ZeroStride                        // sampling with a step of 0
    | Busy                              // a run is already in progress
    | Upstream(reason: string)          // listing, download or decoding failed

  datatype Result<+T> = Ok(value: T) | Err(error: Error)
}
