/** Failure-carrying result types used by the zone lookup and the MGRS codec. */
module Wrappers {

  datatype Option<+T> = None | Some(value: T)

  datatype Result<+T, +E> = Ok(value: T) | Err(error: E)
}
