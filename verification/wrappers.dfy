/** Optional values and error-carrying results, the stand-ins for pandas'
    missing cells (NaN / NaT) and for Python exceptions. */
module Wrappers {

  /** A cell that may be missing. */
  datatype Option<+T> = None | Some(value: T)

  /** The outcome of an operation that may raise. */
  datatype Result<+R, +E> = Ok(value: R) | Err(error: E)
}
