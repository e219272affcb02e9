/** Optional values and results shared by the other modules. */
module Wrappers {

  /** An optional value: a request field that may be absent, a nullable column. */
  datatype Option<+T> = None | Some(value: T)

  /** A value or the reason it could not be produced. */
  datatype Result<+R, +E> = Ok(value: R) | Err(error: E)
}
