/** Failure-compatible helper datatypes shared by the series model. */
module Wrappers {

  /** An optional value: stands for a JavaScript property that may be absent. */
  datatype Option<+T> = None | Some(value: T)

  /** Either a value or the error a constructor would have thrown. */
  datatype Result<+T, +E> = Ok(value: T) | Err(error: E)
}
