/** Option and Result, the two shapes in which a value may be missing or a stage may fail. */
module Wrappers {

  /** A value that may be absent (`null`/`undefined` in the component). */
  datatype Option<+T> = None | Some(value: T)

  /** The outcome of an awaited step: the resolved value, or the reason the promise rejected. */
  datatype Result<+T, +E> = Ok(value: T) | Err(error: E)
}
