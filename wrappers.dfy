/** Optional values and results with an error case, used in place of Python's None and exceptions. */
module Wrappers {

  /** `None` stands for Python's `None` (or, for floats, NaN). */
  datatype Option<+T> = None | Some(value: T)

  /** The outcome of an operation that may raise. */
  datatype Result<+T, +E> = Ok(value: T) | Err(error: E)
}
