/** Optional values and results carrying the exception a Python call would raise. */
module Wrappers {

  datatype Option<+T> = None | Some(value: T)

  /** `Failure(e)` stands for "the call raised `e`". */
  datatype Result<+R, +E> = Success(value: R) | Failure(error: E)
}
