/** Optional values and results with an error, used where the renderer holds a
    `std::optional` or where a setup step throws. */
module Wrappers {

  datatype Option<+T> = None | Some(value: T)

  datatype Result<+R, +E> = Success(value: R) | Failure(error: E)
}
