/** Optional values and thrown-or-returned results, shared by the other modules. */
module Wrappers {

  /** Swift's `T?`. */
  datatype Option<+T> = None | Some(value: T)

  /** A call that either returns a value or throws an error. */
  datatype Result<+T, +E> = Returned(value: T) | Threw(error: E)
}
