/** Optional values and accept/reject outcomes shared by the store model. */
module Wrappers {

  /** A value that may be absent: an optional TypeScript property or a `null` state. */
  datatype Option<+T> = None | Some(value: T)

  /** The outcome of a guarded handler: the new value, or the reason it was refused. */
  datatype Result<+R, +E> = Success(value: R) | Failure(error: E)
}
