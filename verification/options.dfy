/** Failure-compatible wrappers used by the logger model. */
module Options {

  /** An optional value: a report that a step may or may not emit. */
  datatype Option<+T> = None | Some(value: T)

  /** Either a value or the error the source would raise instead. */
  datatype Result<+R, +E> = Success(value: R) | Failure(error: E)
}
