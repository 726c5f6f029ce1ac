/** An optional value (a service lookup that may come back empty) and a
    result that is either a value or an error. */
module Wrappers {

  /** A value that may be absent; `None` stands for a null answer. */
  datatype Option<+T> = None | Some(value: T)

  /** Either a successfully produced value or the error that prevented it. */
  datatype Result<+R, +E> = Success(value: R) | Failure(error: E)
}
