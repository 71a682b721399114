/** Failure-carrying return values shared by the roadmap check and the goal store. */
module Wrappers {

  datatype Option<+T> = None | Some(value: T)

  /** A value or the error that prevented it. */
  datatype Result<+R, +E> = Success(value: R) | Failure(error: E)

  /** An acknowledgement or the error that prevented the operation. */
  datatype Outcome<+E> = Pass | Fail(error: E)

  /** The error conditions of the goal service: a generator reply without the
      required plan shape, a goal id that names no stored goal, and a storage
      failure (here: an exhausted AUTOINCREMENT counter). */
  datatype Error = MalformedPlan | NotFound | PersistenceError
}
