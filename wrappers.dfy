/** Failure-compatible wrappers shared by the frontend and backend models. */
module Wrappers {

  /** An optional value: a missing JSON key, a null, a lookup that found nothing. */
  datatype Option<+T> = None | Some(value: T)

  /** A value or an error message. */
  datatype Result<+T, +E> = Success(value: T) | Failure(error: E)
}
