/** Failure-carrying values shared by every module of the model. */
module Wrappers {

  /** A value that may be absent: JavaScript's `undefined` / `null` for an optional field. */
  datatype Option<+T> = None | Some(value: T)

  /** The outcome of a call that either resolves with a value or rejects with an error. */
  datatype Result<+T, +E> = Ok(value: T) | Err(error: E)

  /** `o ?? d`, and `o || d` for fields whose present values are never falsy. */
  function OrElse<T>(o: Option<T>, d: T): T
  {
    match o
    case Some(v) => v
    case None => d
  }
}
