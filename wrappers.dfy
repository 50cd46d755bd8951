/** Helper datatypes shared by the whole model. */
module Wrappers {

  /** An optional value: the Rust `Option`, and a key that an options object may lack. */
  datatype Option<T> = None | Some(value: T) {
    function GetOr(default: T): T {
      match this
      case Some(v) => v
      case None => default
    }
  }

  /** A value or the reason the computation aborted. */
  datatype Result<T, E> = Ok(value: T) | Err(error: E)

  /** Success, or the reason a lifecycle hook aborted. */
  datatype Outcome<E> = Pass | Fail(error: E)
}
