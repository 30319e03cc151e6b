/** Option and Result values used for the formatter's fallible operations. */
module Wrappers {
  datatype Option<T> = None | Some(value: T) {
    predicate IsSome() { Some? }

    function UnwrapOr(default: T): T {
      match this
      case Some(v) => v
      case None => default
    }
  }

  datatype Result<T, E> = Ok(value: T) | Err(error: E) {
    predicate IsOk() { Ok? }
  }
}
