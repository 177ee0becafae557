/** Option, Result and Outcome wrappers used for the source's optional fields and raised errors. */
module Wrappers {
  datatype Option<T> = None | Some(value: T)
  {
    predicate IsSome() { Some? }

    function GetOr(default: T): (r: T)
      ensures Some? ==> r == value
      ensures None? ==> r == default
    {
      match this
      case None => default
      case Some(v) => v
    }
  }

  datatype Result<T, E> = Ok(value: T) | Err(error: E)

  /** The result of a check that either passes or raises an error. */
  datatype Outcome<E> = Pass | Fail(error: E)
}
