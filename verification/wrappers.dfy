/** Option and Result, used for Java's nullable references and for the
    exceptions that the ledger operations throw instead of returning. */
module Wrappers {

  datatype Option<+T> = None | Some(value: T)

  /** The value of a nullable reference, or a default when it is null
      (Java's `x != null ? x : d`). */
  function GetOr<T>(o: Option<T>, default: T): T
  {
    match o
    case Some(v) => v
    case None => default
  }

  datatype Result<+T, +E> = Ok(value: T) | Err(error: E)
}
