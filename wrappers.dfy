/** Option and Result wrappers shared by every module of the model. */
module Wrappers {

  datatype Option<T> = None | Some(value: T)
  {
    predicate IsSome() { this.Some? }

    function GetOr(default: T): T
    {
      match this
      case Some(v) => v
      case None => default
    }
  }

  /**
   * The exception classes the modelled code raises.  Messages are not part
   * of the model; `Failure(code)` stands for an `OntologyError` raised with an
   * explicit error code (for example "CIRCUIT_BREAKER_OPEN").
   */
  datatype Exc =
    | ValueError
    | TypeError
    | PermissionError
    | KeyError
    | DataSourceError
    | StopIteration
    | ValidationError
    | NotFoundError
    | AssertionError
    | Failure(code: string)

  datatype Result<T> = Ok(value: T) | Err(exc: Exc)
  {
    predicate IsOk() { this.Ok? }
  }
}
