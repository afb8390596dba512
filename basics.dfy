/** Small wrapper types shared by every module of the model. */
module Basics {

  /** Python's `X | None`. */
  datatype Option<+T> = None | Some(value: T)
  {
    function GetOr(default: T): T
    {
      match this
      case Some(v) => v
      case None => default
    }
  }

  /** The outcome of a Python call that either returns a value or raises.
      `Failure` carries the text of the exception. */
  datatype Result<+T> = Ok(value: T) | Failure(error: string)
  {
    predicate IsFailure() { Failure? }

    function PropagateFailure<U>(): Result<U>
      requires Failure?
    {
      Failure(error)
    }

    function Extract(): T
      requires Ok?
    {
      value
    }
  }

  /** Python's truthiness of an optional string (`None` and `""` are falsy). */
  predicate NonEmpty(s: Option<string>)
  {
    s.Some? && s.value != ""
  }
}
