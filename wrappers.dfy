/** Shared shapes for the results of calls the stores make into code outside the model. */
module Wrappers {

  datatype Option<T> = None | Some(value: T)

  /** A value thrown by a callee: an `Error` object carrying its message, or anything else. */
  datatype Thrown = ErrorObject(message: string) | OtherValue

  /** What a `catch` block records: `error instanceof Error ? error.message : fallback`. */
  function CaughtMessage(t: Thrown, fallback: string): (m: string)
    ensures t.ErrorObject? ==> m == t.message
    ensures t.OtherValue? ==> m == fallback
  {
    match t
    case ErrorObject(message) => message
    case OtherValue => fallback
  }

  /** The settled state of a promise that yields nothing of interest. */
  datatype Outcome = Done | Threw(thrown: Thrown)

  /** The settled state of a promise that yields a value. */
  datatype Result<T> = Ok(value: T) | Err(thrown: Thrown)
}
