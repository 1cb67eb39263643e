/** Failure-compatible wrappers shared by every module of the model. */
module Wrappers {

  /** A value that may be missing (`null` or `undefined` in the source). */
  datatype Option<T> = None | Some(value: T)

  /** An error as thrown by a collaborator: its `code` and its `message`. */
  datatype Fault = Fault(code: string, message: string)

  /** The result of an operation that returns a value or throws. */
  datatype Result<T> = Ok(value: T) | Err(fault: Fault)

  /** The result of an operation that returns nothing or throws. */
  datatype Outcome = Done | Raised(fault: Fault)

  /** JavaScript truthiness of an optional string: `undefined`, `null` and `''` are falsy. */
  predicate Present(s: Option<string>)
  {
    s.Some? && s.value != ""
  }
}
