/** Result types shared by the other modules. */
module Wrappers {

  datatype Option<+T> = None | Some(value: T)

  /** The value of a call that can raise: `Failure` carries the message. */
  datatype Result<+T> = Success(value: T) | Failure(error: string)

  /** The outcome of a call that returns nothing but can raise. */
  datatype Outcome = Pass | Fail(error: string)
}
