/** The Option and Outcome types shared by the services of the model. */
module Wrappers {

  datatype Option<+T> = None | Some(value: T)

  /** The exceptions a service answers with, by HTTP class. */
  datatype ApiError = BadRequest | Forbidden | NotFound | Conflict

  /** A transaction either commits a new state or rolls back and answers an error. */
  datatype Outcome<S> = Done(state: S) | Refused(error: ApiError) {
    /** The rows after the transaction, given the rows before it. */
    function After(before: S): S {
      match this
      case Done(s) => s
      case Refused(_) => before
    }
  }
}
