/** Results of steps that may produce nothing, and of calls into code outside the model. */
module Outcomes {

  /** A value that may be absent (Python's `None`). */
  datatype Option<+T> = None | Some(value: T)

  /** The outcome of a call into a collaborator: it returns a value or raises an exception. */
  datatype Outcome<+T> = Raised | Returned(value: T)
}
