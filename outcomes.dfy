/** Value wrappers shared by the modules of this model. */
module Outcomes {

  /** A value that may be absent, as `undefined` or a missing `Map` entry in the source. */
  datatype Option<+T> = None | Some(value: T)

  /**
   * How an awaited operation of the source completes: it returns a value, or it
   * throws (or its promise rejects) with an error message.
   */
  datatype Completion<+T> = Returned(value: T) | Threw(error: string)
}
