/** Result-like datatypes shared by the model. */
module Wrappers {
  datatype Option<+T> = None | Some(value: T)

  /** An error, as far as it is passed on. */
  datatype Cause = Cause(message: string)
}
