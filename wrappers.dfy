/** Failure-carrying results shared by every module of the model. */
module Wrappers {

  /** `None` stands for Python's `None`. */
  datatype Option<+T> = None | Some(value: T)

  /** The Python exception classes the modelled code can raise. */
  datatype Error =
    | KeyError      // a missing dictionary key
    | IndexError    // a list or array index out of range
    | TypeError     // an operation applied to a value of the wrong kind
    | ValueError    // an argument of the right type but an unacceptable value
    | UnboundLocal  // a local variable read before any branch assigned it

  datatype Result<+T> = Ok(value: T) | Err(error: Error)
}
