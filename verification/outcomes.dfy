/** Error handling shared by the filters: the Python exceptions that the
    filter classes can raise become values. */
module Outcomes {

  datatype Option<+T> = None | Some(value: T)

  /** The exceptions raised by the filter classes. */
  datatype Error =
    | AttributeError(attribute: string)  // no `init_<transform>` method exists
    | ZeroDivisionError                  // a coefficient formula divides by zero
    | IndexError                         // a moving average of non-positive length is fed

  /** A value, or the exception raised instead of producing it. */
  datatype Result<+T> = Ok(value: T) | Err(error: Error)

  /** The outcome of an operation that produces no value. */
  datatype Outcome = Pass | Fail(error: Error)
}
