/** Optional values, the exceptions the modelled code can raise, and results
    that carry either a value or one of those exceptions. */
module Outcomes {

  datatype Option<T> = None | Some(value: T)

  /** The exceptions that escape from the modelled Python code, and the
      JavaScript equivalent (a TypeError thrown inside a callback). */
  datatype Failure =
    | ZeroDivisionError   // a float division by 0 or 0.0
    | ValueError          // int() applied to text that is not an integer
    | KeyError            // a missing field of a JSON object or a response
    | NoSuchKey           // reading an object that the store does not hold
    | TypeError           // JavaScript: a property read on `undefined`
    | InvokeError         // the Lambda service refused an invocation

  datatype Result<T> = Ok(value: T) | Err(error: Failure)
}
