/** Option and Result values used across the model, and the exceptions the modelled code can raise. */
module Wrappers {

  /** A value that may be absent: JavaScript's `null` / `undefined` where the source allows them. */
  datatype Option<+T> = None | Some(value: T)

  /** The JavaScript exceptions the modelled expressions can throw. */
  datatype Exception =
    /** Reading a property of `undefined` or `null`. */
    | TypeError

  /** The outcome of evaluating an expression that may throw. */
  datatype Result<+T> = Ok(value: T) | Err(error: Exception)
}
