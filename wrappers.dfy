/** Optional values and results with an error, used wherever the modelled
    code can yield `undefined`/`NaN`/`null` or throw. */
module Wrappers {

  datatype Option<+T> = None | Some(value: T)

  /** The exceptions the modelled code throws: an explicit `throw`, and the
      `TypeError` of reading a property of `undefined` or `null`. */
  datatype Error = IllegalArgument | TypeError

  datatype Result<+T> = Ok(value: T) | Err(error: Error)

  /** The result of an operation that returns nothing but may throw. */
  datatype Outcome = Pass | Fail(error: Error)
}
