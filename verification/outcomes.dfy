/** Value-or-absence and value-or-error wrappers shared by the other modules. */
module Outcomes {

  /** An optional value: `None` where the script would see `undefined`, `null` or `NaN`. */
  datatype Option<+T> = None | Some(value: T)

  /** The result of an operation that can fail where the script would throw. */
  datatype Result<+T, +E> = Success(value: T) | Failure(error: E)
}
