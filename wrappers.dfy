/** Option and Result: the null-or-value and value-or-thrown-error shapes
    that the TypeScript code expresses with `null`, `undefined` and `throw`. */
module Wrappers {

  datatype Option<+T> = None | Some(value: T)

  datatype Result<+T, +E> = Success(value: T) | Failure(error: E)
}
