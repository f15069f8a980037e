/** Option, Result and Outcome: the shapes in which the model returns what Go
    expresses with nil, multiple results and panics. */
module Wrappers {

  datatype Option<+T> = None | Some(value: T)

  datatype Result<+R, +E> = Success(value: R) | Failure(error: E)

  datatype Outcome<+E> = Pass | Fail(error: E)
}
