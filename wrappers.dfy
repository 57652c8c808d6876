/** Failure-carrying values: the Python code signals failure by raising,
    the model by returning `Failure` (or `None` for an absent value). */
module Wrappers {

  datatype Option<+T> = None | Some(value: T)

  datatype Result<+T, +E> = Success(value: T) | Failure(error: E)
}
