/** Option and Result, the two failure-carrying datatypes the model uses in
    place of Python's None and raised exceptions. */
module Wrappers {

  datatype Option<+T> = None | Some(value: T)

  datatype Result<+R, +E> = Success(value: R) | Failure(error: E)

  /** The exceptions of the analysed scripts that the model keeps: each one
      aborts the script that raises it. */
  datatype Error =
    | ZeroDivision   // Python's ZeroDivisionError
    | ValueError     // list.index on a missing element
    | IndexError     // a list index past the end
}
