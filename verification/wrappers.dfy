/** Failure-carrying result types shared by every module of the model. */
module Wrappers {

  /** An optional value; Go's `(v, ok)` pairs and nil pointers become this. */
  datatype Option<+T> = None | Some(value: T)

  /** A value or an error; Go's `(v, err)` pairs become this. */
  datatype Result<+R, +E> = Success(value: R) | Failure(error: E)

  /** The outcome of running Go code that may panic at run time
      (an index out of range, say). A panic produces no value. */
  datatype Run<+T> = Returns(value: T) | Panics
}
