/** Plain wrapper datatypes shared by the storage and broker models. */
module Wrappers {

  /** A value that may be missing; None stands for JavaScript's `undefined`
      or `null`, except in KeyValueStorage.Value, where Some(JNull) is `null`. */
  datatype Option<+T> = None | Some(value: T)

  /** The outcome of a fallible computation: a value, or the error that
      a rejected promise would carry. */
  datatype Result<+R, +E> = Success(value: R) | Failure(error: E)

  /** The outcome of a fallible step that produces no value. */
  datatype Outcome<+E> = Pass | Fail(error: E)
}
