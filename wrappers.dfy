/** Small failure-carrying datatypes shared by the modules of the model. */
module Wrappers {

  /** A value that may be absent (JavaScript's `undefined`). */
  datatype Option<+T> = None | Some(value: T)

  /** The outcome of a step that either completes or throws a value of type E. */
  datatype Outcome<+E> = Pass | Fail(error: E)
}
