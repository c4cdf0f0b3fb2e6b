/** The failure-compatible datatypes the other modules share. */
module Wrappers {

  datatype Option<+T> = None | Some(value: T)

  /** The result of an operation that returns only an error: `nil` is `Pass`. */
  datatype Outcome<+E> = Pass | Fail(error: E)
}
