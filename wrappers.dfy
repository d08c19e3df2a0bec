/** Small failure-carrying datatypes shared by the other modules. */
module Wrappers {

  /** A value that may be absent: JavaScript's `null` slot or a missing map entry. */
  datatype Option<+T> = None | Some(value: T)

  /** The outcome of a JavaScript computation that may throw. */
  datatype Result<+T> = Ok(value: T) | Throws
}
