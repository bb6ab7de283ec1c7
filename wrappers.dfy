/** Option and Result, the two shapes a report's answer can take. */
module Wrappers {

  /** A lookup that may find nothing (Ruby's `nil`). */
  datatype Option<+T> = None | Some(value: T)

  /** A report that may raise instead of answering. */
  datatype Result<+T> = Ok(value: T) | Err(error: Fault)

  /** The only failure the analyst code raises: the maximum of an empty collection is `nil`,
      and the next call on it (`map`, `[]`) raises NoMethodError. */
  datatype Fault = UndefinedMethodForNil
}
