/** Option and Result values used for JavaScript's optional properties and thrown errors. */
module Wrappers {

  /** An optional value: `None` stands for an absent (`undefined`) property. */
  datatype Option<+T> = None | Some(value: T)

  /** The outcome of a call that may throw: `Failure` carries what was thrown. */
  datatype Result<+R, +E> = Success(value: R) | Failure(error: E)
}
