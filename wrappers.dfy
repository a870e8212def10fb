/** The optional-value type used across the model. */
module Wrappers {

  /** A value that may be absent (TypeScript's `undefined`). */
  datatype Option<+T> = None | Some(value: T)
}
