/** The optional-value datatype used across the model (JavaScript's `null` / `undefined`). */
module Wrappers {

  datatype Option<+T> = None | Some(value: T)
}
