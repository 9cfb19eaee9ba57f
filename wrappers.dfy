/** The optional value used throughout the model for JavaScript's `null`,
    `undefined` and the empty form field. */
module Wrappers {

  datatype Option<+T> = None | Some(value: T)
}
