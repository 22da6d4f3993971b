/** The optional value used throughout the model for JavaScript's `undefined`
    and for operations that throw. */
module Wrappers {

  datatype Option<+T> = None | Some(value: T)
}
