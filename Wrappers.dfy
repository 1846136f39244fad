/** The optional value used for JavaScript's `null` in the drawing state. */
module Wrappers {

  datatype Option<+T> = None | Some(value: T)
}
