/** The optional value that `Array.prototype.find` returns (an element or `undefined`). */
module Wrappers {
  datatype Option<+T> = None | Some(value: T)
}
