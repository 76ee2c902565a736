/** The optional value returned by JavaScript's `Array.prototype.find` and by lookups that may miss. */
module Wrappers {

  datatype Option<+T> = None | Some(value: T)
}
