/** Option values, for the operations whose Python counterpart may raise. */
module Wrappers {
  datatype Option<+T> = None | Some(value: T)
}
