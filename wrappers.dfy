/** Option, the value-or-nothing wrapper used for optional arguments and parse results. */
module Wrappers {
  datatype Option<+T> = None | Some(value: T)
}
