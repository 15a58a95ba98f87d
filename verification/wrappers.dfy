/** An optional value, standing for a JavaScript value that may be `null`
    or a record field that may be absent. */
module Wrappers {
  datatype Option<+T> = None | Some(value: T)
}
