/** The optional value used for request fields, headers and query parameters
    that may be absent (`undefined` in JavaScript). */
module Wrappers {
  datatype Option<+T> = None | Some(value: T)
}
