// Option type used wherever the source has a value that may be absent
// (a JavaScript null/undefined, a Go nil, a missing map key).
module Wrappers {
  datatype Option<T> = None | Some(value: T)
}
