/** An optional value: a field of loosely-typed JSON that may be undefined. */
module Wrappers {

  datatype Option<+T> = None | Some(value: T)
}
