/** Option values for operations that the programs can fail in. */
module Wrappers {

  datatype Option<T> = None | Some(value: T)
}
