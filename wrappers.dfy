// Option and Result: a missing value (pandas NaN, an absent key) and an
// operation that either yields a value or raises (a Python exception,
// a `sys.exit`) with a reason.
module Wrappers {

  datatype Option<T> = None | Some(value: T)

  datatype Result<T> = Ok(value: T) | Err(reason: string)
}
