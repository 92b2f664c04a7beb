/** Option and Result, the two failure-carrying shapes ffcli's Rust code returns. */
module Wrappers {

  datatype Option<+T> = None | Some(value: T)

  datatype Result<+T, +E> = Ok(value: T) | Err(error: E)

  /** A parse outcome together with the number of input bytes it consumed. */
  datatype Parsed<+T, +E> = Parsed(result: Result<T, E>, consumed: nat)
}
