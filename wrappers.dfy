/** Option and Result, the two failure-carrying shapes the model uses for
    missing form fields, failed lookups and rejected writes. */
module Wrappers {

  datatype Option<+T> = None | Some(value: T)

  datatype Result<+R, +E> = Ok(value: R) | Err(error: E)
}
