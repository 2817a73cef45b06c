/** Option and Result values used for the error paths of the shop ledger. */
module Wrappers {

  datatype Option<+T> = None | Some(value: T)

  /** A form submission either yields a value or names the field that failed validation. */
  datatype Result<+T, +E> = Ok(value: T) | Err(error: E)
}
