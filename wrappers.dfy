/** Optional values and results, used for reads that may fail. */
module Wrappers {

  /** A value that may be absent (JavaScript's `undefined`). */
  datatype Option<+T> = None | Some(value: T)

  /** The outcome of a read from the ledger or the wallet provider that may throw. */
  datatype Result<+T, +E> = Ok(value: T) | Err(error: E)
}
