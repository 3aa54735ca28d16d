/** Failure-compatible wrappers used for the error paths of the converters. */
module Wrappers {

  datatype Option<+T> = None | Some(value: T)

  /** The exceptions the modelled C# code can raise. */
  datatype Error =
    | NullReference      // a null reference was dereferenced
    | InvalidOperation   // InvalidOperationException (e.g. Nullable.Value on null)
    | KeyNotFound        // KeyNotFoundException from a dictionary indexer

  datatype Result<+T> = Ok(value: T) | Err(error: Error)
}
