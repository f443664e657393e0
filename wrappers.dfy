/** Failure-carrying values: the C# code's nullable results and thrown exceptions. */
module Wrappers {

  /** A value that may be absent (C#'s `null`, `Nullable<T>` without a value). */
  datatype Option<+T> = None | Some(value: T)

  /** Either a result or the error the C# code would throw. */
  datatype Result<+R, +E> = Ok(value: R) | Err(error: E)
}
