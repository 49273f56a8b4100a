/** Option and Result types for lookups that may fail and operations that raise. */
module Wrappers {

  datatype Option<+T> = None | Some(value: T)

  /** `Err` stands for a Python exception carrying its message. */
  datatype Result<+T> = Ok(value: T) | Err(error: string)
}
