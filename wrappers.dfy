/** Absent-or-present values and error-or-value results shared by the modules below. */
module Wrappers {

  /** `None` stands for JavaScript's `undefined` or `null`. */
  datatype Option<T> = None | Some(value: T)

  /** `Err` stands for a thrown `Error` carrying its message. */
  datatype Result<T> = Ok(value: T) | Err(message: string)
}
