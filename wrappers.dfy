/** Small value wrappers shared by the whole model. */
module Wrappers {

  /** A value that may be missing: JavaScript's `undefined`/`null`. */
  datatype Option<+T> = None | Some(value: T)

  /**
   * What one backend call answered: the row it returned, or an error with
   * its code. The backend itself is not part of the model; every hook
   * operation takes the answer as a parameter.
   */
  datatype Outcome<+T> = Ok(row: T) | Err(code: string)
}
