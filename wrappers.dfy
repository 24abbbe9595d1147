/** Option and Result, and the failures the compliance engine can raise. */
module Wrappers {
  datatype Option<T> = None | Some(value: T)

  /** The failures of a stage report that surface to the caller. */
  datatype Failure =
    | KeyError(key: string)      // a dict key that the frame does not hold
    | LengthMismatch(key: string) // a frame row whose length differs from the number of weeks
    | QueryError                  // the analytical query itself fails
    | MissingDueDate              // no estimated due date to anchor gestational weeks (intended check)

  datatype Result<T> = Ok(value: T) | Err(error: Failure)
}
