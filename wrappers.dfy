/** Optional values (Java's nullable references) and results (a value or the
    message of the exception that the Java code throws). */
module Wrappers {

  datatype Option<+T> = None | Some(value: T)

  datatype Result<+T> = Ok(value: T) | Err(error: string)

  /** A result that carries no value: the call either completed or threw. */
  datatype Outcome = Completed | Failed(error: string)
}
