/** Failure-carrying values used across the model: Java's `null` becomes `None`,
    a thrown exception becomes `Err`/`Fail`. */
module Wrappers {

  datatype Option<+T> = None | Some(value: T)

  datatype Result<+T, +E> = Ok(value: T) | Err(error: E)

  /** The outcome of an operation that returns nothing (a Java `void` method). */
  datatype Outcome<+E> = Pass | Fail(error: E)
}
