/** Option, Result and Outcome: a Java `null`, a value-or-exception and a
    returned-or-thrown completion, as values. */
module Wrappers {

  datatype Option<+T> = None | Some(value: T)

  datatype Result<+T, +E> = Ok(value: T) | Err(error: E)

  /** How a `void` Java method completed: it returned, or it threw `error`. */
  datatype Outcome<+E> = Pass | Fail(error: E)
}
