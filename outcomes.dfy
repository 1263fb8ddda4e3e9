/** Failure-carrying values used in place of C# null returns and thrown exceptions. */
module Outcomes {

  /** A possibly-absent value: a C# `null` reference or a missing dictionary entry. */
  datatype Option<+T> = None | Some(value: T)

  /** A value or the exception that was thrown instead of producing it. */
  datatype Result<+T, +E> = Ok(value: T) | Err(error: E)

  /** Normal completion of a `void`/`Task` member, or the exception it threw. */
  datatype Outcome<+E> = Pass | Fail(error: E)
}
