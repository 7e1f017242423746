/** Optional values and the outcome of a call that may throw. */
module Wrappers {

  /** A value that may be absent (`undefined` or SQL NULL in the application). */
  datatype Option<+T> = None | Some(value: T)

  /** The outcome of a call into a library or the database: a value, or an exception. */
  datatype Try<+T> = Ok(value: T) | Threw
}
