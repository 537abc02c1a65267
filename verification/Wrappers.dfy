/** Values that may be missing, and calls that may throw. */
module Wrappers {

  datatype Option<+T> = None | Some(value: T)

  /** What a call came to: what it returned, or the words it threw. */
  datatype Result<+T> = Ok(value: T) | Threw(reason: string)
}
