/** Small shared datatypes. */
module Wrappers {

  /** A value that may be absent: a nullable column or an optional JSON field. */
  datatype Option<+T> = None | Some(value: T)

  /** The answer of a command that either commits a new state or is refused. */
  datatype Result<+T> = Ok(value: T) | Refused
}
