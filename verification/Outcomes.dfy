/** Absent values, and results that are either a value or the refusal's code. */
module Outcomes {

  datatype Option<+T> = None | Some(value: T) {
    function Or(default: T): T {
      match this
      case Some(v) => v
      case None => default
    }
  }

  datatype Result<+T, +E> = Ok(value: T) | Refused(error: E)
}
