/** Optional values and failure-carrying results shared by every module of the model. */
module Wrappers {

  /** A value that may be absent: Python's None, JavaScript's null or undefined. */
  datatype Option<T> = None | Some(value: T) {
    /** The value, or `default` when absent (JavaScript's `x ?? d`, Python's `x or d` for a present value). */
    function GetOr(default: T): T {
      match this
      case Some(v) => v
      case None => default
    }
  }

  /** The outcome of a step that may raise: `Ok` carries the value, `Err` the error. */
  datatype Result<T, E> = Ok(value: T) | Err(error: E)

  /** An optional string used as a condition, in Python or JavaScript: present and not empty. */
  predicate Truthy(s: Option<string>) { s.Some? && s.value != "" }
}
