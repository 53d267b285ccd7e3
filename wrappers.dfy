/** Option and Result values shared by every module of the model. */
module Wrappers {

  /** A value that may be absent: `null`/`undefined` in TypeScript, `None` in Python. */
  datatype Option<+T> = None | Some(value: T) {
    /** The value, or `default` when absent (the `??` and `or` idioms). */
    function GetOr(default: T): T {
      match this
      case Some(v) => v
      case None => default
    }
  }

  /** Truthiness of a nullable id in TypeScript and Python alike: null/None and 0 are falsy. */
  predicate IdIsSet(id: Option<int>) {
    id.Some? && id.value != 0
  }

  /** Truthiness of a nullable string: null/None and "" are falsy. */
  predicate StrIsSet(s: Option<string>) {
    s.Some? && s.value != []
  }

  /** The outcome of a request handler: a value, or the error it raises. */
  datatype Result<+T, +E> = Ok(value: T) | Err(error: E)
}
