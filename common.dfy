/** Failure-carrying wrappers shared by the modules of the adapter's runtime. */
module Common {

  /** A value that may be missing: JavaScript's `undefined` (or `false` where the
      runtime uses `false` as "not configured"). */
  datatype Option<+T> = None | Some(value: T) {
    function GetOr(default: T): T {
      match this
      case Some(v) => v
      case None => default
    }
  }

  /** JavaScript truthiness of an optional string: `undefined`, `false` and the
      empty string are falsy. */
  predicate Truthy(s: Option<string>) {
    s.Some? && s.value != []
  }

  /** The outcome of an operation that throws in the original runtime. */
  datatype Result<+R, +E> = Ok(value: R) | Err(error: E)
}
