/** Rust's `Option<T>` with the one combinator the bindings use, `unwrap_or`. */
module Wrappers {

  datatype Option<+T> = None | Some(value: T) {

    /** `unwrap_or(default)`: the carried value, or `default` when there is none. */
    function UnwrapOr(default: T): (v: T) {
      match this
      case Some(x) => x
      case None => default
    }
  }
}
