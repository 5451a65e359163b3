/** Shared building blocks: an optional value and Python truthiness of optional strings. */
module Common {

  /** A value that may be missing, standing for Python's `None`. */
  datatype Option<+T> = None | Some(value: T)

  /** Python truthiness of a value that is either `None` or a `str`:
      present and non-empty. */
  predicate Truthy(o: Option<string>) {
    o.Some? && o.value != ""
  }
}
