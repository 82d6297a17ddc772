/** Optional values, and the truthiness test the relay applies to optional integers. */
module Wrappers {

  /** Some value or nothing: a dictionary entry that may be absent, an id that may be missing. */
  datatype Option<+T> = None | Some(value: T)

  /** Python truthiness of an optional integer: absent (None) and zero are both false. */
  predicate Truthy(o: Option<int>) {
    o.Some? && o.value != 0
  }
}
