/** Optional values, standing for Python's `Optional[...]` fields of the charm. */
module Wrappers {

  datatype Option<+T> = None | Some(value: T)

  /** Python truthiness of an `Optional[str]`: `None` and `""` are both falsy. */
  predicate Truthy(o: Option<string>) {
    o.Some? && o.value != ""
  }
}
