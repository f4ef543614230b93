/** Optional values, the model's counterpart of Python's `Optional[T]`. */
module Wrappers {

  datatype Option<+T> = None | Some(value: T)

  /** Python truthiness of an `Optional[str]`: `None` and `""` are false. */
  predicate TruthyText(o: Option<string>) {
    o.Some? && o.value != ""
  }
}
