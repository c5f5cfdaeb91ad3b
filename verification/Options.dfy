/** The values that may be missing: a null pointer, an empty slot, a field not set yet. */
module Options {
  datatype Option<+T> = None | Some(value: T)
}
