module Options {
  /** A value that may be absent: a null pointer, an empty slot, a search without result. */
  datatype Option<+T> = None | Some(value: T)
}
