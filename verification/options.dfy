/** Optional values, used where the engine holds a reference that may be unset. */
module Options {

  /** An optional value: the engine's nullable bucket and applicator pointers. */
  datatype Option<+T> = None | Some(value: T)
}
