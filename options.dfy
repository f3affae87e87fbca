/** An optional value: a reference that may be null, a cast that may name no enumerator. */
module Options {
  datatype Option<T> = None | Some(value: T)
}
