/** An optional value: `None` where the scripts have `None` or a missing key. */
module Options {
  datatype Option<T> = None | Some(value: T)
}
