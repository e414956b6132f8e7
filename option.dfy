/** An optional value, for what the scripts leave null or do not produce. */
module Options {
  datatype Option<T> = None | Some(value: T)
}
