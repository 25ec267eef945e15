/** Optional values: `None` stands for JavaScript's `undefined`. */
module Options {
  datatype Option<+T> = None | Some(value: T)
}
