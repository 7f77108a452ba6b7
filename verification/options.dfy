/** Optional values: JavaScript's `null` / `undefined` made explicit. */
module Options {

  datatype Option<+T> = None | Some(value: T)
}
