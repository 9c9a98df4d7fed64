/** Optional values, for Python's None. */
module Options {

  datatype Option<T> = None | Some(value: T)
}
