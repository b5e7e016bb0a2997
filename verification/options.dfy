/** Optional values: a lookup that may find nothing, a cache that may be empty. */
module Options {

  datatype Option<+T> = None | Some(value: T)
}
