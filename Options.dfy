/** Optional values: the model's stand-in for Swift's `T?` (a `Date?` start time, a motion update
    that may carry no data, a parse that may fail). */
module Options {

  datatype Option<T> = None | Some(value: T)
}
