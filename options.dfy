/** Swift's `Optional`, used for custom accessibility labels and for the optional format style. */
module Options {
  datatype Option<T> = None | Some(value: T)
}
