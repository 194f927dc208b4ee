/** An optional value: `None` stands for Python's `None`, or for a computation that has no result. */
module Options {
  datatype Option<T> = None | Some(value: T)
}
