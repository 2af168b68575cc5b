/** The optional value that stands for JavaScript's `undefined` result or a missing object. */
module Options {
  datatype Option<T> = None | Some(value: T)
}
