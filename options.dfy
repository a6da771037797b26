/** An optional value: the Go code's `(value, ok)` pairs, nil replies and failing calls. */
module Options {
  datatype Option<T> = None | Some(value: T)
}
