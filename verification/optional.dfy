/** An optional value, for inputs the widget may or may not have. */
module Optional {
  datatype Option<T> = None | Some(value: T)
}
