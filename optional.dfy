/** An optional value, standing for `std::optional` in the frame buffer's fields. */
module Optional {
  datatype Option<T> = None | Some(value: T)
}
