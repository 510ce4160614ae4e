/** The optional value used wherever the source has a nullable or `std::optional` result. */
module Options {
  datatype Option<+T> = None | Some(value: T)
}
