/** The optional value shared by every module: a nullable column, a missing
    dictionary entry, or Python's None. */
module Options {
  datatype Option<+T> = None | Some(value: T)
}
