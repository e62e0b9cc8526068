// A value that may be missing: a nullable column, a query without a row, an argument left out.
module Options {
  datatype Option<T> = None | Some(value: T)
}
