/** An optional value: the outcome of a search that may find nothing. */
module Optional {

  datatype Option<+T> = None | Some(value: T)
}
