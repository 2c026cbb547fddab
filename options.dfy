/** The optional value used where the source writes `null` or a sentinel. */
module Options {

  datatype Option<+T> = None | Some(value: T)
}
