/** An optional value: used where the source would produce NaN (an empty range). */
module Options {

  datatype Option<+T> = None | Some(value: T)
}
