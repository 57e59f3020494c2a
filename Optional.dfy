/** The usual optional value, used for values that may be absent (`null` in the page script). */
module Optional {
  datatype Option<+T> = None | Some(value: T)
}
