/** An optional value, for the screens' `useState(null)` fields. */
module Option {

  datatype Option<+T> = None | Some(value: T)
}
