/** The conventional optional value, used for the fields of a deprecation
    event that a caller may leave out. */
module Options {

  datatype Option<+T> = None | Some(value: T)
}
