/** The optional value used where the launcher works with Python's `None`. */
module Optional {

  datatype Option<T> = None | Some(value: T)
}
