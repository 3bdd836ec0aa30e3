/** The optional value used for nullable pointers and rejected frames. */
module Options {

  datatype Option<+T> = None | Some(value: T)

}
