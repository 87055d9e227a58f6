/** An optional value, standing in for the nil-able pointers and interfaces the
    resolver passes around. */
module Options {

  datatype Option<+T> = None | Some(value: T)
}
