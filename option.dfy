/** The usual optional value, used for absent fields and for partial parses. */
module Optional {

  datatype Option<+T> = None | Some(value: T)

}
