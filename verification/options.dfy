/** A nullable column value: None stands for SQL NULL. */
module Options {

  datatype Option<+T> = None | Some(value: T)

}
