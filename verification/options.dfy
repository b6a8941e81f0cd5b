/** The optional value used for Swift optionals (`T?`) throughout the model. */
module Options {

  datatype Option<+T> = None | Some(value: T)

}
