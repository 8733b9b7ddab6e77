/** The Option type used for "no match" throughout the model. */
module Options {

  datatype Option<+T> = None | Some(value: T)

}
