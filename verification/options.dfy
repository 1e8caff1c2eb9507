/** An optional value: the model's stand-in for a nullable pointer or an
    absent initialiser. */
module Options {

  datatype Option<+T> = None | Some(value: T)
}
