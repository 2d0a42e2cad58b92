/** An optional value. It stands for a Java reference that may be `null`
    and for the result of a parse that may fail. */
module Options {

  datatype Option<+T> = None | Some(value: T)
}
