/** A value that may be absent: the model's stand-in for JavaScript's
    `null`/`undefined` where the handler tests a value for presence. */
module Optional {

  datatype Option<+T> = None | Some(value: T)

}
