/** The optional value the source expresses with Kotlin's nullable types. */
module Optional {

  datatype Option<+T> = None | Some(value: T)
}
