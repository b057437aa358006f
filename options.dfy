/** The optional value the source expresses with `undefined`/`null`. */
module Options {

  datatype Option<+T> = None | Some(value: T)
}
