/** The optional value of TypeScript's `T | null`. */
module Optional {

  datatype Option<+T> = None | Some(value: T)
}
