/** A value that may be absent: JavaScript's `T | null` and optional properties. */
module Optional {

  datatype Option<+T> = None | Some(value: T)
}
