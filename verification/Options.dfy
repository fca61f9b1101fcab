/** A value that may be missing: nil pointers and nil maps, and steps that have to
    wait. */
module Options {
  datatype Option<+T> = None | Some(value: T)
}
