/** The optional value used wherever the modelled TypeScript returns `undefined`
    or `null` in place of a value, or where a library call may throw. */
module Optional {

  datatype Option<+T> = None | Some(value: T)
}
