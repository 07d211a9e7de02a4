/** Small value types shared by the command models. */
module Base {

  /** An optional value: the result of a Swift `as?` cast or an optional lookup. */
  datatype Option<+T> = None | Some(value: T)

  /** How a command ends: it returns normally, or it throws `ExitCode(code)`. */
  datatype Outcome = Completed | Exit(code: int)
}
