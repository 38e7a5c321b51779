/** Result shapes shared by the whole model: an optional value, and the outcome of a
    Python call that either returns a value or lets an exception escape to its caller. */
module Outcomes {

  datatype Option<+T> = None | Some(value: T)

  /** The exceptions that escape from the modelled code. `Exit(code)` is `typer.Exit`,
      which ends the command with that status. */
  datatype PyError =
    | TypeError
    | UnboundLocalError
    | ZeroDivisionError
    | KeyError
    | IndexError
    | RuntimeError(message: string)
    | Exit(code: int)

  /** A call that returns a value or raises. */
  datatype Raising<+T> = Returns(value: T) | Raises(error: PyError)
}
