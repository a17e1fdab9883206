/** Failure values for the problem-model and the tracking goal.
    Every exception the core throws becomes one `Error` constructor; the
    wording of the messages is not modelled, the data they carry is. */
module Outcomes {

  /** Which of the four inequalities of MucoVariableInfo::validate failed,
      in the order in which validate tests them. */
  datatype Violation =
    | InitialLowerBelow
    | FinalLowerBelow
    | InitialUpperAbove
    | FinalUpperAbove

  datatype Error =
    | InvalidBounds(variable: string, violation: Violation)
    | EmptyName
    | DuplicateName(name: string)
    | NotFound(name: string)
    | UnknownState(name: string)
    | UnknownControl(name: string)
    | ArityMismatch(expected: nat, provided: nat)
    | MissingReferenceColumn(path: string)
    | RedundantColumn(column: string)
    | UnknownFrame(path: string)

  /** A call that either returns normally or throws `error`. */
  datatype Outcome = Pass | Fail(error: Error)

  /** A call that either returns `value` or throws `error`. */
  datatype Result<T> = Success(value: T) | Failure(error: Error)

  datatype Option<T> = None | Some(value: T)
}
