/** Shared value types. */
module Basics {

  datatype Option<+T> = None | Some(value: T)

  /** The result of running a callback under `withTransaction`: the new tables, or a rollback. */
  datatype Tx<+D> = Committed(db: D) | Aborted

  /** Where the connection fails under `withTransaction`: before one of the statements that follow BEGIN, of
      which COMMIT is the last, or after COMMIT has taken effect and before its answer arrives. */
  datatype Fault = Never | Before(statement: nat) | AnswerLost

  /** The tables after the transaction, whichever way it ended. */
  function After<D>(tx: Tx<D>, before: D): D {
    match tx
    case Committed(db) => db
    case Aborted => before
  }
}
