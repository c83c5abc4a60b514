/** Option and Result, shared by every module. */
module Wrappers {

  datatype Option<+T> = None | Some(value: T)

  /** What a call hands back: its value, or the exception it raises. */
  datatype Result<+T> = Ok(value: T) | Err(error: Error)

  datatype Error =
    | InvalidArgument      // ValueError
    | OperationConflict    // OperationConflictError
    | ClaimLost            // ClaimLostError
    | IntegrityViolation   // a UNIQUE or CHECK constraint of the schema
    | FactoryFailed        // the caller's turn factory raised
    | NoTurnStart          // TurnReconciliationError: nothing queued for the session
    | NoMatchingTurn       // TurnReconciliationError: no queued turn has the hash
}
