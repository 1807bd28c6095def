/** Error codes the applier surfaces, and the status/option/result wrappers used throughout. */
module Common {

  /** The server error codes that the resharding oplog applier and its collaborators report. */
  datatype ErrorCode =
    | InternalError        // the change source failed while producing a record
    | FailedToParse        // a change record carries an update operator the store does not know
    | ShutdownInProgress   // the task executor or the writer pool no longer accepts work
    | TransactionTooOld    // a retryable-write check used a transaction number below the session's

  datatype Option<+T> = None | Some(value: T)

  datatype Result<+T> = Success(value: T) | Failure(error: ErrorCode)

  /** The completion of a future that carries no value. */
  datatype Status = Ok | Err(code: ErrorCode)

  function Min(a: int, b: int): int
  {
    if a <= b then a else b
  }
}
