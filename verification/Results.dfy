/** Failure-compatible result types and the errors a query can end with. */
module Results {

  datatype Option<+T> = None | Some(value: T)

  /** The errors of the virtual machine. */
  datatype Error =
    | EmptyStack
    | InvalidType
    | MismatchedTypes
    | NotIterating
    | UnexpectedStackState
    | NoSuchEnv
    | BadRegex
    | LoadFailed
    | ExpectedDiffAssign
    | NoSuchConstant
    | NotModelled
    | OutOfGas
    | StackOverflow
    | IndexedDump
    | NilRegister
    | BadAddress
    | NoFrame

  /** The errors that are Go panics in the source. */
  predicate IsPanic(e: Error) {
    e.StackOverflow? || e.IndexedDump? || e.NilRegister? || e.BadAddress? || e.NoFrame?
  }

  datatype Result<+T> = Ok(value: T) | Err(error: Error)
}
