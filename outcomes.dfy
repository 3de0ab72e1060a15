/** Values shared by every stage of the upgrade-proposal pipeline: optional
    values, the two terminal errors the pipeline can throw, and its result. */
module Outcomes {

  /** A transaction signature as the ledger returns it (an opaque string). */
  type TxId = string

  datatype Option<+T> = None | Some(value: T)

  /** The errors `createProgramUpgrade` throws on its own account. */
  datatype Error =
    | MismatchedProgramIndex   // the fetched record names another program
    | AllAttemptsFailed        // every submission attempt failed

  /** What the caller observes: a value, or one of the thrown errors. */
  datatype Result<+T> = Success(value: T) | Failure(error: Error)

  /** The message carried by the thrown `Error` object. */
  function Message(e: Error): string {
    match e
    case MismatchedProgramIndex => "Mismatched program index"
    case AllAttemptsFailed => "All attempts to call methods.rpc() have failed."
  }
}
