/** Vocabulary shared by every component: error codes, lifecycle states, stop
    reasons and listener options; and the marker for positions of a run. */
module Types {

  /** The error codes the library distinguishes. `NoError` is the code that tests
      false; the seven codes after `TimedOut` are the transient accept errors. */
  datatype ErrorCode =
    | NoError
    | OperationAborted
    | TimedOut
    | ConnectionAborted
    | Interrupted
    | TryAgain
    | WouldBlock
    | NoDescriptors
    | NoBufferSpace
    | NoMemory
    | IoError
    | Other(value: nat)
  {
    predicate Transient() {
      ConnectionAborted? || Interrupted? || TryAgain? || WouldBlock?
      || NoDescriptors? || NoBufferSpace? || NoMemory?
    }
  }

  datatype ListenerState = Idle | Starting | Running | Stopping | Stopped

  datatype StopReason = NoReason | Requested | Completed | StartupFailure | RuntimeFailure

  /** What a call into foreign code that may throw did: it returned, or it threw an
      exception that maps to `code`. */
  datatype Outcome = Returned | Threw(code: ErrorCode)
  {
    /** Every exception but a `system_error` carrying an empty code maps to an error. */
    predicate Mapped() { Threw? ==> code != NoError }
  }

  /** Names a position of a run, so that its step is unfolded only where a proof asks. */
  predicate At(i: int) { true }

  datatype Options = Options(
    maxActiveSessions: nat,
    errorBackoff: int,
    maxErrorBackoff: int,
    maxConsecutiveErrors: nat)
  {
    /** The limits that `validate_acceptor_options` lets through. */
    predicate Valid() {
      && maxActiveSessions > 0
      && 0 <= errorBackoff <= maxErrorBackoff
      && maxConsecutiveErrors > 0
    }
  }
}
