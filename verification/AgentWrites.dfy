/** How an agent treats a failed write (AgentBase). */
module AgentWrites {

  datatype WriteOutcome =
    | Written
    | ShutdownSignal(triggersRecovery: bool)
    | SocketFailure
    | OtherFailure

  /** Whether a shutdown signal raised by a write must stop the agent. */
  predicate ShouldStop(recoveryEnabled: bool, triggersRecovery: bool) {
    if recoveryEnabled then !triggersRecovery else true
  }

  /**
   * The outcome after the agent's exception filter: true when the failure reaches the caller.
   * With recovery on, a lost connection does not, whether a socket failure or a shutdown
   * that recovery will follow tells of it.
   */
  predicate Propagates(recoveryEnabled: bool, outcome: WriteOutcome): (r: bool)
    ensures r <==> outcome.OtherFailure? || outcome == ShutdownSignal(false) || (!recoveryEnabled && !outcome.Written?)
  {
    match outcome
    case Written => false
    case ShutdownSignal(triggers) => ShouldStop(recoveryEnabled, triggers)
    case SocketFailure => !recoveryEnabled
    case OtherFailure => true
  }

  /** The write succeeded, or the connection was lost in a way that recovery takes care of. */
  predicate WrittenOrRecovered(outcome: WriteOutcome) {
    outcome.Written? || outcome.SocketFailure? || outcome == ShutdownSignal(true)
  }
}
