/**
 What a plain save of the publication record can do to a worker that runs alone: succeed, throw, or take the worker
 down.
 */
module SerialRuns {
  import opened Runs
  import opened ProviderOperations

  datatype Write = Done | Thrown(applied: bool) | Crashed(applied: bool)

  datatype Outcome = Proved(post: nat) | NeedsReview | Waiting | Raised | Gone

  /** The stored record after a save of `operation`. */
  function Put(stored: Option<Operation>, operation: Operation, write: Write): Option<Operation> {
    if write.Done? || write.applied then Some(operation) else stored
  }

  /** How a run ends when a save that nothing catches does not succeed. */
  function Ending(write: Write): Outcome
    requires !write.Done?
  {
    if write.Thrown? then Raised else Gone
  }
}
