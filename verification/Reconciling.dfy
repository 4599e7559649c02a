/** What both controllers share. */
module Reconciling {
  /** How one Reconcile ends: requeue, requeue after some seconds, an error (which the work queue
      retries), or nothing further to do. */
  datatype Outcome = Again | After(seconds: nat) | Erred | Done

  /** What reading an object yields. */
  datatype Answer<+T> = Found(value: T) | NotFound | Failure
}
