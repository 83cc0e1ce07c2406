/** The errors of the installer, and the faults that befall its system calls. */
module Errors {
  import opened Outcomes

  datatype Error =
    | FileExists      // FileExistsError
    | FileMissing     // FileNotFoundError
    | InputOutput     // any other OSError
    | Conflict        // JournalConflict
    | Corrupt         // JournalCorrupt
    | Insecure        // JournalSecurityError
    | InvalidValue    // ValueError
    | Refused(reason: Reason)

  /** The stable reason codes of the Stage 05 reconciler. */
  datatype Reason =
    | IllegalRecoveryState
    | JournalConflict
    | JournalCorrupt
    | JournalRootConflict
    | MarkerContentMismatch
    | ProductionStatePresent
    | ResourceDesiredMismatch
    | ResourcePriorMismatch
    | RollbackForeignState
    | TypeConflict
    | UnexpectedEntry

  type Outcome<+T> = Result<T, Error>

  /** What befalls one coming system call. */
  datatype Fault = Pass | Fail | Kill

  /** No system call is made to fail; the process may still be killed. */
  predicate Calm(faults: seq<Fault>) {
    Fail !in faults
  }

  /** How an operation consumes its faults: without faults it is never killed, and calm stays calm. */
  predicate Follows<T>(before: seq<Fault>, after: seq<Fault>, outcome: Outcome<T>) {
    && (before == [] ==> after == [] && !outcome.Killed?)
    && (Calm(before) ==> Calm(after))
  }
}
