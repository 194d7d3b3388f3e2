/** What all reconcilers share: how calls are answered, how a status is patched, and conditions. */
module Shared {
  datatype Option<+T> = None | Some(value: T)

  datatype ErrKind = NotFound | Conflict | BadRequest | Unavailable

  /** Failures that do not depend on what exists; a 404 is only ever the truth. */
  type Fault = k: ErrKind | k != NotFound witness Unavailable

  /** Served: done and answered. Refused: not done. Lost: done, but the caller sees a failure.
      The server may hand out IDs to others before it creates a row; skip says how many. */
  datatype Reply = Served(skip: nat) | Refused(fault: Fault) | Lost(skip: nat, fault: Fault)

  /** The kinds of error that the returned error wraps. */
  datatype Result = Ok | Err(kinds: set<ErrKind>)

  /** A merge patch carries only the fields that the mutation changed in memory. */
  function Merge<T(==)>(stored: T, before: T, after: T): T {
    if before == after then stored else after
  }

  datatype Phase = NoPhase | Creating | Ready | Failed

  datatype Reason = Reconciled | Pending | Erroneous | PermanentError

  datatype Condition = NoCondition | Condition(holds: bool, reason: Reason, generation: nat)
}
