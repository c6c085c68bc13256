/** How a host command, or one step of it, can end. */
module Outcomes {

  datatype Option<+T> = None | Some(value: T)

  /** `Done` is a normal return; the other constructors are the exceptions of release.py and the death of the process.
      - `Blocked`: ReleaseBlocked, a valid durable history forbids the mutation
      - `Defect`: ReleaseDefect, the owned state or an artifact is malformed
      - `Permanent`: PermanentReleaseFailure, the candidate cannot continue
      - `External`: ExternalCommandFailed, one semantic operation failed
      - `Crashed`: the process was killed; nothing after this point runs */
  datatype Outcome<+T> = Done(value: T) | Blocked | Defect | Permanent | External(operation: string) | Crashed {
    predicate IsFailure() {
      !Done?
    }

    function PropagateFailure<U>(): Outcome<U>
      requires !Done?
    {
      match this
      case Blocked => Blocked
      case Defect => Defect
      case Permanent => Permanent
      case External(operation) => External(operation)
      case Crashed => Crashed
    }

    function Extract(): T
      requires Done?
    {
      value
    }
  }
}
