/** Failure-compatible wrappers shared by every module of the model. */
module Prelude {

  datatype Option<+T> = None | Some(value: T) {
    predicate IsFailure() { None? }
    function PropagateFailure<U>(): Option<U>
      requires None?
    { None }
    function Extract(): T
      requires Some?
    { value }
  }

  /** An exception of the source aborts its transaction: it is a `Failure`, and the caller keeps the old state. */
  datatype Result<+T, +E> = Success(value: T) | Failure(error: E) {
    predicate IsFailure() { Failure? }
    function PropagateFailure<U>(): Result<U, E>
      requires Failure?
    { Failure(error) }
    function Extract(): T
      requires Success?
    { value }
  }

  /** A guard of the source: `Pass`, or `Refuse` with the error it raises. */
  datatype Outcome<+E> = Pass | Refuse(error: E) {
    predicate IsFailure() { Refuse? }
    function PropagateFailure<U>(): Result<U, E>
      requires Refuse?
    { Failure(error) }
  }

  function Need<E>(condition: bool, error: E): Outcome<E> {
    if condition then Pass else Refuse(error)
  }

  /** An error or reason code: one the service itself writes, or one a caller reports. */
  datatype Code =
    | Reported(text: string) | JobDeadlineExpired | AttemptsExhausted | AmbiguousOutcome | LeaseExpired
    | InterventionClosed | HighPriorityPreemption

  type Time = int        // microseconds on the UTC time line
  type Document = nat    // an opaque, already validated JSON document
  const EMPTY_DOCUMENT: Document := 0

  lemma {:induction false} TimesAtLeast(k: nat, d: nat)
    requires k >= 1
    ensures k * d >= d
    decreases k
  {
    if k > 1 {
      TimesAtLeast(k - 1, d);
      assert k * d == (k - 1) * d + d;
    }
  }
}
