/** Failure-carrying values used in place of the services' thrown `Error`s.
    An `Err`/`Fail` carries the `message` the TypeScript code would have thrown. */
module Wrappers {

  datatype Option<+T> = None | Some(value: T)

  /** A value, or the message of the error that was thrown instead. */
  datatype Result<+T> = Ok(value: T) | Err(error: string) {
    predicate IsFailure() { Err? }
    function PropagateFailure<U>(): Result<U>
      requires Err?
    {
      Err(error)
    }
    function Extract(): T
      requires Ok?
    {
      value
    }
    /** The same result with its value dropped. */
    function ToOutcome(): Outcome
    {
      if Ok? then Pass else Fail(error)
    }
  }

  /** A `void` operation that either returned or threw `error`. */
  datatype Outcome = Pass | Fail(error: string) {
    predicate IsFailure() { Fail? }
    function PropagateFailure(): Outcome
      requires Fail?
    {
      this
    }
  }

  /** Sequence concatenation regroups freely; stated once so that long traces need not be
      regrouped by the solver on its own. */
  lemma AppendAssoc<T>(a: seq<T>, b: seq<T>, c: seq<T>)
    ensures a + (b + c) == a + b + c
  {
  }
}
