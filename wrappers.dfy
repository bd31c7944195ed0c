/** Failure-compatible result type. Every `log.Panic*` of the translator is
    modelled as the `Panic` outcome: translation aborts, no value is produced. */
module Wrappers {

  datatype Result<+T> = Ok(value: T) | Panic {

    predicate IsFailure() {
      Panic?
    }

    function PropagateFailure<U>(): Result<U>
      requires Panic?
    {
      Panic
    }

    function Extract(): T
      requires Ok?
    {
      value
    }
  }

  datatype Option<+T> = None | Some(value: T)
}
