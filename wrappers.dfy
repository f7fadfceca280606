/** Failure-carrying results. An `Err` stands for a Python exception that was raised;
    its `message` stands for the exception's text. The texts the validators produce are
    short descriptions of the failed check, not pydantic's own wording. */
module Wrappers {

  datatype Result<+T> = Ok(value: T) | Err(message: string) {

    predicate IsFailure() {
      Err?
    }

    function PropagateFailure<U>(): Result<U>
      requires Err?
    {
      Err(message)
    }

    function Extract(): T
      requires Ok?
    {
      value
    }
  }
}
