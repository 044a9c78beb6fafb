/** Values that may be missing, and steps that may throw. */
module Outcome {

  /** An optional field of a JSON response (`undefined` when absent). */
  datatype Option<+T> = None | Some(value: T)

  /** What a step of the action yields: its value, or the message of the error it threw. */
  datatype Result<+T> = Ok(value: T) | Err(message: string) {

    predicate IsFailure() {
      Err?
    }

    function PropagateFailure<U>(): Result<U>
      requires Err?
    {
      Err(message)
    }

    function Extract(): T
      requires Ok?
    {
      value
    }
  }
}
