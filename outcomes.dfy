/** The ways the modelled Python code can stop: a value, or one of the
    exceptions that Python or NumPy raises on the paths the model follows. */
module Outcomes {

  /** Exceptions raised by the pipeline: `ValueError` (explicit raise, NumPy
      shape mismatches, an empty argument to `np.convolve`), `KeyError` (a
      dictionary lookup), `IndexError` (an index past the end of an array),
      `NameError` (a variable that was never assigned). */
  datatype Exception = ValueError | KeyError | IndexError | NameError

  datatype Result<+T> = Ok(value: T) | Raise(exc: Exception) {
    predicate IsFailure() { Raise? }

    function PropagateFailure<U>(): Result<U>
      requires Raise?
    {
      Raise(exc)
    }

    function Extract(): T
      requires Ok?
    {
      value
    }
  }
}
