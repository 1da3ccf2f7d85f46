/** Failure-compatible result type shared by the five input-file generators.

    The generator scripts signal an unusable option by raising an exception
    (a bare `Exception`, a `KeyError` from a lookup table, or a
    `ZeroDivisionError`). Here every such exit is an `Err` value, so a caller
    must handle the error path and no partial file can escape.
 */
module Results {

  datatype Option<+T> = None | Some(value: T)

  /** The ways a generator can refuse a job. */
  datatype Error =
      /** an enumerated option carries a value the generator does not handle */
    | UnhandledOption(option: string, value: string)
      /** MOPAC's multiplicity outside 1..6 */
    | UnhandledMultiplicity(multiplicity: int)
      /** a lookup table has no entry for the key */
    | KeyError(key: string)
      /** ORCA divides the memory by a core count of zero */
    | ZeroDivisionError

  datatype Result<+T> = Ok(value: T) | Err(error: Error) {

    predicate IsFailure() {
      Err?
    }

    function PropagateFailure<U>(): Result<U>
      requires Err?
    {
      Err(error)
    }

    function Extract(): T
      requires Ok?
    {
      value
    }
  }
}
