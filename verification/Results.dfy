/** Outcomes of operations that can fail or abort. */
module Results {

  /** `Refused` is an error return; `Panicked` a failed `assert`, `expect` or `unwrap`. */
  datatype Result<+T> = Ok(value: T) | Refused | Panicked {
    predicate IsFailure() { !Ok? }

    function PropagateFailure<U>(): Result<U>
      requires IsFailure()
    {
      if Refused? then Refused else Panicked
    }

    function Extract(): T
      requires Ok?
    {
      value
    }
  }
}
