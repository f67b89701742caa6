/** Results of operations that the C++ code may leave by an exception or by undefined behaviour. */
module Outcomes {

  datatype Option<+T> = None | Some(value: T)

  /** How an operation of the source can end other than by returning.
      OutOfBounds: a read or write outside the memory it was given.
      Exception:   a C++ exception (`vector::at`, `unordered_map::at`, `string::assign`).
      Undefined:   any other undefined behaviour, or a loop that never ends.
      Endless:     a recursion over formats that never ends. */
  datatype Fault = OutOfBounds | Exception | Undefined | Endless

  datatype Result<+T> = Ok(value: T) | Err(fault: Fault) {
    predicate IsFailure() { Err? }

    function PropagateFailure<U>(): Result<U>
      requires Err?
    {
      Err(fault)
    }

    function Extract(): T
      requires Ok?
    {
      value
    }
  }
}
