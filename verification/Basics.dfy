/** Types shared by every part of the model. */
module Basics {

  /** An identifier chosen by a client. Identifiers are only ever compared for
      equality; `BLANK` stands for text that is empty once trimmed. */
  type Name = nat
  const BLANK: Name := 0

  /** An identifier generated by the store. */
  type Uuid = nat

  /** A point in time. */
  type Instant = int

  datatype Option<+T> = None | Some(value: T)

  datatype Result<+T, +E> = Ok(value: T) | Err(error: E) {
    predicate IsFailure() { Err? }

    function PropagateFailure<U>(): Result<U, E>
      requires Err?
    {
      Err(error)
    }

    function Extract(): T
      requires Ok?
    {
      value
    }
  }
}
