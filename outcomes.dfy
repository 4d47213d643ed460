/** Failures the driver reports, and the result type that carries them. */
module Outcomes {

  /** The exceptions the driver raises, one constructor per distinct cause. */
  datatype Error =
    | Timeout            // a one-byte read returned nothing or a NUL byte
    | Undecodable        // a byte of the reply, decoded on its own as it is read, is not ASCII
    | BadNumber          // int() refused a field of a reply (ValueError)
    | ShortReply         // a reply is too short for a character it indexes (IndexError)
    | NoDevice           // the identification exchange itself failed
    | UnknownModel       // the (vmax, imax) pair is not in the model table
    | UnknownMinVoltage  // the model name has no minimum-voltage entry

  datatype Option<T> = None | Some(value: T)

  datatype Result<T> = Ok(value: T) | Err(error: Error) {
    predicate IsFailure() { Err? }

    function PropagateFailure<U>(): Result<U>
      requires Err?
    {
      Err(error)
    }

    function Extract(): T
      requires Ok?
    {
      value
    }
  }
}
