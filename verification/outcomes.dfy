/** Failure-compatible wrappers shared by every module of the model, and the
    Python exceptions the modelled code can raise. */
module Outcomes {

  /** Python's `None` versus a present value. */
  datatype Option<+T> = None | Some(value: T)

  /** The exception classes the workitem and participant code raises,
      distinguished only as far as the code's `except` clauses look at them. */
  datatype PyError =
    | KeyError(key: string)          // a missing dict key
    | TypeError                      // subscript or assignment on a non-dict
    | AttributeError(name: string)   // an attribute the value does not have
    | ValueError                     // json.loads on a malformed body
    | AssertionError                 // a failed `assert` statement
    | RuntimeError(message: string)  // raised explicitly by the participant
    | BrokerError(name: string)      // raised by the AMQP library (I/O, not modelled)

  /** Either a value or the exception that was raised instead. */
  datatype Result<+T> = Ok(value: T) | Err(error: PyError) {

    predicate IsFailure() {
      Err?
    }

    function PropagateFailure<U>(): Result<U>
      requires Err?
    {
      Err(error)
    }

    function Extract(): T
      requires Ok?
    {
      value
    }
  }
}
