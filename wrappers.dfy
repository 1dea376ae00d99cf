/** Option and Result, the model's stand-ins for Python's `None` returns and raised exceptions. */
module Wrappers {

  datatype Option<+T> = None | Some(value: T) {
    function GetOr(default: T): T {
      match this
      case Some(v) => v
      case None => default
    }
  }

  /** Why an operation raised instead of returning. */
  datatype Error =
    | AttributeMissing(attribute: string)   // getattr on a name the object does not have
    | NoneGroupUnit(field: string)          // a registry field holding None, read as `.value`
    | ZeroDivision                          // Python float division by 0.0
    | KeyMissing(key: string)               // dict subscript of an absent key
    | ValueError(argument: string)          // a library call rejecting the value of the named argument
    | LinAlgError                           // numpy.linalg failing to converge on non-finite input

  datatype Result<+R> = Success(value: R) | Failure(error: Error)
}
