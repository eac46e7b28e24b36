/** Failure-carrying results, for the error returns of the modelled code. */
module Wrappers {
  datatype Option<+T> = None | Some(value: T) {
    function GetOr(default: T): T {
      if Some? then value else default
    }
  }

  datatype Result<+T> = Success(value: T) | Failure(error: string)
}
