/** Result types shared by the modules below. */
module Wrappers {

  datatype Option<+T> = None | Some(value: T)
  {
    function GetOr(default: T): T {
      match this case Some(v) => v case None => default
    }
  }

  /** How a Go call ends: with a value, with an error, or with a panic. */
  datatype Outcome<+T> = Ok(value: T) | Err(error: string) | Panic(reason: string)
}
