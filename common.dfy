/** Small value wrappers shared by the other modules. */
module Common {

  /** A Java reference that may be null. */
  datatype Option<+T> = None | Some(value: T)
  {
    /** The value, or `default` when there is none (Java's `x != null ? x : default`). */
    function GetOr(default: T): T
    {
      if Some? then value else default
    }
  }

  /** The outcome of a Java call that may throw: an exception is modelled by its message. */
  datatype Result<+T> = Ok(value: T) | Err(message: string)
}
