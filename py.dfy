/** Python values and exceptions, as far as the PingStats model needs them.
    Floats are modelled as reals; a `datetime.datetime` carries the POSIX
    timestamp it was built from. */
module Py {

  datatype Option<T> = None | Some(value: T)

  /** The exceptions the modelled code raises, with their messages where the
      code writes one. */
  datatype Error =
    | TypeError(msg: string)
    | ValueError(msg: string)
    | IndexError(msg: string)
    | AttributeError(msg: string)
    | RuntimeError(msg: string)
    | OSError

  /** A value, or the exception that was raised instead. */
  datatype Result<T> = Ok(value: T) | Err(error: Error)

  /** A statement that completed, or the exception it raised. */
  datatype Outcome = Pass | Fail(error: Error)

  /** A Python object, distinguished by the run-time type the code tests. */
  datatype Value =
    | VNone
    | VInt(i: int)
    | VFloat(f: real)
    | VStr(s: string)
    | VDateTime(stamp: real)

  /** `datetime.datetime.fromtimestamp(v)`: accepts an int or a float, raises
      `TypeError` for anything else (`None`, a string, a datetime). */
  function FromTimestamp(v: Value): (r: Result<real>)
    ensures r.Ok? <==> v.VInt? || v.VFloat?
    ensures r.Err? ==> r.error.TypeError?
    ensures v.VFloat? ==> r == Ok(v.f)
    ensures v.VInt? ==> r == Ok(v.i as real)
  {
    match v
    case VInt(i) => Ok(i as real)
    case VFloat(f) => Ok(f)
    case _ => Err(TypeError("an integer is required"))
  }
}
