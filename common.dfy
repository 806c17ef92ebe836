/** Small value types shared by every module of the model. */
module Common {

  /** A value that may be missing: a dict key that is absent, a call that raised. */
  datatype Option<+T> = None | Some(value: T) {
    function GetOr(default: T): T {
      match this
      case Some(v) => v
      case None => default
    }
  }

  /** The outcome of a call that may raise: `Err` carries the exception's text. */
  datatype Result<+T> = Ok(value: T) | Err(error: string)

  /** A JSON object whose values are all strings: a reasoning step, a request body. */
  type StringMap = map<string, string>

  /** `d.get(key, default)` on such an object. */
  function Get(d: StringMap, key: string, default: string): (r: string)
    ensures key in d ==> r == d[key]
    ensures key !in d ==> r == default
  {
    if key in d then d[key] else default
  }
}
