/** The Python values the handler moves around: the attribute values of a
    stored record, of a request body and of a parsed provider response, and
    the exceptions an operation can raise. */
module PyValues {
  import opened Text

  datatype Option<+T> = None | Some(value: T) {
    function GetOr(default: T): T {
      match this
      case Some(v) => v
      case None => default
    }
  }

  /** A value held under a key of a Python dict. `Other` stands for every
      value the handler only renders or tests for truth (a float, a bool, a
      list, a nested dict): it is given by its `str()` and its truthiness. */
  datatype Value = Null | Int(i: int) | Str(s: string) | Other(shown: string, truthy: bool)

  /** A Python dict with string keys: a stored record, a request body or an
      event. A key that is absent differs from a key that holds `None`. */
  type Item = map<string, Value>

  /** `d.get(k)`. */
  function Get(d: Item, k: string): Value {
    if k in d then d[k] else Null
  }

  /** `d.get(k, default)`. */
  function GetDefault(d: Item, k: string, default: Value): Value {
    if k in d then d[k] else default
  }

  /** `bool(v)`. */
  predicate Truthy(v: Value) {
    match v
    case Null => false
    case Int(i) => i != 0
    case Str(s) => s != ""
    case Other(_, t) => t
  }

  /** `str(v)`, which is also what an f-string interpolates. */
  function Show(v: Value): string {
    match v
    case Null => "None"
    case Int(i) => IntToString(i)
    case Str(s) => s
    case Other(shown, _) => shown
  }

  /** The exceptions an operation can raise: a missing dict key, an undefined
      name, or any other failure of the SDK or a library, by its message. */
  datatype Exc = KeyError(key: string) | NameError(name: string) | Failure(message: string)

  /** `str(e)`. */
  function ExcText(e: Exc): string {
    match e
    case KeyError(k) => "'" + k + "'"
    case NameError(n) => "name '" + n + "' is not defined"
    case Failure(m) => m
  }

  /** A call that either returns a value or raises. */
  datatype Outcome<+T> = Returned(value: T) | Raised(error: Exc)
}

/** What `create_response` returns, without the fixed CORS headers: a status
    code and the dict that becomes the JSON body. */
module Responses {
  import opened PyValues

  datatype Body =
    | Message(message: string)
    | OtpSent(message: string, debugOtp: string)
    | PollStatus(status: string)
    | Scraped(result: Value)

  datatype Response = Response(status: int, body: Body)
}
