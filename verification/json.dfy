/** Values decoded from JSON as the agent sees them: Python's `None`, the
    presence or absence of a key in a dictionary, and the two lookup forms
    the agent uses, `d.get(k, default)` and `d[k]`. */
module Json {

  /** A Python value that may be `None`. */
  datatype Option<+T> = None | Some(value: T)

  /** The outcome of an operation that either returns or raises. */
  datatype Result<+T, +E> = Ok(value: T) | Err(error: E)

  /** How one key of a decoded JSON object stands: absent, present with a
      JSON `null`, or present with a value. */
  datatype Entry<+T> = Missing | Null | Present(value: T)

  /** `d.get(k)`: `None` both when the key is absent and when it holds `null`. */
  function Get<T>(e: Entry<T>): (r: Option<T>)
    ensures r.Some? <==> e.Present?
    ensures r.Some? ==> r.value == e.value
  {
    match e
    case Present(v) => Some(v)
    case _ => None
  }

  /** `d.get(k, default)`: the default replaces only an ABSENT key; a key
      holding `null` still yields `None`. */
  function GetOr<T>(e: Entry<T>, default: T): (r: Option<T>)
    ensures !e.Missing? ==> r == Get(e)
    ensures e.Missing? ==> r == Some(default)
    ensures r.None? <==> e.Null?
  {
    match e
    case Missing => Some(default)
    case Null => None
    case Present(v) => Some(v)
  }

  /** `d[k]`: raises `KeyError(k)` when the key is absent; a `null` value is
      returned as `None`. */
  function Subscript<T>(e: Entry<T>, key: string): (r: Result<Option<T>, string>)
    ensures r.Err? <==> e.Missing?
    ensures r.Err? ==> r.error == key
    ensures r.Ok? ==> r.value == Get(e)
  {
    match e
    case Missing => Err(key)
    case Null => Ok(None)
    case Present(v) => Ok(Some(v))
  }
}
