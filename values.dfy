/** Python values as the gateway client sees them: request parameters, payload
    entries and the decoded JSON response of the gateway, together with Python's
    truthiness rule and the exceptions the client raises. */
module PyValues {

  datatype Option<+T> = None | Some(value: T)

  datatype Result<+R, +E> = Success(value: R) | Failure(error: E)

  /** A Python value: `None`, `bool`, `int`, `float`, `str`, `list` or `dict`
      (a dict keeps its entries in insertion order). */
  datatype Value =
    | Null
    | Bool(b: bool)
    | Int(i: int)
    | Float(f: real)
    | Str(s: string)
    | List(items: seq<Value>)
    | Object(fields: seq<(string, Value)>)

  /** Python's truth value: `None`, `False`, zero, the empty string and the
      empty containers are false, everything else is true. */
  predicate Truthy(v: Value) {
    match v
    case Null => false
    case Bool(b) => b
    case Int(i) => i != 0
    case Float(f) => f != 0.0
    case Str(s) => s != ""
    case List(items) => items != []
    case Object(fields) => fields != []
  }

  /** Python's `a or b`: the left operand when it is true, otherwise the right one. */
  function Or(a: Value, b: Value): (r: Value)
    ensures Truthy(a) ==> r == a
    ensures !Truthy(a) ==> r == b
    ensures Truthy(r) <==> Truthy(a) || Truthy(b)
  {
    if Truthy(a) then a else b
  }

  /** An `Optional[str]` argument as a Python value. */
  function OptionalStr(o: Option<string>): Value {
    match o
    case None => Null
    case Some(s) => Str(s)
  }

  /** The exceptions the client can raise. `SmscApiError` is the class that
      smsc_api.py and validators.py import from `exceptions`; main.py declares a
      class of the same name of its own, a different class, `MainSmscApiError`. */
  datatype Exception =
    | SmscApiError(arg: Value)
    | MainSmscApiError(arg: Value)
    | AttributeError(message: string)
}
