/** The Python values the transaction-state layer handles: the keyword
    arguments it stores and the JSON-like responses it records. */
module Values {
  import opened Wrappers

  datatype Value =
    | Null
    | Bool(b: bool)
    | Int(i: int)
    | Real(r: real)
    | Str(s: string)
    | List(items: seq<Value>)
    | Object(fields: map<string, Value>)

  /** Python truthiness: None, False, 0, 0.0, "", [] and {} are false, everything else true. */
  predicate Truthy(v: Value) {
    match v
    case Null => false
    case Bool(b) => b
    case Int(i) => i != 0
    case Real(r) => r != 0.0
    case Str(s) => s != ""
    case List(items) => items != []
    case Object(fields) => fields != map[]
  }

  /** Python's `x or y`. */
  function Or(x: Value, y: Value): Value {
    if Truthy(x) then x else y
  }

  /** An `Optional[str]` argument as a value: `None` or the string. */
  function FromOptional(o: Option<string>): Value {
    match o
    case None => Null
    case Some(s) => Str(s)
  }

  /** The exceptions the handlers raise. */
  datatype Error =
    | Raised(message: string)       // `raise Exception(message)`
    | AttributeError(name: string)  // use of a method or attribute the object does not have
    | RemoteError(reason: string)   // a failure of the protocol client, propagated unchanged

  /** `v.get(key, default)`: only a dict has `get`; on anything else Python raises AttributeError. */
  function GetOr(v: Value, key: string, default: Value): (r: Result<Value, Error>)
    ensures r.Success? <==> v.Object?
    ensures v.Object? && key in v.fields ==> r.value == v.fields[key]
    ensures v.Object? && key !in v.fields ==> r.value == default
    ensures r.Failure? ==> r.error == AttributeError("get")
  {
    match v
    case Object(fields) => Success(if key in fields then fields[key] else default)
    case _ => Failure(AttributeError("get"))
  }
}
