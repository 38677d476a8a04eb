/** The Python values the core passes around: JSON-like data (payloads, dashboards,
    HTTP bodies) and the exceptions that escape a call. */
module PyValue {

  import opened Wrappers

  /** A JSON-compatible Python value. Dicts are maps: key order is not observable in the core. */
  datatype Value =
    | Null
    | Bool(b: bool)
    | Int(i: int)
    | Float(f: real)
    | Str(s: string)
    | Arr(items: seq<Value>)
    | Obj(fields: map<string, Value>)

  type Dict = map<string, Value>

  /** An exception raised by the source and not caught where it is raised. */
  datatype PyError =
    | KeyError(key: string)
    | TypeError(message: string)
    | ValueError(message: string)
    | AttributeError(message: string)
    | CollectionNotFound(collection: string)
    | HTTPError(url: string)

  /** Python truthiness of an optional dict (`if metadata:`): `None` and `{}` are false. */
  predicate Truthy(d: Option<Dict>) {
    d.Some? && |d.value| > 0
  }

  /** `type(v).__name__` */
  function TypeName(v: Value): string {
    match v
    case Null => "NoneType"
    case Bool(_) => "bool"
    case Int(_) => "int"
    case Float(_) => "float"
    case Str(_) => "str"
    case Arr(_) => "list"
    case Obj(_) => "dict"
  }
}
