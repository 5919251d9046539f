/** Values as the mapping engine sees them: the loosely typed input it reads,
    the values its fields produce, and the kinds of error it raises. */
module Values {

  datatype Option<+T> = None | Some(value: T)

  datatype Result<+T, +E> = Success(value: T) | Failure(error: E)

  /** A JavaScript value that can reach a field. A value that may be
      `undefined` is an `Option<Value>`, with `None` for `undefined`. */
  datatype Value =
    | Null
    | Bool(b: bool)
    | Num(n: int)
    | Str(s: string)
    /** A `Date` object, by its time value in milliseconds since the epoch. */
    | DateV(time: int)
    | Arr(items: seq<Value>)
    /** A plain object, by its own enumerable properties. */
    | Obj(fields: map<string, Value>)
    /** A DTO instance, by its own enumerable properties; the raw input
        it was built from is the property named `RawKey`. */
    | DTO(props: map<string, Value>)

  /** The error kinds of lib/errors.js, plus the `TypeError` that the host
      raises when a property of `null` is read. */
  datatype Err =
    | MappingError
    | MissingPropertyError(key: string)
    | InvalidPropertyError
    | InvalidArgumentError
    | HostTypeError

  /** The property under which an instance keeps its raw input. */
  const RawKey: string := "__RAW__"

  /** JavaScript truthiness of a possibly undefined value. */
  predicate Truthy(v: Option<Value>)
    ensures Truthy(v) <==>
      v !in {None, Some(Null), Some(Bool(false)), Some(Num(0)), Some(Str(""))}
  {
    match v
    case None => false
    case Some(Null) => false
    case Some(Bool(b)) => b
    case Some(Num(n)) => n != 0
    case Some(Str(s)) => s != ""
    case Some(_) => true
  }

  /** JavaScript's `typeof`. */
  function TypeOf(v: Option<Value>): (t: string)
    ensures t == "undefined" <==> v.None?
    ensures t == "boolean" <==> v.Some? && v.value.Bool?
    ensures t == "number" <==> v.Some? && v.value.Num?
    ensures t == "string" <==> v.Some? && v.value.Str?
  {
    match v
    case None => "undefined"
    case Some(Bool(_)) => "boolean"
    case Some(Num(_)) => "number"
    case Some(Str(_)) => "string"
    case Some(_) => "object"
  }

  /** `data[key]`: the own property `key` of an object or instance, or
      `undefined`; reading a property of `null` raises a `TypeError`. */
  function Lookup(data: Value, key: string): (r: Result<Option<Value>, Err>)
    ensures r.Failure? <==> data.Null?
    ensures r.Failure? ==> r.error == HostTypeError
    ensures r.Success? && r.value.Some? <==>
      (data.Obj? && key in data.fields) || (data.DTO? && key in data.props)
    ensures data.Obj? && key in data.fields ==> r == Success(Some(data.fields[key]))
    ensures data.DTO? && key in data.props ==> r == Success(Some(data.props[key]))
  {
    match data
    case Null => Failure(HostTypeError)
    case Obj(f) => Success(if key in f then Some(f[key]) else None)
    case DTO(p) => Success(if key in p then Some(p[key]) else None)
    case _ => Success(None)
  }
}
