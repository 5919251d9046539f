/** The field rules of lib/fields.js and the construction of lib/dto.js,
    as pure functions. They live in one module because they are mutually
    recursive: a nested-DTO field builds DTO instances, and building an
    instance applies every field of its mapping. The declaration-time
    factories are in module Fields, the classes in module Dto. */
module Engine {
  import opened Values

  /** The host's `new Date(v)` for a value that is neither null, boolean nor
      a Date: the time value, or `None` for an `Invalid Date`. */
  type DateParser = Value -> Option<int>

  /** A user callback: computes a field's value from the whole raw input;
      `None` stands for a callback that returns `undefined`. */
  type Callback = Value -> Option<Value>

  /** The options object of a field (lib/fields.js:11-19). */
  datatype Options = Options(default: Option<Value>, key: Option<string>, callback: Option<Callback>)

  /** The `{}` a factory stores when it is given no options. */
  const NoOptions: Options := Options(None, None, None)

  /** Which factory produced a field, and so which `fn` rule it applies. */
  datatype FieldKind =
    | GenericField
    | StringField
    | BooleanField
    | NumberField
    | DateField
    | ListField
    | ListWithDtoField(itemClass: DtoClass)
    | ObjectWithDtoField(objectClass: DtoClass)

  /** A field descriptor `{options, fn}`: `fn` is given by the kind. */
  datatype Field = Field(kind: FieldKind, options: Options)

  datatype Entry = Entry(name: string, field: Field)

  /** A mapping object, its properties in `Object.keys` order. */
  datatype Mapping = Mapping(entries: seq<Entry>)

  /** A DTO class: a constructor `(data) => super(data, mapping)`, where
      `mapping` may be missing, and whether `BaseDTO` is among its ancestors. */
  datatype DtoClass = DtoClass(mapping: Option<Mapping>, extendsBase: bool)

  /** The objects that can stand on a prototype chain, as far as the
      `instanceof BaseDTO` checks can tell them apart. */
  datatype Proto = BasePrototype | BaseConstructor | FunctionPrototype | ObjectPrototype

  /** The prototype chain of `C.prototype`, without `C.prototype` itself. */
  function InstanceChain(c: DtoClass): seq<Proto> {
    (if c.extendsBase then [BasePrototype] else []) + [ObjectPrototype]
  }

  /** The prototype chain of the class object `C`, a function. */
  function ClassChain(c: DtoClass): seq<Proto> {
    (if c.extendsBase then [BaseConstructor] else []) + [FunctionPrototype, ObjectPrototype]
  }

  /** `x instanceof BaseDTO` for an object with the given prototype chain. */
  predicate InstanceOfBase(chain: seq<Proto>) {
    BasePrototype in chain
  }

  /** `DTOClass && DTOClass.prototype instanceof BaseDTO`, the check of
      lib/fields.js:190 and lib/fields.js:224. lib/dto.js:88 tests
      `DTOClass instanceof BaseDTO` on the class object instead; see
      `Dto.ListClassCheckAsWritten`. */
  predicate IsDtoClass(c: Option<DtoClass>)
    ensures IsDtoClass(c) <==> c.Some? && c.value.extendsBase
  {
    c.Some? && InstanceOfBase(InstanceChain(c.value))
  }

  /** `options.key || k`: the property read from the input for field `name`. */
  function LookupKey(name: string, options: Options): (key: string)
    ensures options.key.Some? && options.key.value != "" ==> key == options.key.value
    ensures options.key.None? || options.key.value == "" ==> key == name
  {
    if options.key.Some? && options.key.value != "" then options.key.value else name
  }

  /** The value the constructor hands to `fn` (lib/dto.js:33-45): the
      callback's result unless undefined, else `data[key]` unless undefined,
      else the default; still undefined is a missing property. */
  function Resolve(data: Value, name: string, options: Options): Result<Value, Err> {
    var fromCallback := if options.callback.Some? then options.callback.value(data) else None;
    if fromCallback.Some? then Success(fromCallback.value)
    else
      var key := LookupKey(name, options);
      match Lookup(data, key)
      case Failure(e) => Failure(e)
      case Success(fromInput) =>
        var value := if fromInput.Some? then fromInput else options.default;
        if value.None? then Failure(MissingPropertyError(key)) else Success(value.value)
  }

  /** Wraps built property maps as instance values. */
  function Instances(ps: seq<map<string, Value>>): (vs: seq<Value>)
    ensures |vs| == |ps|
    ensures forall i :: 0 <= i < |ps| ==> vs[i] == DTO(ps[i])
  {
    seq(|ps|, i requires 0 <= i < |ps| => DTO(ps[i]))
  }

  /** `fn(v)` of a field of the given kind and options (lib/fields.js). */
  function Apply(parse: DateParser, kind: FieldKind, options: Options, v: Option<Value>): Result<Value, Err>
    decreases kind, 0
  {
    match kind
    case GenericField =>
      if v.None? then Failure(InvalidPropertyError) else Success(v.value)
    case StringField =>
      if v != Some(Null) && TypeOf(v) != "string" then Failure(InvalidPropertyError) else Success(v.value)
    case BooleanField =>
      if v != Some(Null) && TypeOf(v) != "boolean" then Failure(InvalidPropertyError) else Success(v.value)
    case NumberField =>
      if v != Some(Null) && TypeOf(v) != "number" then Failure(InvalidPropertyError) else Success(v.value)
    case DateField =>
      if v == Some(Null) then Success(Null)
      else if v.None? then Failure(InvalidPropertyError)
      else if v.value.Bool? then Failure(InvalidPropertyError)
      else if v.value.DateV? then Success(v.value)
      else (match parse(v.value)
            case None => Failure(InvalidPropertyError)
            case Some(t) => Success(DateV(t)))
    case ListField =>
      if v != Some(Null) && !(v.Some? && v.value.Arr?) then Failure(InvalidPropertyError) else Success(v.value)
    case ListWithDtoField(c) =>
      if v == Some(Null) then Success(Null)
      else if !(v.Some? && v.value.Arr?) then Failure(InvalidPropertyError)
      else (match BuildItems(parse, c, v.value.items)
            case Failure(e) => Failure(e)
            case Success(ps) => Success(Arr(Instances(ps))))
    case ObjectWithDtoField(c) =>
      if v == Some(Null) then Success(Null)
      else if !Truthy(v) && options.default == Some(Null) then Success(Null)
      else if !Truthy(v) && !Truthy(options.default) then Failure(InvalidPropertyError)
      else
        var data := if Truthy(v) then v.value else options.default.value;
        (match Construct(parse, c.mapping, data)
         case Failure(e) => Failure(e)
         case Success(p) => Success(DTO(p)))
  }

  /** `items.map(item => new DTOClass(item))`: fails with the first
      element's error. */
  function BuildItems(parse: DateParser, c: DtoClass, items: seq<Value>): Result<seq<map<string, Value>>, Err>
    decreases c, 2, |items|
  {
    if items == [] then Success([])
    else
      match Construct(parse, c.mapping, items[0])
      case Failure(e) => Failure(e)
      case Success(p) =>
        match BuildItems(parse, c, items[1..])
        case Failure(e) => Failure(e)
        case Success(ps) => Success([p] + ps)
  }

  /** Resolving the value of one entry and applying its rule. */
  function Outcome(parse: DateParser, e: Entry, data: Value): Result<Value, Err>
    decreases e, 0
  {
    match Resolve(data, e.name, e.field.options)
    case Failure(err) => Failure(err)
    case Success(v) => Apply(parse, e.field.kind, e.field.options, Some(v))
  }

  /** The `forEach` over the mapping (lib/dto.js:31-48) from entry `i` on,
      with `acc` the properties assigned so far. */
  function MapFields(parse: DateParser, m: Mapping, data: Value, i: nat, acc: map<string, Value>): Result<map<string, Value>, Err>
    requires i <= |m.entries|
    decreases m, |m.entries| - i
  {
    if i == |m.entries| then Success(acc)
    else
      match Outcome(parse, m.entries[i], data)
      case Failure(e) => Failure(e)
      case Success(v) => MapFields(parse, m, data, i + 1, acc[m.entries[i].name := v])
  }

  /** `new BaseDTO(data, mapping)` (lib/dto.js:24-51): the own properties
      of the instance, or the error it throws. */
  function Construct(parse: DateParser, mapping: Option<Mapping>, data: Value): Result<map<string, Value>, Err>
    decreases mapping, 1
  {
    if mapping.None? || |mapping.value.entries| == 0 then Failure(MappingError)
    else
      match MapFields(parse, mapping.value, data, 0, map[])
      case Failure(e) => Failure(e)
      case Success(p) => Success(p[RawKey := data])
  }

  /** `toJSON()` of an instance (lib/dto.js:58-70): every own property but
      the raw input. */
  function Serialize(props: map<string, Value>): map<string, Value> {
    props - {RawKey}
  }
}
