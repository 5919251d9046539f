/** The field factories of lib/fields.js and what each field's `fn` rule
    (Engine.Apply) promises. */
module Fields {
  import opened Values
  import opened Engine

  /** `options || {}`. */
  function OrEmpty(options: Option<Options>): (o: Options)
    ensures options.Some? ==> o == options.value
    ensures options.None? ==> o.default.None? && o.key.None? && o.callback.None?
  {
    if options.Some? then options.value else NoOptions
  }

  function Generic(options: Option<Options>): (f: Field)
    ensures f.kind == GenericField && f.options == OrEmpty(options)
  {
    Field(GenericField, OrEmpty(options))
  }

  function String(options: Option<Options>): (f: Field)
    ensures f.kind == StringField && f.options == OrEmpty(options)
  {
    Field(StringField, OrEmpty(options))
  }

  function Boolean(options: Option<Options>): (f: Field)
    ensures f.kind == BooleanField && f.options == OrEmpty(options)
  {
    Field(BooleanField, OrEmpty(options))
  }

  function Number(options: Option<Options>): (f: Field)
    ensures f.kind == NumberField && f.options == OrEmpty(options)
  {
    Field(NumberField, OrEmpty(options))
  }

  function Date(options: Option<Options>): (f: Field)
    ensures f.kind == DateField && f.options == OrEmpty(options)
  {
    Field(DateField, OrEmpty(options))
  }

  function List(options: Option<Options>): (f: Field)
    ensures f.kind == ListField && f.options == OrEmpty(options)
  {
    Field(ListField, OrEmpty(options))
  }

  /** `listWithDTO(DTOClass, options)`: the class is checked when the field
      is declared, before any value is seen. */
  function ListWithDTO(itemClass: Option<DtoClass>, options: Option<Options>): (r: Result<Field, Err>)
    ensures r.Failure? <==> !(itemClass.Some? && itemClass.value.extendsBase)
    ensures r.Failure? ==> r.error == InvalidArgumentError
    ensures r.Success? ==> r.value.kind == ListWithDtoField(itemClass.value) && r.value.options == OrEmpty(options)
  {
    if !IsDtoClass(itemClass) then Failure(InvalidArgumentError)
    else Success(Field(ListWithDtoField(itemClass.value), OrEmpty(options)))
  }

  /** `objectWithDTO(DTOClass, options)`, checked like `listWithDTO`. */
  function ObjectWithDTO(objectClass: Option<DtoClass>, options: Option<Options>): (r: Result<Field, Err>)
    ensures r.Failure? <==> !(objectClass.Some? && objectClass.value.extendsBase)
    ensures r.Failure? ==> r.error == InvalidArgumentError
    ensures r.Success? ==> r.value.kind == ObjectWithDtoField(objectClass.value) && r.value.options == OrEmpty(options)
  {
    if !IsDtoClass(objectClass) then Failure(InvalidArgumentError)
    else Success(Field(ObjectWithDtoField(objectClass.value), OrEmpty(options)))
  }

  /** The kinds whose `fn` returns what it accepts unchanged. */
  predicate IsPassThrough(kind: FieldKind) {
    kind.StringField? || kind.BooleanField? || kind.NumberField? || kind.ListField?
  }

  /** The values of the type a pass-through kind checks for. */
  predicate HasKindType(kind: FieldKind, x: Value) {
    match kind
    case StringField => x.Str?
    case BooleanField => x.Bool?
    case NumberField => x.Num?
    case ListField => x.Arr?
    case _ => false
  }

  /** `generic` rejects only `undefined` and returns everything else,
      `null` included, unchanged. */
  lemma GenericRule(parse: DateParser, options: Options, v: Option<Value>)
    ensures v.None? ==> Apply(parse, GenericField, options, v) == Failure(InvalidPropertyError)
    ensures v.Some? ==> Apply(parse, GenericField, options, v) == Success(v.value)
  {
  }

  /** `string`, `boolean`, `number` and `list` accept exactly `null` and the
      values of their type, return them unchanged, and reject everything
      else, `undefined` included, with an InvalidPropertyError. */
  lemma TypedRule(parse: DateParser, kind: FieldKind, options: Options, v: Option<Value>)
    requires IsPassThrough(kind)
    ensures var r := Apply(parse, kind, options, v);
      && (r.Success? <==> v.Some? && (v.value.Null? || HasKindType(kind, v.value)))
      && (r.Success? ==> r.value == v.value)
      && (r.Failure? ==> r.error == InvalidPropertyError)
  {
  }

  /** `date` checks, in this order: null passes, undefined and booleans are
      rejected, a Date passes unchanged, and any other value is parsed. */
  lemma DateRule(parse: DateParser, options: Options, v: Option<Value>)
    ensures var r := Apply(parse, DateField, options, v);
      && (v == Some(Null) ==> r == Success(Null))
      && (v.None? ==> r == Failure(InvalidPropertyError))
      && (v.Some? && v.value.Bool? ==> r == Failure(InvalidPropertyError))
      && (v.Some? && v.value.DateV? ==> r == Success(v.value))
      && (v.Some? && !v.value.Null? && !v.value.Bool? && !v.value.DateV? ==>
            r == (if parse(v.value).Some? then Success(DateV(parse(v.value).value)) else Failure(InvalidPropertyError)))
      && (r.Success? ==> r.value.Null? || r.value.DateV?)
  {
  }

  /** The largest time value a `Date` can hold, in milliseconds. */
  const MaxTime: int := 8_640_000_000_000_000

  /** A host whose `new Date(n)` of a number in range is the time `n`. */
  ghost predicate DatesFromNumbers(parse: DateParser) {
    forall n :: -MaxTime <= n <= MaxTime ==> parse(Num(n)) == Some(n)
  }

  /** `date` accepts numbers (test/test.fields.js:114-116): a number in range
      becomes the Date at that time. */
  lemma DateOfNumber(parse: DateParser, options: Options, n: int)
    requires DatesFromNumbers(parse)
    requires -MaxTime <= n <= MaxTime
    ensures Apply(parse, DateField, options, Some(Num(n))) == Success(DateV(n))
  {
  }

  /** Applying a non-nested field to its own result changes nothing. */
  lemma ApplyIdempotent(parse: DateParser, kind: FieldKind, options: Options, v: Option<Value>)
    requires IsPassThrough(kind) || kind.GenericField? || kind.DateField?
    requires Apply(parse, kind, options, v).Success?
    ensures Apply(parse, kind, options, Some(Apply(parse, kind, options, v).value)) == Apply(parse, kind, options, v)
  {
    if kind.DateField? {
      DateRule(parse, options, v);
    }
  }

  /** `val.map(item => new DTOClass(item))` succeeds exactly when every
      element builds; it then keeps length and order, and otherwise fails
      with the error of the first element that does not build. */
  lemma {:induction false} BuildItemsSpec(parse: DateParser, c: DtoClass, items: seq<Value>)
    ensures var r := BuildItems(parse, c, items);
      && (r.Success? <==> forall i :: 0 <= i < |items| ==> Construct(parse, c.mapping, items[i]).Success?)
      && (r.Success? ==>
            && |r.value| == |items|
            && forall i :: 0 <= i < |items| ==> r.value[i] == Construct(parse, c.mapping, items[i]).value)
      && (r.Failure? ==> exists j :: 0 <= j < |items| && FirstFailure(parse, c, items, j, r.error))
  {
    if items != [] {
      BuildItemsSpec(parse, c, items[1..]);
      var r := BuildItems(parse, c, items);
      forall i | 0 < i < |items|
        ensures items[i] == items[1..][i - 1]
      {
      }
      if Construct(parse, c.mapping, items[0]).Failure? {
        assert FirstFailure(parse, c, items, 0, r.error);
      } else if r.Failure? {
        var j :| 0 <= j < |items[1..]| && FirstFailure(parse, c, items[1..], j, r.error);
        assert FirstFailure(parse, c, items, j + 1, r.error);
      }
    }
  }

  /** Element `j` is the first that fails to build, with error `e`. */
  ghost predicate FirstFailure(parse: DateParser, c: DtoClass, items: seq<Value>, j: nat, e: Err)
    requires j < |items|
  {
    && (forall i :: 0 <= i < j ==> Construct(parse, c.mapping, items[i]).Success?)
    && Construct(parse, c.mapping, items[j]) == Failure(e)
  }

  /** `listWithDTO`'s `fn`: null passes, a non-array is rejected, and an
      array gives one nested instance per element, in order, or the first
      element's error. */
  lemma ListWithDtoRule(parse: DateParser, c: DtoClass, options: Options, v: Option<Value>)
    ensures var r := Apply(parse, ListWithDtoField(c), options, v);
      && (v == Some(Null) ==> r == Success(Null))
      && (!(v.Some? && (v.value.Null? || v.value.Arr?)) ==> r == Failure(InvalidPropertyError))
      && (v.Some? && v.value.Arr? ==>
            var items := v.value.items;
            (r.Success? <==> forall i :: 0 <= i < |items| ==> Construct(parse, c.mapping, items[i]).Success?)
            && (r.Success? ==>
                  && r.value.Arr?
                  && |r.value.items| == |items|
                  && forall i :: 0 <= i < |items| ==> r.value.items[i] == DTO(Construct(parse, c.mapping, items[i]).value))
            && (r.Failure? ==> exists j :: 0 <= j < |items| && FirstFailure(parse, c, items, j, r.error)))
  {
    if v.Some? && v.value.Arr? {
      BuildItemsSpec(parse, c, v.value.items);
    }
  }

  /** `objectWithDTO`'s `fn`: null passes; a falsy value gives null when the
      default is null and an InvalidPropertyError when the default is falsy
      or absent; otherwise the nested instance built from the value, or from
      the default when the value is falsy. */
  lemma ObjectWithDtoRule(parse: DateParser, c: DtoClass, options: Options, v: Option<Value>)
    ensures var r := Apply(parse, ObjectWithDtoField(c), options, v);
      && (v == Some(Null) ==> r == Success(Null))
      && (v != Some(Null) && !Truthy(v) && options.default == Some(Null) ==> r == Success(Null))
      && (v != Some(Null) && !Truthy(v) && options.default != Some(Null) && !Truthy(options.default) ==>
            r == Failure(InvalidPropertyError))
      && (Truthy(v) ==> r == BuildOne(parse, c, v.value))
      && (!Truthy(v) && v != Some(Null) && Truthy(options.default) ==> r == BuildOne(parse, c, options.default.value))
  {
  }

  /** `new DTOClass(data)` as a field value. */
  function BuildOne(parse: DateParser, c: DtoClass, data: Value): (r: Result<Value, Err>)
    ensures r.Success? <==> Construct(parse, c.mapping, data).Success?
    ensures r.Success? ==> r.value == DTO(Construct(parse, c.mapping, data).value)
    ensures r.Failure? ==> r.error == Construct(parse, c.mapping, data).error
  {
    match Construct(parse, c.mapping, data)
    case Failure(e) => Failure(e)
    case Success(p) => Success(DTO(p))
  }

  /** An `undefined` argument is rejected by every rule except
      `objectWithDTO` with a null or truthy default, which give null or the
      instance built from the default (test/test.fields.js:43-47). */
  lemma UndefinedRejected(parse: DateParser, kind: FieldKind, options: Options)
    requires !(kind.ObjectWithDtoField? && options.default == Some(Null))
    requires !(kind.ObjectWithDtoField? && Truthy(options.default))
    ensures Apply(parse, kind, options, None) == Failure(InvalidPropertyError)
  {
  }

  /** `null` passes every rule unchanged (test/test.fields.js:49-53). */
  lemma NullAccepted(parse: DateParser, kind: FieldKind, options: Options)
    ensures Apply(parse, kind, options, Some(Null)) == Success(Null)
  {
  }
}
