/** The DTO classes of lib/dto.js: what building an instance promises, the
    imperative constructors proved against Engine.Construct, serialisation,
    and the list class with its array helpers. */
module Dto {
  import opened Values
  import opened Engine
  import Fields

  /** The names a mapping declares. */
  function Names(m: Mapping): set<string> {
    set j | 0 <= j < |m.entries| :: m.entries[j].name
  }

  /** The names of entries `i..`. */
  function NamesFrom(m: Mapping, i: nat): set<string> {
    set j | i <= j < |m.entries| :: m.entries[j].name
  }

  /** Like the keys of an object, the names of a mapping are distinct. */
  predicate DistinctNames(m: Mapping) {
    forall j, k :: 0 <= j < k < |m.entries| ==> m.entries[j].name != m.entries[k].name
  }

  /** Entry `j` is the first entry from `i` on whose value cannot be
      resolved or checked, and it fails with `e`. */
  ghost predicate FirstFieldFailure(parse: DateParser, m: Mapping, data: Value, i: nat, j: nat, e: Err)
    requires j < |m.entries|
  {
    && (forall k :: i <= k < j ==> Outcome(parse, m.entries[k], data).Success?)
    && Outcome(parse, m.entries[j], data) == Failure(e)
  }

  /** The fold over entries `i..` succeeds exactly when each of them does. */
  lemma {:induction false} MapFieldsSucceeds(parse: DateParser, m: Mapping, data: Value, i: nat, acc: map<string, Value>)
    requires i <= |m.entries|
    ensures MapFields(parse, m, data, i, acc).Success? <==>
      forall j :: i <= j < |m.entries| ==> Outcome(parse, m.entries[j], data).Success?
    decreases |m.entries| - i
  {
    if i < |m.entries| {
      var o := Outcome(parse, m.entries[i], data);
      if o.Success? {
        MapFieldsSucceeds(parse, m, data, i + 1, acc[m.entries[i].name := o.value]);
      }
    }
  }

  /** A successful fold adds exactly the names of entries `i..` to `acc`. */
  lemma {:induction false} MapFieldsKeys(parse: DateParser, m: Mapping, data: Value, i: nat, acc: map<string, Value>)
    requires i <= |m.entries|
    requires MapFields(parse, m, data, i, acc).Success?
    ensures MapFields(parse, m, data, i, acc).value.Keys == acc.Keys + NamesFrom(m, i)
    decreases |m.entries| - i
  {
    if i < |m.entries| {
      var e := m.entries[i];
      var o := Outcome(parse, e, data);
      MapFieldsKeys(parse, m, data, i + 1, acc[e.name := o.value]);
      assert NamesFrom(m, i) == {e.name} + NamesFrom(m, i + 1);
    }
  }

  /** With distinct names, a successful fold gives each name of entries
      `i..` its entry's outcome and keeps every other property of `acc`. */
  lemma {:induction false} MapFieldsValues(parse: DateParser, m: Mapping, data: Value, i: nat, acc: map<string, Value>)
    requires i <= |m.entries|
    requires DistinctNames(m)
    requires MapFields(parse, m, data, i, acc).Success?
    ensures var p := MapFields(parse, m, data, i, acc).value;
      && (forall j :: i <= j < |m.entries| ==>
            Outcome(parse, m.entries[j], data).Success? && m.entries[j].name in p &&
            p[m.entries[j].name] == Outcome(parse, m.entries[j], data).value)
      && (forall k :: k in acc && k !in NamesFrom(m, i) ==> k in p && p[k] == acc[k])
    decreases |m.entries| - i
  {
    if i < |m.entries| {
      var e := m.entries[i];
      var o := Outcome(parse, e, data);
      MapFieldsValues(parse, m, data, i + 1, acc[e.name := o.value]);
      assert NamesFrom(m, i) == {e.name} + NamesFrom(m, i + 1);
      assert e.name !in NamesFrom(m, i + 1);
    }
  }

  /** A failing fold fails with the error of its first failing entry. */
  lemma {:induction false} MapFieldsFailsFirst(parse: DateParser, m: Mapping, data: Value, i: nat, acc: map<string, Value>)
    requires i <= |m.entries|
    requires MapFields(parse, m, data, i, acc).Failure?
    ensures exists j ::
      i <= j < |m.entries| && FirstFieldFailure(parse, m, data, i, j, MapFields(parse, m, data, i, acc).error)
    decreases |m.entries| - i
  {
    var err := MapFields(parse, m, data, i, acc).error;
    var o := Outcome(parse, m.entries[i], data);
    if o.Success? {
      MapFieldsFailsFirst(parse, m, data, i + 1, acc[m.entries[i].name := o.value]);
      var j :| i + 1 <= j < |m.entries| && FirstFieldFailure(parse, m, data, i + 1, j, err);
      assert FirstFieldFailure(parse, m, data, i, j, err);
    } else {
      assert FirstFieldFailure(parse, m, data, i, i, err);
    }
  }

  /** `new BaseDTO(data, mapping)`: a missing or empty mapping throws a
      MappingError before any field is looked at; otherwise the instance is
      built exactly when every field resolves and checks, its own properties
      are the declared names plus `__RAW__`, which holds the input
      unchanged, and each name holds its field's `fn` applied to the
      resolved value; else the first failing field decides the error. */
  lemma ConstructSpec(parse: DateParser, mapping: Option<Mapping>, data: Value)
    ensures mapping.None? || mapping.value.entries == [] ==> Construct(parse, mapping, data) == Failure(MappingError)
    ensures mapping.Some? && mapping.value.entries != [] ==>
      var m, r := mapping.value, Construct(parse, mapping, data);
      && (r.Success? <==> forall j :: 0 <= j < |m.entries| ==> Outcome(parse, m.entries[j], data).Success?)
      && (r.Success? ==> r.value.Keys == Names(m) + {RawKey} && r.value[RawKey] == data)
      && (r.Success? && DistinctNames(m) ==> forall j :: 0 <= j < |m.entries| && m.entries[j].name != RawKey ==>
            r.value[m.entries[j].name] == Outcome(parse, m.entries[j], data).value)
      && (r.Failure? ==> exists j :: 0 <= j < |m.entries| && FirstFieldFailure(parse, m, data, 0, j, r.error))
  {
    if mapping.Some? && mapping.value.entries != [] {
      var m := mapping.value;
      MapFieldsSucceeds(parse, m, data, 0, map[]);
      if MapFields(parse, m, data, 0, map[]).Success? {
        ConstructBuilt(parse, m, data);
      } else {
        MapFieldsFailsFirst(parse, m, data, 0, map[]);
      }
    }
  }

  /** The properties of an instance whose fields all succeeded. */
  lemma ConstructBuilt(parse: DateParser, m: Mapping, data: Value)
    requires m.entries != []
    requires MapFields(parse, m, data, 0, map[]).Success?
    ensures var r := Construct(parse, Some(m), data);
      && r == Success(MapFields(parse, m, data, 0, map[]).value[RawKey := data])
      && r.value.Keys == Names(m) + {RawKey}
      && r.value[RawKey] == data
      && (DistinctNames(m) ==> forall j :: 0 <= j < |m.entries| && m.entries[j].name != RawKey ==>
            Outcome(parse, m.entries[j], data).Success? &&
            r.value[m.entries[j].name] == Outcome(parse, m.entries[j], data).value)
  {
    MapFieldsSucceeds(parse, m, data, 0, map[]);
    MapFieldsKeys(parse, m, data, 0, map[]);
    if DistinctNames(m) {
      MapFieldsValues(parse, m, data, 0, map[]);
    }
    assert NamesFrom(m, 0) == Names(m);
  }

  /** `toJSON()` of a built instance has exactly the declared names other
      than `__RAW__`, with the values the fields produced: input properties
      the mapping does not declare never appear. */
  lemma SerializeConstructed(parse: DateParser, m: Mapping, data: Value)
    requires DistinctNames(m)
    requires Construct(parse, Some(m), data).Success?
    ensures var json := Serialize(Construct(parse, Some(m), data).value);
      && json.Keys == Names(m) - {RawKey}
      && forall j :: 0 <= j < |m.entries| && m.entries[j].name != RawKey ==>
           Outcome(parse, m.entries[j], data).Success? &&
           json[m.entries[j].name] == Outcome(parse, m.entries[j], data).value
  {
    ConstructSpec(parse, Some(m), data);
  }

  /** The first of the candidates that is not `undefined`. */
  function FirstDefined(candidates: seq<Option<Value>>): (r: Option<Value>)
    ensures r.Some? <==> exists i :: 0 <= i < |candidates| && candidates[i].Some?
    ensures r.Some? ==> exists i :: 0 <= i < |candidates| && candidates[i] == r &&
                          forall k :: 0 <= k < i ==> candidates[k].None?
  {
    if candidates == [] then None
    else if candidates[0].Some? then candidates[0]
    else
      var r := FirstDefined(candidates[1..]);
      assert forall i :: 0 < i < |candidates| ==> candidates[i] == candidates[1..][i - 1];
      r
  }

  /** Value resolution in the constructor is "first defined of callback
      result, `data[key]`, default"; an undefined result is a
      MissingPropertyError naming the lookup key, not the field name. */
  lemma ResolvePrecedence(data: Value, name: string, options: Options)
    ensures !data.Null? ==>
      var fromCallback := if options.callback.Some? then options.callback.value(data) else None;
      var key := LookupKey(name, options);
      var fromInput := Lookup(data, key).value;
      match FirstDefined([fromCallback, fromInput, options.default])
      case Some(v) => Resolve(data, name, options) == Success(v)
      case None => Resolve(data, name, options) == Failure(MissingPropertyError(key))
    ensures data.Null? ==>
      var fromCallback := if options.callback.Some? then options.callback.value(data) else None;
      Resolve(data, name, options) == (if fromCallback.Some? then Success(fromCallback.value) else Failure(HostTypeError))
  {
    if data.Null? {
      return;
    }
    var fromCallback := if options.callback.Some? then options.callback.value(data) else None;
    var key := LookupKey(name, options);
    var cands := [fromCallback, Lookup(data, key).value, options.default];
    assert cands[0] == fromCallback && cands[1] == Lookup(data, key).value && cands[2] == options.default;
    assert cands[1..] == [Lookup(data, key).value, options.default];
    assert cands[1..][1..] == [options.default];
  }

  /** With `key` set, only `data[key]` is read: the property named like the
      field is ignored (test/test.dto.base.js:63-69). */
  lemma KeyedFieldIgnoresName(data: map<string, Value>, name: string, options: Options, x: Value)
    requires options.callback.None? && options.key.Some? && options.key.value != "" && options.key.value != name
    ensures Resolve(Obj(data[name := x]), name, options) == Resolve(Obj(data), name, options)
    ensures Resolve(Obj(data[options.key.value := x]), name, options) == Success(x)
  {
  }

  /** A null default counts as present (test/test.dto.base.js:63-69). */
  lemma NullDefaultIsPresent(data: map<string, Value>, name: string, options: Options)
    requires options.callback.None? && options.default == Some(Null)
    requires LookupKey(name, options) !in data
    ensures Resolve(Obj(data), name, options) == Success(Null)
  {
  }

  /** The fold depends on the input only through the entries' outcomes. */
  lemma {:induction false} MapFieldsCongruent(parse: DateParser, m: Mapping, d1: Value, d2: Value, i: nat, acc: map<string, Value>)
    requires i <= |m.entries|
    requires forall j :: i <= j < |m.entries| ==> Outcome(parse, m.entries[j], d1) == Outcome(parse, m.entries[j], d2)
    ensures MapFields(parse, m, d1, i, acc) == MapFields(parse, m, d2, i, acc)
    decreases |m.entries| - i
  {
    if i < |m.entries| {
      var o := Outcome(parse, m.entries[i], d1);
      if o.Success? {
        MapFieldsCongruent(parse, m, d1, d2, i + 1, acc[m.entries[i].name := o.value]);
      }
    }
  }

  /** A mapping of flat fields read under their own names, with no
      callback and no field named `__RAW__`. Nested-DTO fields are left
      out: `Serialize` is shallow, so a nested instance would keep its own
      `__RAW__`. */
  predicate PlainMapping(m: Mapping) {
    && DistinctNames(m)
    && forall j :: 0 <= j < |m.entries| ==>
         var f := m.entries[j].field;
         && (Fields.IsPassThrough(f.kind) || f.kind.GenericField? || f.kind.DateField?)
         && f.options.callback.None?
         && LookupKey(m.entries[j].name, f.options) == m.entries[j].name
         && m.entries[j].name != RawKey
  }

  /** Each flat field yields, from the serialised instance, what it
      yielded from the original input. */
  lemma RebuildOutcome(parse: DateParser, m: Mapping, data: Value, json: map<string, Value>, j: nat)
    requires PlainMapping(m)
    requires j < |m.entries|
    requires Outcome(parse, m.entries[j], data).Success?
    requires m.entries[j].name in json && json[m.entries[j].name] == Outcome(parse, m.entries[j], data).value
    ensures Outcome(parse, m.entries[j], Obj(json)) == Outcome(parse, m.entries[j], data)
  {
    var e := m.entries[j];
    var v0 := Resolve(data, e.name, e.field.options).value;
    assert Resolve(Obj(json), e.name, e.field.options) == Success(json[e.name]);
    Fields.ApplyIdempotent(parse, e.field.kind, e.field.options, Some(v0));
  }

  /** Building again from the serialised instance gives the same
      serialisation. */
  lemma RebuildFromJson(parse: DateParser, m: Mapping, data: Value)
    requires PlainMapping(m)
    requires Construct(parse, Some(m), data).Success?
    ensures var json := Serialize(Construct(parse, Some(m), data).value);
      && Construct(parse, Some(m), Obj(json)).Success?
      && Serialize(Construct(parse, Some(m), Obj(json)).value) == json
  {
    var json := Serialize(Construct(parse, Some(m), data).value);
    SerializeConstructed(parse, m, data);
    forall j | 0 <= j < |m.entries|
      ensures Outcome(parse, m.entries[j], Obj(json)) == Outcome(parse, m.entries[j], data)
    {
      RebuildOutcome(parse, m, data, json, j);
    }
    MapFieldsCongruent(parse, m, Obj(json), data, 0, map[]);
    var q := MapFields(parse, m, data, 0, map[]).value;
    assert Serialize(q[RawKey := Obj(json)]) == Serialize(q[RawKey := data]);
  }

  /** The check of lib/dto.js:88 AS WRITTEN: `DTOClass instanceof BaseDTO`
      asks whether the class object itself is an instance, which no class
      is; lib/fields.js:190 asks the same of `DTOClass.prototype`. */
  predicate ListClassCheckAsWritten(c: Option<DtoClass>) {
    c.Some? && InstanceOfBase(ClassChain(c.value))
  }

  /** `new BaseListDTO(data, DTOClass)` with the check as written. */
  function ConstructListAsWritten(parse: DateParser, data: Value, c: Option<DtoClass>): Result<seq<map<string, Value>>, Err> {
    if !ListClassCheckAsWritten(c) then Failure(InvalidArgumentError)
    else if !data.Arr? then Failure(InvalidPropertyError)
    else BuildItems(parse, c.value, data.items)
  }

  /** As written, every list construction throws InvalidArgumentError, even
      for a subclass of BaseDTO and an empty array, which
      test/test.dto.list.js:51-53 expects to succeed. */
  lemma ListCheckAsWrittenRejectsSubclass(parse: DateParser, m: Mapping, data: Value)
    ensures ConstructListAsWritten(parse, data, Some(DtoClass(Some(m), true))) == Failure(InvalidArgumentError)
    ensures IsDtoClass(Some(DtoClass(Some(m), true)))
    ensures ConstructList(parse, Arr([]), Some(DtoClass(Some(m), true))) == Success([])
  {
    assert ClassChain(DtoClass(Some(m), true)) == [BaseConstructor, FunctionPrototype, ObjectPrototype];
  }

  /** As written, the check of lib/dto.js:88 holds for no class at all, so
      every list construction throws InvalidArgumentError. */
  lemma ListCheckAsWrittenNeverHolds(parse: DateParser, data: Value, c: Option<DtoClass>)
    ensures !ListClassCheckAsWritten(c)
    ensures ConstructListAsWritten(parse, data, c) == Failure(InvalidArgumentError)
  {
    if c.Some? {
      assert BasePrototype !in ClassChain(c.value);
    }
  }

  /** `new BaseListDTO(data, DTOClass)` (lib/dto.js:86-101) with the class
      check of lib/fields.js:190: the item properties, or the error. */
  function ConstructList(parse: DateParser, data: Value, c: Option<DtoClass>): Result<seq<map<string, Value>>, Err> {
    if !IsDtoClass(c) then Failure(InvalidArgumentError)
    else if !data.Arr? then Failure(InvalidPropertyError)
    else BuildItems(parse, c.value, data.items)
  }

  /** An invalid class is an InvalidArgumentError and non-array data an
      InvalidPropertyError; otherwise one instance per element, in order,
      or the first element's error. */
  lemma ConstructListSpec(parse: DateParser, data: Value, c: Option<DtoClass>)
    ensures var r := ConstructList(parse, data, c);
      && (!IsDtoClass(c) ==> r == Failure(InvalidArgumentError))
      && (IsDtoClass(c) && !data.Arr? ==> r == Failure(InvalidPropertyError))
      && (IsDtoClass(c) && data.Arr? ==>
            var items := data.items;
            && (r.Success? <==> forall i :: 0 <= i < |items| ==> Construct(parse, c.value.mapping, items[i]).Success?)
            && (r.Success? ==>
                  && |r.value| == |items|
                  && forall i :: 0 <= i < |items| ==> r.value[i] == Construct(parse, c.value.mapping, items[i]).value)
            && (r.Failure? ==> exists j :: 0 <= j < |items| && Fields.FirstFailure(parse, c.value, items, j, r.error)))
  {
    if IsDtoClass(c) && data.Arr? {
      Fields.BuildItemsSpec(parse, c.value, data.items);
    }
  }

  /** `Array.prototype.slice`'s clamping of a relative index. */
  function SliceBound(x: Option<int>, len: nat, absent: nat): (b: nat)
    requires absent <= len
    ensures b <= len
    ensures x.None? ==> b == absent
    ensures x.Some? && 0 <= x.value <= len ==> b == x.value
    ensures x.Some? && x.value > len ==> b == len
    ensures x.Some? && x.value < 0 && x.value + len >= 0 ==> b == x.value + len
    ensures x.Some? && x.value + len < 0 ==> b == 0
  {
    if x.None? then absent
    else if x.value < 0 then (if len + x.value < 0 then 0 else len + x.value)
    else if x.value > len then len
    else x.value
  }

  /** `s.slice(start, end)`. */
  function SliceOf<T>(s: seq<T>, start: Option<int>, end: Option<int>): (r: seq<T>)
    ensures var b, e := SliceBound(start, |s|, 0), SliceBound(end, |s|, |s|);
      && |r| == (if b < e then e - b else 0)
      && forall i :: 0 <= i < |r| ==> r[i] == s[b + i]
  {
    var b, e := SliceBound(start, |s|, 0), SliceBound(end, |s|, |s|);
    if b < e then s[b..e] else []
  }

  /** `slice()` copies the whole list and `slice(-1)` keeps its last item. */
  lemma SliceExamples<T>(s: seq<T>)
    ensures SliceOf(s, None, None) == s
    ensures |s| > 0 ==> SliceOf(s, Some(-1), None) == [s[|s| - 1]]
  {
    if |s| > 0 {
      var r := SliceOf(s, Some(-1), None);
      assert |r| == 1 && r[0] == s[|s| - 1];
    }
  }

  /** A DTO instance, by its own enumerable properties. */
  class BaseDTO {
    var props: map<string, Value>

    constructor ()
      ensures props == map[]
    {
      props := map[];
    }

    /** `new BaseDTO(data, mapping)`: a fresh instance assigned field by
        field in declaration order, or the first error. */
    static method Create(parse: DateParser, data: Value, mapping: Option<Mapping>) returns (r: Result<BaseDTO, Err>)
      ensures r.Success? <==> Construct(parse, mapping, data).Success?
      ensures r.Success? ==> fresh(r.value) && r.value.props == Construct(parse, mapping, data).value
      ensures r.Failure? ==> r.error == Construct(parse, mapping, data).error
    {
      if mapping.None? || |mapping.value.entries| == 0 {
        return Failure(MappingError);
      }
      var m := mapping.value;
      var self := new BaseDTO();
      var i := 0;
      while i < |m.entries|
        invariant 0 <= i <= |m.entries|
        invariant fresh(self)
        invariant MapFields(parse, m, data, 0, map[]) == MapFields(parse, m, data, i, self.props)
      {
        var name := m.entries[i].name;
        var options := m.entries[i].field.options;
        var key := LookupKey(name, options);
        var value: Option<Value> := None;
        if options.callback.Some? {
          value := options.callback.value(data);
        }
        if value.None? {
          var got := Lookup(data, key);
          if got.Failure? {
            return Failure(got.error);
          }
          value := if got.value.Some? then got.value else options.default;
        }
        if value.None? {
          return Failure(MissingPropertyError(key));
        }
        assert Resolve(data, name, options) == Success(value.value);
        var checked := Apply(parse, m.entries[i].field.kind, options, value);
        assert Outcome(parse, m.entries[i], data) == checked;
        if checked.Failure? {
          return Failure(checked.error);
        }
        self.props := self.props[name := checked.value];
        i := i + 1;
      }
      self.props := self.props[RawKey := data];
      r := Success(self);
    }

    /** `toJSON()`: copies every own property except `__RAW__`. */
    method ToJSON() returns (values: map<string, Value>)
      ensures values.Keys == props.Keys - {RawKey}
      ensures forall k :: k in values ==> values[k] == props[k]
      ensures values == Serialize(props)
    {
      values := map[];
      var todo := props.Keys;
      while todo != {}
        invariant todo <= props.Keys
        invariant values.Keys == (props.Keys - todo) - {RawKey}
        invariant forall k :: k in values ==> values[k] == props[k]
        decreases todo
      {
        var k :| k in todo;
        if k != RawKey {
          values := values[k := props[k]];
        }
        todo := todo - {k};
      }
    }
  }

  /** A list of DTO instances with the raw array it was built from. */
  class BaseListDTO {
    var items: seq<BaseDTO>
    var raw: Value

    constructor (raw: Value)
      ensures items == [] && this.raw == raw
    {
      items := [];
      this.raw := raw;
    }

    /** The own properties of the items, in order. */
    ghost function ItemProps(): seq<map<string, Value>>
      reads this, items
    {
      seq(|items|, i reads this, items requires 0 <= i < |items| => items[i].props)
    }

    /** `new BaseListDTO(data, DTOClass)`: a fresh list of fresh instances,
        one per element and in order, or the first error. */
    static method Create(parse: DateParser, data: Value, c: Option<DtoClass>) returns (r: Result<BaseListDTO, Err>)
      ensures r.Success? <==> ConstructList(parse, data, c).Success?
      ensures r.Success? ==> fresh(r.value) && r.value.raw == data && r.value.ItemProps() == ConstructList(parse, data, c).value
      ensures r.Success? ==> forall i :: 0 <= i < |r.value.items| ==> fresh(r.value.items[i])
      ensures r.Success? ==> forall i, j :: 0 <= i < j < |r.value.items| ==> r.value.items[i] != r.value.items[j]
      ensures r.Failure? ==> r.error == ConstructList(parse, data, c).error
    {
      if !IsDtoClass(c) {
        return Failure(InvalidArgumentError);
      }
      if !data.Arr? {
        return Failure(InvalidPropertyError);
      }
      ConstructListSpec(parse, data, c);
      var xs := data.items;
      var mapping := c.value.mapping;
      var built: seq<BaseDTO> := [];
      var i := 0;
      while i < |xs|
        invariant 0 <= i <= |xs|
        invariant |built| == i
        invariant forall j :: 0 <= j < i ==> Construct(parse, mapping, xs[j]).Success?
        invariant forall j :: 0 <= j < i ==> built[j].props == Construct(parse, mapping, xs[j]).value
        invariant forall j :: 0 <= j < i ==> fresh(built[j])
        invariant forall j, k :: 0 <= j < k < i ==> built[j] != built[k]
      {
        var item := BaseDTO.Create(parse, xs[i], mapping);
        if item.Failure? {
          ghost var e := ConstructList(parse, data, c).error;
          ghost var j :| 0 <= j < |xs| && Fields.FirstFailure(parse, c.value, xs, j, e);
          assert j == i;
          return Failure(item.error);
        }
        built := built + [item.value];
        i := i + 1;
      }
      var list := new BaseListDTO(data);
      list.items := built;
      r := Success(list);
    }

    /** `toJSON()` and `[Symbol.iterator]()` both hand out the items. */
    method ToJSON() returns (result: seq<BaseDTO>)
      ensures result == items
    {
      result := items;
    }

    /** `map(f)`: `f` sees each item's properties and index, in order. */
    method Map<U>(f: (map<string, Value>, nat) -> U) returns (result: seq<U>)
      ensures |result| == |items|
      ensures forall i :: 0 <= i < |items| ==> result[i] == f(items[i].props, i)
    {
      result := [];
      var i := 0;
      while i < |items|
        invariant 0 <= i <= |items|
        invariant |result| == i
        invariant forall j :: 0 <= j < i ==> result[j] == f(items[j].props, j)
      {
        result := result + [f(items[i].props, i)];
        i := i + 1;
      }
    }

    /** `slice(start, end)` over the items. */
    method Slice(start: Option<int>, end: Option<int>) returns (result: seq<BaseDTO>)
      ensures result == SliceOf(items, start, end)
    {
      result := SliceOf(items, start, end);
    }
  }
}
