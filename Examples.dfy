/** The scenarios of test/test.dto.base.js, test/test.dto.list.js and
    test/test.fields.js, stated over the model. */
module Examples {
  import opened Values
  import opened Engine
  import Fields
  import Dto

  /** `data.callbackValue + 'test'`, as far as the scenarios need it. */
  function AppendTest(data: Value): Option<Value> {
    if data.Obj? && "callbackValue" in data.fields && data.fields["callbackValue"].Str?
    then Some(Str(data.fields["callbackValue"].s + "test"))
    else Some(Str("undefinedtest"))
  }

  /** The mapping of test/test.dto.base.js:10-25. */
  function BaseMapping(): Mapping {
    Mapping([
      Entry("string", Fields.String(None)),
      Entry("withDefault", Fields.Generic(Some(Options(Some(Str("default value")), None, None)))),
      Entry("mappedValue", Fields.Generic(Some(Options(Some(Null), Some("keyOfMappedValue"), None)))),
      Entry("callbackValue", Fields.Generic(Some(Options(None, None, Some(AppendTest))))),
      Entry("callbackValueUndefined", Fields.Generic(Some(Options(Some(Str("foo")), None, Some(_ => None)))))
    ])
  }

  /** The input of test/test.dto.base.js:95. */
  function SerialiseInput(): Value {
    Obj(map["string" := Str("foobar"), "callbackValue" := Str("cbValue")])
  }

  /** The properties the test expects after serialisation. */
  function SerialiseExpected(): map<string, Value> {
    map[
      "string" := Str("foobar"),
      "withDefault" := Str("default value"),
      "mappedValue" := Null,
      "callbackValue" := Str("cbValuetest"),
      "callbackValueUndefined" := Str("foo")]
  }

  /** What each field of the mapping yields for that input. */
  lemma SerialiseOutcomes(parse: DateParser)
    ensures var m, data := BaseMapping(), SerialiseInput();
      && Outcome(parse, m.entries[0], data) == Success(Str("foobar"))
      && Outcome(parse, m.entries[1], data) == Success(Str("default value"))
      && Outcome(parse, m.entries[2], data) == Success(Null)
      && Outcome(parse, m.entries[3], data) == Success(Str("cbValuetest"))
      && Outcome(parse, m.entries[4], data) == Success(Str("foo"))
  {
    var data := SerialiseInput();
    assert data.fields["callbackValue"].s + "test" == "cbValuetest";
    assert AppendTest(data) == Some(Str("cbValuetest"));
  }

  /** test/test.dto.base.js:94-103: the serialised instance. */
  lemma SerialisesToJson(parse: DateParser)
    ensures var r := Construct(parse, Some(BaseMapping()), SerialiseInput());
      && r.Success?
      && r.value[RawKey] == SerialiseInput()
      && Serialize(r.value) == SerialiseExpected()
  {
    var data := SerialiseInput();
    var m := BaseMapping();
    SerialiseOutcomes(parse);
    var p0: map<string, Value> := map[];
    var p1 := p0["string" := Str("foobar")];
    var p2 := p1["withDefault" := Str("default value")];
    var p3 := p2["mappedValue" := Null];
    var p4 := p3["callbackValue" := Str("cbValuetest")];
    var p5 := p4["callbackValueUndefined" := Str("foo")];
    assert MapFields(parse, m, data, 5, p5) == Success(p5);
    assert MapFields(parse, m, data, 4, p4) == Success(p5);
    assert MapFields(parse, m, data, 3, p3) == Success(p5);
    assert MapFields(parse, m, data, 2, p2) == Success(p5);
    assert MapFields(parse, m, data, 1, p1) == Success(p5);
    assert MapFields(parse, m, data, 0, p0) == Success(p5);
    assert p5 == SerialiseExpected();
    assert Serialize(p5[RawKey := data]) == p5;
  }

  /** test/test.dto.base.js:63-69: the renamed property is read, the
      property named like the field is not. */
  lemma MappedKeyScenario(parse: DateParser)
    ensures var e := BaseMapping().entries[2];
      && Outcome(parse, e, Obj(map["string" := Str("foobar"), "keyOfMappedValue" := Str("test")])) == Success(Str("test"))
      && Outcome(parse, e, Obj(map["string" := Str("foobar"), "mappedValue" := Str("test")])) == Success(Null)
  {
  }

  /** test/test.dto.base.js:71-73: a missing required property. */
  lemma MissingDataScenario(parse: DateParser)
    ensures Construct(parse, Some(BaseMapping()), Obj(map["some" := Str("foobar")])) == Failure(MissingPropertyError("string"))
  {
    var data := Obj(map["some" := Str("foobar")]);
    assert Outcome(parse, BaseMapping().entries[0], data) == Failure(MissingPropertyError("string"));
  }

  /** test/test.dto.base.js:36-38: no mapping at all. */
  lemma NoMappingScenario(parse: DateParser, data: Value)
    ensures Construct(parse, None, data) == Failure(MappingError)
  {
  }

  /** The item mapping of test/test.dto.list.js:10-14. */
  function ListItemClass(): DtoClass {
    DtoClass(Some(Mapping(BaseMapping().entries[..3])), true)
  }

  /** test/test.dto.list.js:55-65, with the intended class check: a
      non-array, and an array with an item that misses its required
      property. With the check of lib/dto.js:88 as written, the non-array
      raises InvalidArgumentError instead. */
  lemma ListInvalidScenario(parse: DateParser)
    ensures Dto.ConstructList(parse, Obj(map["string" := Str("a")]), Some(ListItemClass())) == Failure(InvalidPropertyError)
    ensures Dto.ConstructList(parse, Arr([
              Obj(map["string" := Str("test")]),
              Obj(map["notstring" := Str("test2")]),
              Obj(map["string" := Str("test3")])]), Some(ListItemClass()))
            == Failure(MissingPropertyError("string"))
    ensures Dto.ConstructListAsWritten(parse, Obj(map["string" := Str("a")]), Some(ListItemClass())) == Failure(InvalidArgumentError)
  {
    Dto.ListCheckAsWrittenNeverHolds(parse, Obj(map["string" := Str("a")]), Some(ListItemClass()));
    var c := ListItemClass();
    var m := c.mapping.value;
    var first := Obj(map["string" := Str("test")]);
    var second := Obj(map["notstring" := Str("test2")]);
    assert MapFields(parse, m, first, 0, map[]) == MapFields(parse, m, first, 1, map["string" := Str("test")]);
    assert Construct(parse, c.mapping, first).Success?;
    assert Outcome(parse, m.entries[0], second) == Failure(MissingPropertyError("string"));
    assert Construct(parse, c.mapping, second) == Failure(MissingPropertyError("string"));
  }

  /** test/test.fields.js:196-206: `objectWithDTO` with a null default
      turns `undefined` into null. */
  lemma NullDefaultObjectScenario(parse: DateParser)
    ensures var f := Fields.ObjectWithDTO(Some(ListItemClass()), Some(Options(Some(Null), None, None)));
      f.Success? && Apply(parse, f.value.kind, f.value.options, None) == Success(Null)
  {
  }

  /** test/test.fields.js:164-166 and 192-194: a missing class argument. */
  lemma MissingClassScenario()
    ensures Fields.ListWithDTO(None, None) == Failure(InvalidArgumentError)
    ensures Fields.ObjectWithDTO(None, None) == Failure(InvalidArgumentError)
  {
  }
}
