# dtox field mapping and validation, in Dafny

dtox turns a loosely typed input object, typically a parsed HTTP response, into a data-transfer object (DTO). This project models dtox's mapping engine.

- A DTO class declares a *mapping*. Each property name in the mapping holds a *field* built by a factory of `lib/fields.js`. Each field has `options` (`default`, `key`, `callback`) and a checking function `fn`.
- Constructing an instance (`lib/dto.js`) walks the mapping in order. For each field it:
  - picks the lookup key;
  - resolves the value from the callback, then the input, then the default;
  - applies `fn` and assigns the result;
  - fails fast with one of the error kinds of `lib/errors.js`.
- The instance keeps its raw input under `__RAW__`, and `toJSON` drops that property.
- `BaseListDTO` applies one item class to every element of an array.

## Structure

- `Values.dfy` (module `Values`):
  - JavaScript values (`Value`), with `Option<Value>` standing for possibly `undefined`;
  - the error kinds (`Err`);
  - truthiness, `typeof` and property lookup.
- `Engine.dfy` (module `Engine`): the pure semantics, in one module because the two parts are mutually recursive. A nested-DTO field builds instances, and building an instance applies every field.
  - The options, field kinds, mappings and DTO classes.
  - `Apply`: each field's `fn`.
  - `Resolve`: value resolution.
  - `MapFields` and `Construct`: the constructor.
  - `BuildItems`: `items.map(item => new DTOClass(item))`.
  - `Serialize`: `toJSON`.
- `Fields.dfy` (module `Fields`): the eight factories, with their declaration-time class check, and the lemmas stating each rule.
- `Dto.dfy` (module `Dto`):
  - lemmas about construction, serialisation and the list;
  - the classes `BaseDTO` and `BaseListDTO`, whose methods loop as the source does and are proved against the pure functions that specify them;
  - the `slice` and `map` helpers.
- `Examples.dfy` (module `Examples`): the scenarios of the repository's tests, stated over the model.

## Modelling choices

- **Host date parsing.** `new Date(v)` is a parameter `parse: Value -> Option<int>`: `None` means `Invalid Date`. Every lemma holds for every parser.
- **Classes.** A DTO class is its mapping plus whether `BaseDTO` is among its ancestors. `instanceof` becomes a test on a modelled prototype chain (`Engine.InstanceChain`, `Engine.ClassChain`).
- **Callbacks.** A callback is a total `Value -> Option<Value>`.
- **Instances.** Inside values, an instance is `DTO(props)`, its own enumerable properties with `__RAW__` among them. The `BaseDTO` class holds the same map in a field.
- **Reading `null`.** Reading a property of `null` raises the host's `TypeError`, modelled as the error kind `HostTypeError`.
- **Where the code and the design description disagree, the model follows the code:**
  - `generic` and `date` reject `undefined` with InvalidPropertyError, not a "missing value" error.
  - `objectWithDTO` rejects a falsy value with a falsy default with InvalidPropertyError.
  - The option that renames the lookup is called `key`.
  - `default: null` is treated differently in two places. In `objectWithDTO` it makes a falsy value map to `null`. In the constructor a null default counts as present, so the field never raises MissingPropertyError.

## Model

| member | source | states |
|---|---|---|
| `Values.Truthy` | lib/fields.js:238-246 | a value is falsy exactly when it is undefined, null, `false`, `0` or `""` |
| `Values.TypeOf` | lib/fields.js:59-61 | `typeof` is "undefined", "boolean", "number" or "string" exactly for undefined, booleans, numbers and strings |
| `Values.Lookup` | lib/dto.js:40 | `data[key]` fails (TypeError) exactly on null. It is defined exactly when `key` is an own property of an object or instance, and then it is that property |
| `Engine.Apply` | lib/fields.js:35-247 | no contract of its own: the `fn` of each field kind, specified by `Fields.GenericRule`, `Fields.TypedRule`, `Fields.DateRule`, `Fields.ListWithDtoRule`, `Fields.ObjectWithDtoRule`, `Fields.NullAccepted` and `Fields.UndefinedRejected` |
| `Engine.Resolve` | lib/dto.js:33-45 | no contract of its own: the value handed to `fn`, specified by `Dto.ResolvePrecedence` against the independent `Dto.FirstDefined` |
| `Engine.Outcome` | lib/dto.js:33-47 | no contract of its own: one entry's resolved value passed through its rule, used by `Dto.MapFieldsSucceeds` and `Dto.MapFieldsValues` |
| `Engine.MapFields` | lib/dto.js:31-48 | no contract of its own: the `forEach` over the mapping, specified by `Dto.MapFieldsSucceeds`, `Dto.MapFieldsKeys`, `Dto.MapFieldsValues` and `Dto.MapFieldsFailsFirst` |
| `Engine.Construct` | lib/dto.js:24-51 | no contract of its own: `new BaseDTO(data, mapping)`, specified by `Dto.ConstructSpec` and `Dto.ConstructBuilt` |
| `Engine.BuildItems` | lib/fields.js:207-209 | no contract of its own: `val.map(item => new DTOClass(item))`, specified by `Fields.BuildItemsSpec` |
| `Engine.Serialize` | lib/dto.js:58-70 | no contract of its own: `toJSON()`, specified by `Dto.SerializeConstructed` and implemented by `Dto.BaseDTO.ToJSON` |
| `Engine.IsDtoClass` | lib/fields.js:190-192 | `DTOClass && DTOClass.prototype instanceof BaseDTO` holds exactly for a given class with BaseDTO among its ancestors |
| `Engine.LookupKey` | lib/dto.js:33 | the lookup key is `options.key` when it is a non-empty string, otherwise the field name |
| `Fields.OrEmpty` | lib/fields.js:34 | given options are kept unchanged. Absent options become `{}`, with no default, key or callback |
| `Fields.Generic` | lib/fields.js:32-43 | a generic field, storing its options unchanged or `{}` |
| `Fields.String` | lib/fields.js:55-66 | a string field, storing its options unchanged or `{}` |
| `Fields.Boolean` | lib/fields.js:78-89 | a boolean field, storing its options unchanged or `{}` |
| `Fields.Number` | lib/fields.js:101-112 | a number field, storing its options unchanged or `{}` |
| `Fields.Date` | lib/fields.js:124-154 | a date field, storing its options unchanged or `{}` |
| `Fields.List` | lib/fields.js:166-177 | a list field, storing its options unchanged or `{}` |
| `Fields.ListWithDTO` | lib/fields.js:189-197 | at declaration, before any value is seen: InvalidArgumentError exactly when the class is missing or does not extend BaseDTO; otherwise a field over that class with its options unchanged or `{}` |
| `Fields.ObjectWithDTO` | lib/fields.js:223-231 | as `ListWithDTO`, for `objectWithDTO` |
| `Fields.GenericRule` | lib/fields.js:35-41 | `generic.fn` rejects undefined with InvalidPropertyError and returns every other value, null included, unchanged |
| `Fields.TypedRule` | lib/fields.js:59-65 | the rule of `string`, also used by `boolean` (82-88), `number` (105-111) and `list` (170-176). It succeeds exactly on null and values of its type, returns them unchanged, and otherwise (undefined included) raises InvalidPropertyError |
| `Fields.DateRule` | lib/fields.js:128-151 | `date.fn` checks in the source's order: null → null; undefined → error; boolean → error; a Date → the same Date; otherwise the parsed date, or an error when parsing fails. It only ever yields null or a Date |
| `Fields.DateOfNumber` | test/test.fields.js:114-116 | on a host whose `new Date(n)` is time `n`, a number in range becomes that Date |
| `Fields.ApplyIdempotent` | lib/fields.js:35-176 | for generic, string, boolean, number, date and list, applying `fn` to its own successful result returns that result again |
| `Fields.BuildItemsSpec` | lib/fields.js:207-209 | mapping elements to instances succeeds exactly when every element builds. It then keeps length and order, element `i` being the instance built from input `i`; otherwise it fails with the first failing element's error |
| `Fields.ListWithDtoRule` | lib/fields.js:198-210 | `listWithDTO.fn`: null → null; a non-array (undefined included) → InvalidPropertyError; an array → an array of the same length of nested instances, or the first nested error |
| `Fields.ObjectWithDtoRule` | lib/fields.js:232-247 | `objectWithDTO.fn`: null → null. A falsy value gives null with a null default, and InvalidPropertyError with a falsy or absent default. Otherwise the instance built from the value, or from the default when the value is falsy |
| `Fields.BuildOne` | lib/fields.js:246 | `new DTOClass(data)` as a field value: the instance when construction succeeds, else its error |
| `Fields.UndefinedRejected` | test/test.fields.js:43-47 | every rule rejects undefined with InvalidPropertyError, except `objectWithDTO` with a null or truthy default |
| `Fields.NullAccepted` | test/test.fields.js:49-53 | every rule maps null to null |
| `Dto.MapFieldsSucceeds` | lib/dto.js:31-48 | the loop over the mapping completes exactly when every field resolves and passes its `fn` |
| `Dto.MapFieldsKeys` | lib/dto.js:31-48 | a completed loop has assigned exactly the mapping's names |
| `Dto.MapFieldsValues` | lib/dto.js:47 | with distinct names, each name holds its field's `fn` of its resolved value |
| `Dto.MapFieldsFailsFirst` | lib/dto.js:31-48 | a loop that throws does so with the error of the first field, in declaration order, that fails |
| `Dto.ConstructSpec` | lib/dto.js:24-51 | an absent or empty mapping is a MappingError. Otherwise construction succeeds exactly when every field does. The instance's own properties are then exactly the mapping's names plus `__RAW__`, which holds the input unchanged, and each name holds its `fn` result. On failure, the first failing field decides the error |
| `Dto.ConstructBuilt` | lib/dto.js:31-50 | when every field succeeds, the instance is the assigned properties plus `__RAW__` holding the input; its keys are exactly the mapping's names plus `__RAW__`, and with distinct names each name holds its own field's result |
| `Dto.SerializeConstructed` | lib/dto.js:58-70 | `toJSON` of a built instance has exactly the declared names other than `__RAW__`, with their mapped values, so undeclared input keys never appear |
| `Dto.ResolvePrecedence` | lib/dto.js:36-45 | the resolved value is the first defined of callback result, `data[key]` and default. If none is defined, the error is MissingPropertyError naming the lookup key. For null data a defined callback result still wins, and otherwise reading the property is a TypeError |
| `Dto.KeyedFieldIgnoresName` | lib/dto.js:33-40 | with `key` set and no callback, a property named like the field has no effect, and a value at `key` is taken |
| `Dto.NullDefaultIsPresent` | lib/dto.js:40-45 | a null default counts as present: a missing key then resolves to null, not to an error |
| `Dto.RebuildOutcome` | lib/dto.js:33-47 | a flat field read back from the serialised instance under its own name yields what it yielded from the original input |
| `Dto.RebuildFromJson` | lib/dto.js:58-70 | for a mapping of flat fields under their own names, building an instance from the serialised instance gives the same serialisation |
| `Dto.ConstructList` | lib/dto.js:86-101 | no contract of its own: `new BaseListDTO(data, DTOClass)` with the intended class check, specified by `Dto.ConstructListSpec` |
| `Dto.ListClassCheckAsWritten` | lib/dto.js:88 | no contract of its own: `DTOClass instanceof BaseDTO` as written, shown false for every class by `Dto.ListCheckAsWrittenNeverHolds` |
| `Dto.ListCheckAsWrittenNeverHolds` | lib/dto.js:88-90 | as written, the list's class check holds for no class, missing or not, so every list construction raises InvalidArgumentError whatever the data |
| `Dto.ConstructListAsWritten` | lib/dto.js:86-101 | no contract of its own: the list constructor with the check as written, shown to reject a real subclass by `Dto.ListCheckAsWrittenRejectsSubclass` |
| `Dto.ListCheckAsWrittenRejectsSubclass` | lib/dto.js:88-90 | with the check as written, even a subclass of BaseDTO and an empty array raise InvalidArgumentError. With the intended check, the same call returns an empty list |
| `Dto.ConstructListSpec` | lib/dto.js:86-101 | an invalid class → InvalidArgumentError; non-array data → InvalidPropertyError. Otherwise one instance per element, in order, exactly when every element builds, else the first element's error |
| `Dto.SliceBound` | lib/dto.js:145-149 | the index clamp of `slice`: an absent bound takes its default (0 for the start, the length for the end), an index in range is kept, one past the end becomes the length, a negative one counts from the end, one before the start becomes 0, and the result lies within the list |
| `Dto.SliceOf` | lib/dto.js:145-149 | `slice(start, end)` has length `max(0, end' - start')` and its element `i` is the item at `start' + i`, where `start'` and `end'` are the clamped bounds |
| `Dto.SliceExamples` | lib/dto.js:145-149 | `slice()` copies the list; `slice(-1)` is the last item |
| `Dto.BaseDTO.Create` | lib/dto.js:24-51 | the field-by-field constructor succeeds exactly when `Construct` does. It yields a fresh instance whose properties are `Construct`'s, or `Construct`'s error |
| `Dto.BaseDTO.ToJSON` | lib/dto.js:58-70 | the result has every own property except `__RAW__`, with the same values |
| `Dto.BaseListDTO.Create` | lib/dto.js:86-101 | a fresh list holding the raw array, its items fresh and pairwise distinct instances whose properties are, in order, those `ConstructList` gives; or `ConstructList`'s error |
| `Dto.BaseListDTO.ToJSON` | lib/dto.js:116-118 | serialising the list hands out its items, unchanged |
| `Dto.BaseListDTO.Map` | lib/dto.js:145-149 | `map(f)` has one result per item, `f` applied to item `i`'s properties and `i` |
| `Dto.BaseListDTO.Slice` | lib/dto.js:145-149 | `slice` over the items, as `SliceOf` |
| `Examples.SerialisesToJson` | test/test.dto.base.js:94-103 | the test's mapping and input serialise to the five expected properties, and `__RAW__` holds the input |
| `Examples.MappedKeyScenario` | test/test.dto.base.js:63-69 | the renamed key is read; a property named like the field gives the null default |
| `Examples.MissingDataScenario` | test/test.dto.base.js:71-73 | an input without `string` raises MissingPropertyError("string") |
| `Examples.NoMappingScenario` | test/test.dto.base.js:36-38 | no mapping raises MappingError |
| `Examples.ListInvalidScenario` | test/test.dto.list.js:55-65 | with the intended class check, a non-array raises InvalidPropertyError and a second element without `string` raises MissingPropertyError; with the check as written, the non-array raises InvalidArgumentError instead |
| `Examples.NullDefaultObjectScenario` | test/test.fields.js:196-206 | `objectWithDTO` with a null default maps undefined to null |
| `Examples.MissingClassScenario` | test/test.fields.js:164-166 | both nested factories without a class raise InvalidArgumentError |

## Findings

| source | as written | input that shows it | evidently intended | confidence | as-written member | corrected member |
|---|---|---|---|---|---|---|
| lib/dto.js:88 | `DTOClass instanceof BaseDTO` asks whether the class object itself is an instance. A class's own prototype chain holds its parent constructors, `Function.prototype` and `Object.prototype`, never `BaseDTO.prototype` | `new TestListDTO([])` with `TestDTO extends BaseDTO` (test/test.dto.list.js:51-53) raises InvalidArgumentError | `DTOClass.prototype instanceof BaseDTO`, as lib/fields.js:190 tests | high, from the language's `instanceof` semantics; not executed | `Dto.ListCheckAsWrittenRejectsSubclass` (about `Dto.ConstructListAsWritten`) | `Dto.ConstructListSpec` (about `Dto.ConstructList`, used by `Dto.BaseListDTO.Create`) |

## Left out

- Numbers are integers. Floating point, `NaN` (which is falsy) and infinities are not modelled.
- The date range check: `parse` is a parameter standing for the host's `new Date(v)` and its `Invalid Date` test. Only `Fields.DateOfNumber` assumes anything about it.
- Property lookup reads own properties of plain objects and instances only. Inherited properties (`constructor`, `toString`) and built-in ones (`length`, array and string indices) read as undefined.
- Reading a property of `undefined` data: data is always a value here. The `TypeError` on `null` data is `HostTypeError`.
- Exceptions thrown by callbacks, and callbacks with side effects.
- A field object without `options` (the `|| {}` of lib/dto.js:32): every field comes from a factory, which always stores options.
- Subclass constructors that do more than `super(data, mapping)`.
- The order of `Object.keys`: a mapping lists its entries in that order, integer-like names first. Instances and `toJSON` results are maps, so property order is not modelled.
- Which class built an instance (`instanceof TestDTO`): instances are their properties.
- `Dto.MapFieldsValues`, `Dto.ConstructSpec`, `Dto.SerializeConstructed`: the per-name values are stated for mappings with distinct names, which every JavaScript object has. The fold itself, like repeated assignments, lets a later entry win.
- `console.log` at lib/dto.js:87, error messages, stack traces and `BaseError` (lib/errors.js), and the copy of the errors in src/errors.js.
- `[Symbol.iterator]` (lib/dto.js:107-109) returns the items array, not an iterator. Only what it hands out is modelled, by `Dto.BaseListDTO.ToJSON`.
- The array helpers `concat`, `every`, `filter`, `forEach`, `indexOf`, `join`, `lastIndexOf`, `reduce`, `reduceRight` and `some`. They delegate to the items exactly like `map` and `slice`, which are modelled. The rest need arbitrary callbacks and host equality.
- `Dto.BaseListDTO.Map`: the callback receives item `i`'s own properties and `i`, not the object and the array, to keep the callback a total `->` function, which cannot read the heap.
- Recursive DTO types. A DTO class is an inductive value that holds its mapping, so no class can appear in its own mapping, directly or through other classes. JavaScript accepts such classes: a `Node` whose `children` field is `listWithDTO(Node, ...)` builds finite trees. A class `A` whose mapping holds `objectWithDTO(A, { default: {} })` makes `new A({})` recurse through lib/dto.js:40 and lib/fields.js:246 until the stack overflows. The model's termination measures rely on classes being well-founded, so neither case is modelled.
- Serialisation of nested instances. `Engine.Serialize` is shallow: a nested instance keeps its own `__RAW__`. `JSON.stringify` calls `toJSON` at every level and so drops `__RAW__` throughout. `Dto.RebuildFromJson` is therefore stated for the flat fields of `Dto.PlainMapping` only.
- The inheritance helpers (`inherit`, `field`) exercised by test/test.basedto.js. They do not exist in lib/dto.js.
- The example programs (HTTP calls, console output) and the build scripts (coverage.js, prepublish.js).
