# Daikon incoming-schema enforcer and runtime exceptions, in Dafny

This project models two parts of Talend's daikon library.

The first is the **incoming-schema enforcer** (`DiIncomingSchemaEnforcer`). It is built from a design schema. A schema that is flagged "include all fields" and declares a dynamic-column position starts in a discovery phase. The caller declares the dynamic columns one at a time, by name and Talend type (`id_Integer`, `id_String`, `id_Boolean`, `id_Date`). When discovery is finished, the enforcer splices those columns into the fixed fields at the declared position and freezes the runtime schema. Every other schema is ready at once, and its runtime schema is the design schema itself. Once ready, values are written into one buffer, by runtime position or by field name. `createIndexedRecord` snapshots the buffer into a new record that shares the single runtime-schema instance. A date column with a pattern stores a date value as it is. It parses text by the pattern into a whole-second instant, reading the fields as UTC.

The second is the **runtime-exception builder** (`TalendRuntimeException.build(code)`). Each error code declares an ordered list of expected context keys. `put` keeps only expected keys. `set(args…)` assigns positional arguments to those keys in order. `create`, `throwIt` and `setAndThrow` produce an exception carrying the code, the cause and the context. `unexpectedException` raises `UNEXPECTED_EXCEPTION`, either with the message `UNEXPECTED_EXCEPTION:{message=…}` or with a given cause.

The behaviour is taken from the two JUnit suites that pin it down. Their scenarios are also written out as verified client methods (`EnforcerScenarios`, `ExceptionScenarios`).

Modules:
- `Wrappers` (wrappers.dfy): `Option`, `Result`, `Outcome`.
- `Schemas` (schemas.dfy): fields, schema values (`SchemaDef`), schema instances (class `Schema`), records (class `Record`), the Talend-type tags, the splice and field lookup.
- `Dates` (dates.dfy): the `yyyy-MM-dd'T'HH:mm:ss` text shape, the day count and epoch milliseconds.
- `Coercion` (coercion.dfy): what a column stores for an incoming value.
- `Enforcer` (enforcer.dfy): the class `DiIncomingSchemaEnforcer`, with its phase flag, dynamic-column list, runtime schema and value buffer (an `array`).
- `EnforcerScenarios` (enforcer_scenarios.dfy): the enforcer tests as clients.
- `Exceptions` (exceptions.dfy): error codes, context, message, the class `Builder`, and `unexpectedException`.
- `ExceptionScenarios` (exception_scenarios.dfy): the exception tests as clients.

Raising an exception is modelled as returning `Completion.Raised(exception)`. Each method that always raises says so in its `ensures`.

On indexing: with the slot at 0, 1 or 3, `put(0..5)` in component order yields the component record (DiIncomingSchemaEnforcerTest.java:60-69 with :104-198). So `put(i, v)` writes runtime field `i`.

## Model

| member | source | states |
|---|---|---|
| Schemas.TalendTagRoundTrip | daikon/src/test/java/org/talend/daikon/di/DiIncomingSchemaEnforcerTest.java:120-122 | reading a Talend type tag is the exact inverse of writing it, in both directions |
| Schemas.Splice | daikon/src/test/java/org/talend/daikon/di/DiIncomingSchemaEnforcerTest.java:104-198 | the runtime list has fixed+discovered fields; fields before the slot keep their positions, the discovered ones form one run at the slot in call order, and later fixed fields shift by the run's length |
| Schemas.SpliceInverse | daikon/src/test/java/org/talend/daikon/di/DiIncomingSchemaEnforcerTest.java:104-198 | cutting the run back out of the spliced list gives the fixed fields and the discovered run |
| Schemas.FieldIndex | daikon/src/test/java/org/talend/daikon/di/DiIncomingSchemaEnforcerTest.java:72-77 | a name lookup gives the first field with that name, and gives None exactly when no field has it |
| Schemas.FieldIndexOfName | daikon/src/test/java/org/talend/daikon/di/DiIncomingSchemaEnforcerTest.java:72-88 | with distinct names, looking a field up by its name finds its own runtime position |
| Coercion.DynamicColumnStoresAsGiven | daikon/src/test/java/org/talend/daikon/di/DiIncomingSchemaEnforcerTest.java:120-122 | a dynamic column carries no pattern, so whatever its Talend tag (the date tag included), every value put into it is stored as given |
| Schemas.RuntimeSchemaDef | daikon/src/test/java/org/talend/daikon/di/DiIncomingSchemaEnforcerTest.java:127-132 | the runtime schema keeps the design name, holds the spliced fields and has no dynamic slot left |
| Dates.DaysBeforeYearStep | daikon/src/test/java/org/talend/daikon/di/DiIncomingSchemaEnforcerTest.java:228-233 | the closed-form day count starts at 0 in 1970 and advances by 365 or 366 per year, following the Gregorian leap rule |
| Dates.EpochMillisFields | daikon/src/test/java/org/talend/daikon/di/DiIncomingSchemaEnforcerTest.java:228-233 | the instant is a whole second; dividing it back gives the epoch day, the hour, the minute and the second |
| Dates.EpochDayNext | daikon/src/test/java/org/talend/daikon/di/DiIncomingSchemaEnforcerTest.java:228-233 | within a month, the next day is the next epoch day |
| Dates.EpochDayNewYear | daikon/src/test/java/org/talend/daikon/di/DiIncomingSchemaEnforcerTest.java:228-233 | 1 January follows 31 December of the previous year by one day |
| Dates.EpochDayNextMonth | daikon/src/test/java/org/talend/daikon/di/DiIncomingSchemaEnforcerTest.java:228-233 | the first day of a month follows the last day of the previous month by one day, so with the within-month and new-year steps the epoch day counts days one by one |
| Dates.MonthsFillYear | daikon/src/test/java/org/talend/daikon/di/DiIncomingSchemaEnforcerTest.java:228-233 | the twelve month lengths add up to the Gregorian year length |
| Dates.DigitsValue | daikon/src/test/java/org/talend/daikon/di/DiIncomingSchemaEnforcerTest.java:229 | a string of n digits denotes a number below 10^n |
| Dates.DigitsRoundTrip | daikon/src/test/java/org/talend/daikon/di/DiIncomingSchemaEnforcerTest.java:229-230 | reading a zero-padded number back gives the number when it fits the width |
| Dates.FormatRoundTrip | daikon/src/test/java/org/talend/daikon/di/DiIncomingSchemaEnforcerTest.java:229-230 | writing a digit string's value at its own width gives the string back |
| Dates.ParseFormatTimestamp | daikon/src/test/java/org/talend/daikon/di/DiIncomingSchemaEnforcerTest.java:229-233 | a valid timestamp formatted as `yyyy-MM-dd'T'HH:mm:ss` and followed by any tail parses back to the same fields |
| Dates.ParseTimestampCanonical | daikon/src/test/java/org/talend/daikon/di/DiIncomingSchemaEnforcerTest.java:229-233 | only canonical text parses: the first 19 characters of accepted text are the formatted fields |
| Dates.ParseDateByPattern | daikon/src/test/java/org/talend/daikon/di/DiIncomingSchemaEnforcerTest.java:209 | text parsed by a pattern always gives a whole-second instant |
| Dates.EpochMillisExample | daikon/src/test/java/org/talend/daikon/di/DiIncomingSchemaEnforcerTest.java:233 | 2009-02-13T23:31:31 UTC is 1234567891000 ms after the epoch |
| Dates.ParseDateByPatternExample | daikon/src/test/java/org/talend/daikon/di/DiIncomingSchemaEnforcerTest.java:229-233 | the text `2009-02-13T23:31:31.000Z` under pattern `yyyy-MM-dd'T'HH:mm:ss'000Z'` gives 1234567891000 |
| Coercion.Coerce | daikon/src/test/java/org/talend/daikon/di/DiIncomingSchemaEnforcerTest.java:225-233 | columns that are not dated with a pattern store the value as given; a date or null is stored unchanged; text for a date column becomes a whole-second date or an error; only a date column can refuse a value |
| Coercion.CoerceTimestampText | daikon/src/test/java/org/talend/daikon/di/DiIncomingSchemaEnforcerTest.java:229-233 | text starting with a valid timestamp is stored as that timestamp's UTC instant, whatever follows it |
| Coercion.CoercedTextIsTimestamp | daikon/src/test/java/org/talend/daikon/di/DiIncomingSchemaEnforcerTest.java:229-233 | conversely, text a date column accepts starts with a canonical timestamp, and the stored instant is that timestamp's |
| Enforcer.DiIncomingSchemaEnforcer.constructor | daikon/src/test/java/org/talend/daikon/di/DiIncomingSchemaEnforcerTest.java:95-118 | keeps the design schema; collects dynamic columns exactly when the schema has the include-all-fields flag and a position; otherwise the runtime schema is the design schema instance |
| Enforcer.DiIncomingSchemaEnforcer.NeedsInitDynamicColumns | daikon/src/test/java/org/talend/daikon/di/DiIncomingSchemaEnforcerTest.java:117-125 | true exactly while the runtime schema is absent, and only for a dynamic design schema |
| Enforcer.DiIncomingSchemaEnforcer.GetDesignSchema | daikon/src/test/java/org/talend/daikon/di/DiIncomingSchemaEnforcerTest.java:116-128 | returns the very design schema instance given at construction, in every phase |
| Enforcer.DiIncomingSchemaEnforcer.GetRuntimeSchema | daikon/src/test/java/org/talend/daikon/di/DiIncomingSchemaEnforcerTest.java:98-99 | absent exactly while columns are being collected; the design schema itself when there is no slot |
| Enforcer.DiIncomingSchemaEnforcer.InitDynamicColumn | daikon/src/test/java/org/talend/daikon/di/DiIncomingSchemaEnforcerTest.java:120-123 | appends the column to the discovered list; the enforcer stays in discovery with no runtime schema |
| Enforcer.DiIncomingSchemaEnforcer.InitDynamicColumnsFinished | daikon/src/test/java/org/talend/daikon/di/DiIncomingSchemaEnforcerTest.java:124-129 | creates one new runtime schema holding the splice of the discovered columns, sizes a fresh buffer to it, and ends discovery |
| Enforcer.DiIncomingSchemaEnforcer.PutByIndex | daikon/src/test/java/org/talend/daikon/di/DiIncomingSchemaEnforcerTest.java:60-65 | writes the coerced value into runtime slot i and nowhere else; a refused value leaves the buffer as it was |
| Enforcer.DiIncomingSchemaEnforcer.PutByName | daikon/src/test/java/org/talend/daikon/di/DiIncomingSchemaEnforcerTest.java:72-77 | writes the coerced value into exactly the slot of the named runtime field |
| Enforcer.DiIncomingSchemaEnforcer.CreateIndexedRecord | daikon/src/test/java/org/talend/daikon/di/DiIncomingSchemaEnforcerTest.java:78-82 | returns a new record, distinct from every earlier object, holding the buffer's values and sharing the runtime schema instance |
| EnforcerScenarios.Setup | daikon/src/test/java/org/talend/daikon/di/DiIncomingSchemaEnforcerTest.java:36-53 | the component record has the six-column schema and values |
| EnforcerScenarios.PutComponentValuesByIndex | daikon/src/test/java/org/talend/daikon/di/DiIncomingSchemaEnforcerTest.java:60-65 | six writes by position leave the buffer equal to the component values in runtime order |
| EnforcerScenarios.ComponentFieldIndexes | daikon/src/test/java/org/talend/daikon/di/DiIncomingSchemaEnforcerTest.java:72-77 | each component column name is found at its runtime position 0..5 |
| EnforcerScenarios.PutComponentByName | daikon/src/test/java/org/talend/daikon/di/DiIncomingSchemaEnforcerTest.java:72-77 | a write by a component column's name changes exactly that column's slot |
| EnforcerScenarios.PutSecondValuesByName | daikon/src/test/java/org/talend/daikon/di/DiIncomingSchemaEnforcerTest.java:72-77 | six writes by name leave the buffer equal to the new values at the fields' runtime positions |
| EnforcerScenarios.CheckEnforcerWithComponentRecordData | daikon/src/test/java/org/talend/daikon/di/DiIncomingSchemaEnforcerTest.java:55-89 | the first record equals the component record; the second has the same schema instance, is another object and holds the new values |
| EnforcerScenarios.TestNonDynamic | daikon/src/test/java/org/talend/daikon/di/DiIncomingSchemaEnforcerTest.java:91-101 | without a slot, the design and runtime schemas are the given schema and nothing needs initialising |
| EnforcerScenarios.DiscoverAndFinish | daikon/src/test/java/org/talend/daikon/di/DiIncomingSchemaEnforcerTest.java:113-129 | the phase stays "needs init" through each declared column and flips only at finish; the design schema is unchanged throughout |
| EnforcerScenarios.KnownTags | daikon/src/test/java/org/talend/daikon/di/DiIncomingSchemaEnforcerTest.java:120-122 | the three tags the tests use read as integer, string and boolean |
| EnforcerScenarios.SpliceAtStart | daikon/src/test/java/org/talend/daikon/di/DiIncomingSchemaEnforcerTest.java:104-122 | slot 0 with id, name, age discovered gives `[id,name,age,valid,address,comment]` |
| EnforcerScenarios.SpliceAtMiddle | daikon/src/test/java/org/talend/daikon/di/DiIncomingSchemaEnforcerTest.java:136-154 | slot 1 with name, age, valid discovered gives the same six fields |
| EnforcerScenarios.SpliceAtEnd | daikon/src/test/java/org/talend/daikon/di/DiIncomingSchemaEnforcerTest.java:168-187 | slot 3 with valid, address, comment discovered gives the same six fields |
| EnforcerScenarios.TestDynamicColumnAtStart | daikon/src/test/java/org/talend/daikon/di/DiIncomingSchemaEnforcerTest.java:103-133 | slot at 0: the records equal the component record and the renamed-value record |
| EnforcerScenarios.TestDynamicColumnAtMiddle | daikon/src/test/java/org/talend/daikon/di/DiIncomingSchemaEnforcerTest.java:135-165 | slot at 1: the same records |
| EnforcerScenarios.TestDynamicColumnAtEnd | daikon/src/test/java/org/talend/daikon/di/DiIncomingSchemaEnforcerTest.java:167-198 | slot at 3: the same records |
| EnforcerScenarios.CoerceDateTextExample | daikon/src/test/java/org/talend/daikon/di/DiIncomingSchemaEnforcerTest.java:229-233 | the date column stores the text `2009-02-13T23:31:31.000Z` as the date 1234567891000 |
| EnforcerScenarios.TestTypeConversionToDate | daikon/src/test/java/org/talend/daikon/di/DiIncomingSchemaEnforcerTest.java:200-234 | a position without the flag is no slot; the date keeps its milliseconds; the text gives the whole second; the record shares the runtime schema instance |
| Exceptions.ExpectedKeys | daikon/src/test/java/org/talend/daikon/exception/TalendRuntimeExceptionTest.java:84-90 | each code's expected keys are distinct (`argument`, `value` for UNEXPECTED_ARGUMENT; `message` for UNEXPECTED_EXCEPTION) |
| Exceptions.PositionalContext | daikon/src/test/java/org/talend/daikon/exception/TalendRuntimeExceptionTest.java:93-105 | a key is assigned exactly when some position is reached by both the keys and the arguments; missing arguments leave keys absent, extra ones are dropped |
| Exceptions.PositionalContextAt | daikon/src/test/java/org/talend/daikon/exception/TalendRuntimeExceptionTest.java:84-105 | with distinct keys, the i-th expected key holds the i-th argument |
| Exceptions.GetMessage | daikon/src/test/java/org/talend/daikon/exception/TalendRuntimeExceptionTest.java:60 | the message starts with the code name followed by `:{` |
| Exceptions.MessageOfSingleEntry | daikon/src/test/java/org/talend/daikon/exception/TalendRuntimeExceptionTest.java:52-62 | an UNEXPECTED_EXCEPTION whose context is just `message=m` has the message `UNEXPECTED_EXCEPTION:{message=m}` |
| Exceptions.Builder.constructor | daikon/src/test/java/org/talend/daikon/exception/TalendRuntimeExceptionTest.java:77-81 | `build(code)` starts with the code, the cause and an empty context |
| Exceptions.Builder.Put | daikon/src/test/java/org/talend/daikon/exception/TalendRuntimeExceptionTest.java:108-131 | stores the value under an expected key, ignores any other key, and keeps the context limited to expected keys |
| Exceptions.Builder.Create | daikon/src/test/java/org/talend/daikon/exception/TalendRuntimeExceptionTest.java:77-81 | the exception carries the builder's code, cause and context, which holds only expected keys |
| Exceptions.Builder.Set | daikon/src/test/java/org/talend/daikon/exception/TalendRuntimeExceptionTest.java:84-105 | assigns the arguments positionally to the expected keys and returns the exception carrying the code and that context |
| Exceptions.Builder.ThrowIt | daikon/src/test/java/org/talend/daikon/exception/TalendRuntimeExceptionTest.java:133-142 | always raises, with the code, cause and context built so far |
| Exceptions.Builder.SetAndThrow | daikon/src/test/java/org/talend/daikon/exception/TalendRuntimeExceptionTest.java:143-151 | assigns the arguments as `set` does, then always raises with that context |
| Exceptions.UnexpectedExceptionWithMessage | daikon/src/test/java/org/talend/daikon/exception/TalendRuntimeExceptionTest.java:52-62 | always raises UNEXPECTED_EXCEPTION with message exactly `UNEXPECTED_EXCEPTION:{message=<msg>}` |
| Exceptions.UnexpectedExceptionWithCause | daikon/src/test/java/org/talend/daikon/exception/TalendRuntimeExceptionTest.java:64-74 | always raises UNEXPECTED_EXCEPTION and keeps the given cause |
| ExceptionScenarios.TestUnexpected1 | daikon/src/test/java/org/talend/daikon/exception/TalendRuntimeExceptionTest.java:52-62 | raises UNEXPECTED_EXCEPTION with message `UNEXPECTED_EXCEPTION:{message=messsage}` |
| ExceptionScenarios.TestUnexpected2 | daikon/src/test/java/org/talend/daikon/exception/TalendRuntimeExceptionTest.java:64-74 | raises UNEXPECTED_EXCEPTION whose cause has the message `test exception` |
| ExceptionScenarios.TestExceptionBuilder | daikon/src/test/java/org/talend/daikon/exception/TalendRuntimeExceptionTest.java:76-81 | `build(code).create()` carries the code |
| ExceptionScenarios.ArgumentKeysAssigned | daikon/src/test/java/org/talend/daikon/exception/TalendRuntimeExceptionTest.java:84-105 | for UNEXPECTED_ARGUMENT, two or more arguments assign `argument` and `value` to the first two |
| ExceptionScenarios.TestExceptionBuilderWithSetParams | daikon/src/test/java/org/talend/daikon/exception/TalendRuntimeExceptionTest.java:83-90 | `set("foo","bar")` gives argument=foo and value=bar |
| ExceptionScenarios.TestExceptionBuilderWithSetWrongParams | daikon/src/test/java/org/talend/daikon/exception/TalendRuntimeExceptionTest.java:92-105 | one argument leaves `value` absent; three arguments drop the third |
| ExceptionScenarios.TestExceptionBuilderWithPutParams | daikon/src/test/java/org/talend/daikon/exception/TalendRuntimeExceptionTest.java:107-114 | put of both keys reads back both values |
| ExceptionScenarios.TestExceptionBuilderWithPutWrongParams | daikon/src/test/java/org/talend/daikon/exception/TalendRuntimeExceptionTest.java:116-131 | an expected key never put reads absent; the unexpected key `unknow` is absent |
| ExceptionScenarios.TestExceptionBuilderThrow | daikon/src/test/java/org/talend/daikon/exception/TalendRuntimeExceptionTest.java:133-152 | `throwIt` and `setAndThrow` both raise, with the code and the context built so far |

## Left out

- Avro itself is not modelled: `SchemaBuilder`, `GenericData.Record`, `AvroUtils.setProperty` and `setIncludeAllFields`. A schema is a name, a field list and the two dynamic-slot properties. A record is a schema instance plus a value sequence, and record equality (`SameRecord`) compares schema values and record values.
- Schemas.RuntimeSchemaDef: a runtime schema carries no schema properties, and dynamic fields carry no field properties. This follows from the tests: Avro's equality compares properties, and the dynamic runtime record equals a component record that has none. The tests pin the runtime schema's properties only through record equality.
- The dynamic-column position property is an integer here. Reading it from its string form ("0", "1", "3") is not modelled.
- Of `initDynamicColumn`'s thirteen parameters, only the name and the Talend type tag are modelled. The others are always null, 0 or false in the tests, so what they mean cannot be seen.
- Enforcer.DiIncomingSchemaEnforcer.InitDynamicColumn: an unknown Talend type tag is excluded by a precondition. No test shows what happens with one.
- Enforcer.DiIncomingSchemaEnforcer.constructor: a dynamic position beyond the fixed field count is excluded by a precondition. No error result is invented for it.
- Enforcer.DiIncomingSchemaEnforcer.PutByIndex: an out-of-range index and a call during discovery are excluded by preconditions. No test shows either error.
- Enforcer.DiIncomingSchemaEnforcer.PutByName: an unknown name is excluded by a precondition. With duplicate names, the first field of that name is written. No test shows either case.
- Dates.ParseDateByPattern: the general `SimpleDateFormat` pattern language is out, and so are time zones other than UTC and lenient roll-over of out-of-range fields (these are refused). Only patterns that begin with `yyyy-MM-dd'T'HH:mm:ss` are read. Only the first 19 characters of the text are interpreted, and every field must have exactly its pattern width: Java's `SimpleDateFormat` also reads a number of another width up to the next delimiter (so `2009-2-13T23:31:31` parses there), which the model refuses; the rest of the pattern and of the text is not compared. Every year is read on the proleptic Gregorian calendar: Java's default calendar switches to Julian dates before 1582-10-15 and reads year `0000` as 1 BC, which the model does not follow.
- Coercion.Coerce: a numeric epoch value written to a date column is refused, not converted. No test shows that case. Non-date columns are not type-checked, since no test shows a check.
- A dynamic column declared with the date tag gets no pattern, so its values are stored as given (proved as `Coercion.DynamicColumnStoresAsGiven`); the conversion of dynamic date columns is not modelled.
- Carry-over of unwritten slots between records is not asserted by any test. The model keeps the buffer between records, and slots never written hold `Null`.
- `writeTo(writer)` JSON serialisation and the `read` stream helper are I/O. The expected JSON lives in a resource file.
- The `CommonErrorCodes` enumeration is reduced to the three codes the tests use. Their expected keys come from the tests only: `argument`, `value` for UNEXPECTED_ARGUMENT; `message` for UNEXPECTED_EXCEPTION (taken from its message text); none for UNABLE_TO_PARSE_JSON. The test at TalendRuntimeExceptionTest.java:30-35 builds an exception with only a code; that is the `TalendRuntimeException` datatype constructor.
- Exceptions.GetMessage: context values are strings only (the serialisation test's integer and list values belong to the I/O left out). The message lists the code's expected keys that are present, in declared order; Java map iteration order for several entries is not modelled.
- Stack traces and Java exception mechanics are out. A raised exception is a returned `Completion.Raised` value carrying the code, the context and the cause. A cause is seen only through its message.
