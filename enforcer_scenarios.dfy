/**
 * The enforcer's unit scenarios as verified clients: a six-column component
 * record, the same record produced whether the dynamic slot is at 0, 1 or 3,
 * and date coercion by pattern.
 */
module EnforcerScenarios {
  import opened Wrappers
  import opened Schemas
  import opened Dates
  import opened Coercion
  import opened Enforcer

  function PlainField(name: string, t: FieldType): Field
  {
    Field(name, t, None, None)
  }

  /** The component schema's fields: id, name, age, valid, address, comment. */
  function ComponentFields(): seq<Field>
  {
    [PlainField("id", IntType), PlainField("name", StringType), PlainField("age", IntType),
     PlainField("valid", BooleanType), PlainField("address", StringType), PlainField("comment", StringType)]
  }

  function ComponentSchemaDef(): SchemaDef
  {
    SchemaDef("Record", ComponentFields(), false, None)
  }

  function ComponentValues(): seq<Value>
  {
    [IntVal(1), StringVal("User"), IntVal(100), BoolVal(true), StringVal("Main Street"),
     StringVal("This is a record with six columns.")]
  }

  function SecondValues(): seq<Value>
  {
    [IntVal(2), StringVal("User2"), IntVal(200), BoolVal(false), StringVal("2 Main Street"),
     StringVal("2 This is a record with six columns.")]
  }

  /** The record a component would like to emit. */
  method Setup() returns (componentRecord: Record)
    ensures componentRecord.schema.def == ComponentSchemaDef() && componentRecord.values == ComponentValues()
  {
    var componentSchema := new Schema(ComponentSchemaDef());
    componentRecord := new Record(componentSchema, ComponentValues());
  }

  lemma ComponentNamesDistinct()
    ensures DistinctNames(ComponentFields())
  {
    var f := ComponentFields();
    forall i, j | 0 <= i < j < |f| ensures f[i].name != f[j].name {
      assert f[i].name[0] != f[j].name[0] || |f[i].name| != |f[j].name|;
    }
  }

  /** No component column is a date column, so every component value is stored as given. */
  lemma ComponentColumnsStoreAsGiven()
    ensures forall i :: 0 <= i < |ComponentFields()| ==> !IsDatePatternField(ComponentFields()[i])
  {
  }

  /** Writing the six component values by position, in component order. */
  method PutComponentValuesByIndex(enforcer: DiIncomingSchemaEnforcer)
    requires enforcer.Valid() && !enforcer.needsInit && enforcer.RuntimeFields() == ComponentFields()
    modifies enforcer.buffer
    ensures enforcer.buffer[..] == ComponentValues()
  {
    ComponentColumnsStoreAsGiven();
    var _ := enforcer.PutByIndex(0, IntVal(1));
    var _ := enforcer.PutByIndex(1, StringVal("User"));
    var _ := enforcer.PutByIndex(2, IntVal(100));
    var _ := enforcer.PutByIndex(3, BoolVal(true));
    var _ := enforcer.PutByIndex(4, StringVal("Main Street"));
    var _ := enforcer.PutByIndex(5, StringVal("This is a record with six columns."));
  }

  /** Each component column is found by its name at its own position. */
  lemma ComponentFieldIndexes()
    ensures FieldIndex(ComponentFields(), "id") == Some(0)
    ensures FieldIndex(ComponentFields(), "name") == Some(1)
    ensures FieldIndex(ComponentFields(), "age") == Some(2)
    ensures FieldIndex(ComponentFields(), "valid") == Some(3)
    ensures FieldIndex(ComponentFields(), "address") == Some(4)
    ensures FieldIndex(ComponentFields(), "comment") == Some(5)
  {
    var f := ComponentFields();
    ComponentNamesDistinct();
    FieldIndexOfName(f, 0);
    FieldIndexOfName(f, 1);
    FieldIndexOfName(f, 2);
    FieldIndexOfName(f, 3);
    FieldIndexOfName(f, 4);
    FieldIndexOfName(f, 5);
  }

  /** Writing a new value into the component column at index, found by its name. */
  method PutComponentByName(enforcer: DiIncomingSchemaEnforcer, index: nat, v: Value)
    requires enforcer.Valid() && !enforcer.needsInit && enforcer.RuntimeFields() == ComponentFields()
    requires index < |ComponentFields()|
    modifies enforcer.buffer
    ensures enforcer.buffer[..] == old(enforcer.buffer[..])[index := v]
  {
    ComponentColumnsStoreAsGiven();
    ComponentNamesDistinct();
    FieldIndexOfName(ComponentFields(), index);
    var _ := enforcer.PutByName(ComponentFields()[index].name, v);
  }

  /** Writing six new values by field name: id, name, age, valid, address, comment. */
  method PutSecondValuesByName(enforcer: DiIncomingSchemaEnforcer)
    requires enforcer.Valid() && !enforcer.needsInit && enforcer.RuntimeFields() == ComponentFields()
    modifies enforcer.buffer
    ensures enforcer.buffer[..] == SecondValues()
  {
    PutComponentByName(enforcer, 0, IntVal(2));
    PutComponentByName(enforcer, 1, StringVal("User2"));
    PutComponentByName(enforcer, 2, IntVal(200));
    PutComponentByName(enforcer, 3, BoolVal(false));
    PutComponentByName(enforcer, 4, StringVal("2 Main Street"));
    PutComponentByName(enforcer, 5, StringVal("2 This is a record with six columns."));
  }

  /**
   * Six writes by position give a record equal to the component record;
   * six writes by name then give a new record, on the same schema instance,
   * holding the new values at the fields' runtime positions.
   */
  method CheckEnforcerWithComponentRecordData(enforcer: DiIncomingSchemaEnforcer, componentRecord: Record)
    returns (adapted: Record, adapted2: Record)
    requires enforcer.Valid() && !enforcer.needsInit && enforcer.runtimeSchema.def == ComponentSchemaDef()
    requires componentRecord.schema.def == ComponentSchemaDef() && componentRecord.values == ComponentValues()
    modifies enforcer.buffer
    ensures SameRecord(adapted, componentRecord)
    ensures adapted.schema == enforcer.runtimeSchema
    ensures adapted2.schema == adapted.schema && adapted2 != adapted
    ensures adapted2.values == SecondValues()
  {
    var needs := enforcer.NeedsInitDynamicColumns();
    assert !needs;
    PutComponentValuesByIndex(enforcer);
    adapted := enforcer.CreateIndexedRecord();
    PutSecondValuesByName(enforcer);
    adapted2 := enforcer.CreateIndexedRecord();
  }

  /** Without a dynamic slot the runtime schema is the design schema, ready at once. */
  method TestNonDynamic() returns (talend6Schema: Schema, design: Schema, runtime: Schema?, needs: bool)
    ensures design == talend6Schema && runtime == talend6Schema && !needs
  {
    var componentRecord := Setup();
    talend6Schema := componentRecord.schema;
    var enforcer := new DiIncomingSchemaEnforcer(talend6Schema);
    design := enforcer.GetDesignSchema();
    runtime := enforcer.GetRuntimeSchema();
    needs := enforcer.NeedsInitDynamicColumns();
  }

  /** The phase checks the dynamic tests share: collecting until finished, then ready, design schema unchanged. */
  method DiscoverAndFinish(enforcer: DiIncomingSchemaEnforcer, talend6Schema: Schema,
                           names: seq<string>, tags: seq<string>)
    requires enforcer.Valid() && enforcer.needsInit && enforcer.designSchema == talend6Schema
    requires enforcer.dynamicFields == [] && |names| == |tags| == 3
    requires forall i :: 0 <= i < 3 ==> ParseTalendType(tags[i]).Some?
    modifies enforcer
    ensures enforcer.Valid() && !enforcer.needsInit && enforcer.runtimeSchema != null
    ensures enforcer.designSchema == talend6Schema && fresh(enforcer.buffer)
    ensures enforcer.dynamicFields ==
      seq(3, i requires 0 <= i < 3 => DynamicColumnField(names[i], ParseTalendType(tags[i]).value))
  {
    var design := enforcer.GetDesignSchema();
    assert design == talend6Schema;
    var needs := enforcer.NeedsInitDynamicColumns();
    assert needs;
    var runtime := enforcer.GetRuntimeSchema();
    assert runtime == null;

    enforcer.InitDynamicColumn(names[0], tags[0]);
    enforcer.InitDynamicColumn(names[1], tags[1]);
    enforcer.InitDynamicColumn(names[2], tags[2]);
    needs := enforcer.NeedsInitDynamicColumns();
    assert needs;
    enforcer.InitDynamicColumnsFinished();
    needs := enforcer.NeedsInitDynamicColumns();
    assert !needs;

    design := enforcer.GetDesignSchema();
    assert design == talend6Schema;
    runtime := enforcer.GetRuntimeSchema();
    assert runtime != null;
  }

  lemma KnownTags()
    ensures ParseTalendType("id_Integer") == Some(TalendInteger)
    ensures ParseTalendType("id_String") == Some(TalendString)
    ensures ParseTalendType("id_Boolean") == Some(TalendBoolean)
  {
    TalendTagRoundTrip("id_String", TalendString);
    TalendTagRoundTrip("id_Boolean", TalendBoolean);
  }

  /** Slot at 0: the discovered id, name, age come before the fixed valid, address, comment. */
  lemma SpliceAtStart()
    ensures Splice([PlainField("valid", BooleanType), PlainField("address", StringType), PlainField("comment", StringType)],
                   0, [DynamicColumnField("id", TalendInteger), DynamicColumnField("name", TalendString),
                       DynamicColumnField("age", TalendInteger)]) == ComponentFields()
  {
  }

  /** Slot at 1: the discovered name, age, valid come between the fixed id and address. */
  lemma SpliceAtMiddle()
    ensures Splice([PlainField("id", IntType), PlainField("address", StringType), PlainField("comment", StringType)],
                   1, [DynamicColumnField("name", TalendString), DynamicColumnField("age", TalendInteger),
                       DynamicColumnField("valid", TalendBoolean)]) == ComponentFields()
  {
  }

  /** Slot at 3: the discovered valid, address, comment come after the fixed id, name, age. */
  lemma SpliceAtEnd()
    ensures Splice([PlainField("id", IntType), PlainField("name", StringType), PlainField("age", IntType)],
                   3, [DynamicColumnField("valid", TalendBoolean), DynamicColumnField("address", TalendString),
                       DynamicColumnField("comment", TalendString)]) == ComponentFields()
  {
  }

  /** Dynamic slot at 0: id, name, age are discovered before valid, address, comment. */
  method TestDynamicColumnAtStart() returns (adapted: Record, adapted2: Record)
    ensures adapted.schema.def == ComponentSchemaDef() && adapted.values == ComponentValues()
    ensures adapted2.schema == adapted.schema && adapted2 != adapted && adapted2.values == SecondValues()
  {
    var componentRecord := Setup();
    var talend6Schema := new Schema(SchemaDef("Record",
      [PlainField("valid", BooleanType), PlainField("address", StringType), PlainField("comment", StringType)],
      true, Some(0)));
    var enforcer := new DiIncomingSchemaEnforcer(talend6Schema);
    KnownTags();
    DiscoverAndFinish(enforcer, talend6Schema, ["id", "name", "age"], ["id_Integer", "id_String", "id_Integer"]);
    SpliceAtStart();
    adapted, adapted2 := CheckEnforcerWithComponentRecordData(enforcer, componentRecord);
  }

  /** Dynamic slot at 1: name, age, valid are discovered between id and address. */
  method TestDynamicColumnAtMiddle() returns (adapted: Record, adapted2: Record)
    ensures adapted.schema.def == ComponentSchemaDef() && adapted.values == ComponentValues()
    ensures adapted2.schema == adapted.schema && adapted2 != adapted && adapted2.values == SecondValues()
  {
    var componentRecord := Setup();
    var talend6Schema := new Schema(SchemaDef("Record",
      [PlainField("id", IntType), PlainField("address", StringType), PlainField("comment", StringType)],
      true, Some(1)));
    var enforcer := new DiIncomingSchemaEnforcer(talend6Schema);
    KnownTags();
    DiscoverAndFinish(enforcer, talend6Schema, ["name", "age", "valid"], ["id_String", "id_Integer", "id_Boolean"]);
    SpliceAtMiddle();
    adapted, adapted2 := CheckEnforcerWithComponentRecordData(enforcer, componentRecord);
  }

  /** Dynamic slot at 3: valid, address, comment are discovered after id, name, age. */
  method TestDynamicColumnAtEnd() returns (adapted: Record, adapted2: Record)
    ensures adapted.schema.def == ComponentSchemaDef() && adapted.values == ComponentValues()
    ensures adapted2.schema == adapted.schema && adapted2 != adapted && adapted2.values == SecondValues()
  {
    var componentRecord := Setup();
    var talend6Schema := new Schema(SchemaDef("Record",
      [PlainField("id", IntType), PlainField("name", StringType), PlainField("age", IntType)],
      true, Some(3)));
    var enforcer := new DiIncomingSchemaEnforcer(talend6Schema);
    KnownTags();
    DiscoverAndFinish(enforcer, talend6Schema, ["valid", "address", "comment"], ["id_Boolean", "id_String", "id_String"]);
    SpliceAtEnd();
    adapted, adapted2 := CheckEnforcerWithComponentRecordData(enforcer, componentRecord);
  }

  function DateField(): Field
  {
    Field("field", LongType, Some(TalendDate), Some("yyyy-MM-dd'T'HH:mm:ss'000Z'"))
  }

  /** The date column stores the text of the date test as the whole second. */
  lemma CoerceDateTextExample()
    ensures Coerce(DateField(), StringVal("2009-02-13T23:31:31.000Z")) == Ok(DateVal(1234567891000))
  {
    ParseDateByPatternExample();
    assert IsDatePatternField(DateField());
  }

  /**
   * A date column with a pattern, in a schema that has a position property
   * but no include-all-fields flag (so no slot): a date is stored as is, and
   * the text is parsed to the whole second.
   */
  method TestTypeConversionToDate() returns (first: Record, adapted: Record, runtime: Schema?)
    ensures runtime != null && adapted.schema == runtime
    ensures first.values == [DateVal(1234567891011)]
    ensures adapted.values == [DateVal(1234567891000)]
  {
    var talend6Schema := new Schema(SchemaDef("Record", [DateField()], false, Some(3)));
    var enforcer := new DiIncomingSchemaEnforcer(talend6Schema);

    var design := enforcer.GetDesignSchema();
    assert design == talend6Schema;
    var needs := enforcer.NeedsInitDynamicColumns();
    assert !needs;
    runtime := enforcer.GetRuntimeSchema();
    assert runtime == talend6Schema;

    var _ := enforcer.PutByIndex(0, DateVal(1234567891011));
    first := enforcer.CreateIndexedRecord();
    CoerceDateTextExample();
    var _ := enforcer.PutByIndex(0, StringVal("2009-02-13T23:31:31.000Z"));
    adapted := enforcer.CreateIndexedRecord();
    runtime := enforcer.GetRuntimeSchema();
  }
}
