/**
 * The schema model: fields, record schemas with the two dynamic-column
 * properties, schema objects (whose identity matters), records, and the pure
 * operations on field lists that the enforcer builds on.
 */
module Schemas {
  import opened Wrappers

  /** The Avro type of a column. */
  datatype FieldType = IntType | StringType | BooleanType | LongType

  /** The Talend type tags a column can declare. */
  datatype TalendType = TalendInteger | TalendString | TalendBoolean | TalendDate

  /** The tag under which a Talend type is written in schema properties and in dynamic-column metadata. */
  function TalendTag(t: TalendType): string
  {
    match t
    case TalendInteger => "id_Integer"
    case TalendString => "id_String"
    case TalendBoolean => "id_Boolean"
    case TalendDate => "id_Date"
  }

  /** Reads a Talend type tag; an unknown tag gives None. */
  function ParseTalendType(tag: string): (r: Option<TalendType>)
  {
    if tag == "id_Integer" then Some(TalendInteger)
    else if tag == "id_String" then Some(TalendString)
    else if tag == "id_Boolean" then Some(TalendBoolean)
    else if tag == "id_Date" then Some(TalendDate)
    else None
  }

  /** Reading a tag is the inverse of writing it, in both directions. */
  lemma TalendTagRoundTrip(tag: string, t: TalendType)
    ensures ParseTalendType(tag) == Some(t) <==> TalendTag(t) == tag
  {
    match t
    case TalendInteger =>
    case TalendString =>
      assert "id_String" != "id_Integer" by { assert "id_String"[3] != "id_Integer"[3]; }
    case TalendBoolean =>
      assert "id_Boolean" != "id_Integer" by { assert "id_Boolean"[3] != "id_Integer"[3]; }
      assert "id_Boolean" != "id_String" by { assert "id_Boolean"[3] != "id_String"[3]; }
    case TalendDate =>
      assert "id_Date" != "id_Integer" by { assert "id_Date"[3] != "id_Integer"[3]; }
      assert "id_Date" != "id_String" by { assert "id_Date"[3] != "id_String"[3]; }
      assert "id_Date" != "id_Boolean" by { assert "id_Date"[3] != "id_Boolean"[3]; }
  }

  /** The Avro column type that holds values of a Talend type (a date is stored as a long). */
  function ColumnType(t: TalendType): FieldType
  {
    match t
    case TalendInteger => IntType
    case TalendString => StringType
    case TalendBoolean => BooleanType
    case TalendDate => LongType
  }

  /** A column: its name, Avro type, and the optional Talend-type and pattern properties. */
  datatype Field = Field(name: string, fieldType: FieldType, talendType: Option<TalendType>, pattern: Option<string>)

  /**
   * A record schema as a value: its name, its ordered fields, the
   * include-all-fields flag and the dynamic-column position property.
   */
  datatype SchemaDef = SchemaDef(name: string, fields: seq<Field>, includeAllFields: bool, dynamicPosition: Option<nat>)

  /** A schema has a dynamic-column slot when it includes all fields AND declares a position. */
  predicate IsDynamic(s: SchemaDef)
  {
    s.includeAllFields && s.dynamicPosition.Some?
  }

  /** A dynamic slot sits among the fixed fields, 0 meaning before all of them. */
  predicate WellFormed(s: SchemaDef)
  {
    IsDynamic(s) ==> s.dynamicPosition.value <= |s.fields|
  }

  /** A schema instance: immutable, and compared by identity where the tests ask for the same instance. */
  class Schema {
    const def: SchemaDef

    constructor (def: SchemaDef)
      ensures this.def == def
    {
      this.def := def;
    }
  }

  /** The values a record slot can hold; Null is an unwritten slot, a date is epoch milliseconds. */
  datatype Value = Null | IntVal(i: int) | StringVal(s: string) | BoolVal(b: bool) | DateVal(millis: int)

  /** A materialised record: a schema instance and one value per field. Never changed after creation. */
  class Record {
    const schema: Schema
    const values: seq<Value>

    constructor (schema: Schema, values: seq<Value>)
      ensures this.schema == schema && this.values == values
    {
      this.schema := schema;
      this.values := values;
    }
  }

  /** Avro record equality: equal schemas (compared as values) and equal values. */
  predicate SameRecord(a: Record, b: Record)
  {
    a.schema.def == b.schema.def && a.values == b.values
  }

  /**
   * The fixed fields with the discovered fields inserted, in discovery
   * order, as one run at position p.
   */
  function Splice<T>(fixed: seq<T>, p: nat, discovered: seq<T>): (r: seq<T>)
    requires p <= |fixed|
    ensures |r| == |fixed| + |discovered|
    ensures forall i :: 0 <= i < p ==> r[i] == fixed[i]
    ensures forall i :: 0 <= i < |discovered| ==> r[p + i] == discovered[i]
    ensures forall i :: p <= i < |fixed| ==> r[i + |discovered|] == fixed[i]
  {
    fixed[..p] + discovered + fixed[p..]
  }

  /** Cutting the inserted run back out of a splice gives the fixed fields and the discovered run. */
  lemma SpliceInverse<T>(fixed: seq<T>, p: nat, discovered: seq<T>)
    requires p <= |fixed|
    ensures Splice(fixed, p, discovered)[..p] + Splice(fixed, p, discovered)[p + |discovered|..] == fixed
    ensures Splice(fixed, p, discovered)[p..p + |discovered|] == discovered
  {
    var r := Splice(fixed, p, discovered);
    assert r[..p] == fixed[..p];
    assert r[p + |discovered|..] == fixed[p..];
    assert fixed[..p] + fixed[p..] == fixed;
  }

  /** The position of the first field called name, if any. */
  function FieldIndex(fields: seq<Field>, name: string): (r: Option<nat>)
    ensures r.Some? ==> r.value < |fields| && fields[r.value].name == name
    ensures r.Some? ==> forall j :: 0 <= j < r.value ==> fields[j].name != name
    ensures r.None? <==> forall j :: 0 <= j < |fields| ==> fields[j].name != name
  {
    if fields == [] then None
    else if fields[0].name == name then Some(0)
    else match FieldIndex(fields[1..], name)
      case None => None
      case Some(i) => Some(i + 1)
  }

  /** No two fields share a name. */
  predicate DistinctNames(fields: seq<Field>)
  {
    forall i, j :: 0 <= i < j < |fields| ==> fields[i].name != fields[j].name
  }

  /** With distinct names, looking a field up by its name finds its own position. */
  lemma FieldIndexOfName(fields: seq<Field>, i: nat)
    requires DistinctNames(fields) && i < |fields|
    ensures FieldIndex(fields, fields[i].name) == Some(i)
  {
  }

  /** The field a discovered dynamic column becomes: its name and the Avro type of its Talend type, no properties. */
  function DynamicColumnField(name: string, t: TalendType): Field
  {
    Field(name, ColumnType(t), None, None)
  }

  /**
   * The runtime schema of a dynamic design schema: same name, the discovered
   * fields spliced in at the slot, and no dynamic-column properties left.
   */
  function RuntimeSchemaDef(design: SchemaDef, discovered: seq<Field>): (r: SchemaDef)
    requires IsDynamic(design) && WellFormed(design)
    ensures r.name == design.name && !IsDynamic(r) && WellFormed(r)
    ensures r.fields == Splice(design.fields, design.dynamicPosition.value, discovered)
  {
    SchemaDef(design.name, Splice(design.fields, design.dynamicPosition.value, discovered), false, None)
  }
}
