/**
 * The incoming-schema enforcer: built from a design schema, it either is
 * ready at once (runtime schema = design schema) or first collects the
 * dynamic columns, splices them in at the slot and freezes the runtime
 * schema. When ready, values are written into one buffer by runtime
 * position or by name, and each record is a snapshot of that buffer
 * sharing the one runtime schema instance.
 */
module Enforcer {
  import opened Wrappers
  import opened Schemas
  import opened Coercion

  class DiIncomingSchemaEnforcer {
    /** The schema the enforcer was built with; never replaced. */
    const designSchema: Schema
    /** The frozen runtime schema, null while dynamic columns are still being collected. */
    var runtimeSchema: Schema?
    /** The phase flag: true while dynamic columns are still being collected. */
    var needsInit: bool
    /** The dynamic columns collected so far, in call order. */
    var dynamicFields: seq<Field>
    /** The value buffer, one slot per runtime field once ready. */
    var buffer: array<Value>

    ghost predicate Valid()
      reads this
    {
      && WellFormed(designSchema.def)
      && (needsInit <==> runtimeSchema == null)
      && (needsInit ==> IsDynamic(designSchema.def))
      && (!IsDynamic(designSchema.def) ==> runtimeSchema == designSchema && dynamicFields == [])
      && (IsDynamic(designSchema.def) && runtimeSchema != null ==>
            runtimeSchema.def == RuntimeSchemaDef(designSchema.def, dynamicFields))
      && (runtimeSchema != null ==> buffer.Length == |runtimeSchema.def.fields|)
    }

    /** The runtime fields, once the enforcer is ready. */
    function RuntimeFields(): (fields: seq<Field>)
      reads this
      requires Valid() && !needsInit
      ensures |fields| == buffer.Length
    {
      runtimeSchema.def.fields
    }

    constructor (design: Schema)
      requires WellFormed(design.def)
      ensures Valid()
      ensures designSchema == design && dynamicFields == []
      ensures needsInit == IsDynamic(design.def)
      ensures runtimeSchema == if IsDynamic(design.def) then null else design
      ensures fresh(buffer) && forall i :: 0 <= i < buffer.Length ==> buffer[i] == Null
    {
      designSchema := design;
      dynamicFields := [];
      if IsDynamic(design.def) {
        needsInit := true;
        runtimeSchema := null;
        buffer := new Value[0];
      } else {
        needsInit := false;
        runtimeSchema := design;
        buffer := new Value[|design.def.fields|](_ => Null);
      }
    }

    /** Whether dynamic columns must still be declared before values can be written. */
    method NeedsInitDynamicColumns() returns (b: bool)
      requires Valid()
      ensures b <==> runtimeSchema == null
      ensures b ==> IsDynamic(designSchema.def)
    {
      b := needsInit;
    }

    /** The design schema: the very instance given at construction, in every phase. */
    method GetDesignSchema() returns (s: Schema)
      ensures s == designSchema
    {
      s := designSchema;
    }

    /** The runtime schema: absent while collecting dynamic columns, the design schema itself when there is no slot. */
    method GetRuntimeSchema() returns (s: Schema?)
      requires Valid()
      ensures s == runtimeSchema
      ensures s == null <==> needsInit
      ensures !IsDynamic(designSchema.def) ==> s == designSchema
    {
      s := runtimeSchema;
    }

    /**
     * Declares the next dynamic column by name and Talend type tag; it
     * becomes a field of the Avro type of that Talend type.
     */
    method InitDynamicColumn(name: string, talendType: string)
      requires Valid() && needsInit
      requires ParseTalendType(talendType).Some?
      modifies this
      ensures Valid() && needsInit && runtimeSchema == null && buffer == old(buffer)
      ensures dynamicFields == old(dynamicFields) + [DynamicColumnField(name, ParseTalendType(talendType).value)]
    {
      dynamicFields := dynamicFields + [DynamicColumnField(name, ParseTalendType(talendType).value)];
    }

    /**
     * Ends the collection: the runtime schema is created once, with the
     * collected fields spliced in at the slot, and a fresh buffer sized to it.
     */
    method InitDynamicColumnsFinished()
      requires Valid() && needsInit
      modifies this
      ensures Valid() && !needsInit
      ensures dynamicFields == old(dynamicFields)
      ensures fresh(runtimeSchema) && runtimeSchema.def == RuntimeSchemaDef(designSchema.def, dynamicFields)
      ensures fresh(buffer) && forall i :: 0 <= i < buffer.Length ==> buffer[i] == Null
    {
      var def := RuntimeSchemaDef(designSchema.def, dynamicFields);
      runtimeSchema := new Schema(def);
      buffer := new Value[|def.fields|](_ => Null);
      needsInit := false;
    }

    /**
     * Writes v, coerced for its column, into runtime field index. A value the
     * column cannot take leaves the buffer as it was and reports why.
     */
    method PutByIndex(index: nat, v: Value) returns (outcome: Outcome<CoercionError>)
      requires Valid() && !needsInit && index < |RuntimeFields()|
      modifies buffer
      ensures match Coerce(RuntimeFields()[index], v)
        case Ok(c) => outcome == Pass && buffer[..] == old(buffer[..])[index := c]
        case Err(e) => outcome == Fail(e) && buffer[..] == old(buffer[..])
    {
      match Coerce(RuntimeFields()[index], v)
      case Ok(c) =>
        buffer[index] := c;
        outcome := Pass;
      case Err(e) =>
        outcome := Fail(e);
    }

    /** Writes v, coerced for its column, into the runtime field called name. */
    method PutByName(name: string, v: Value) returns (outcome: Outcome<CoercionError>)
      requires Valid() && !needsInit && FieldIndex(RuntimeFields(), name).Some?
      modifies buffer
      ensures var index := FieldIndex(RuntimeFields(), name).value;
        match Coerce(RuntimeFields()[index], v)
        case Ok(c) => outcome == Pass && buffer[..] == old(buffer[..])[index := c]
        case Err(e) => outcome == Fail(e) && buffer[..] == old(buffer[..])
    {
      outcome := PutByIndex(FieldIndex(RuntimeFields(), name).value, v);
    }

    /** A new record holding the buffer's current values and sharing the runtime schema instance. */
    method CreateIndexedRecord() returns (r: Record)
      requires Valid() && !needsInit
      ensures fresh(r)
      ensures r.schema == runtimeSchema && r.values == buffer[..]
    {
      r := new Record(runtimeSchema, buffer[..]);
    }
  }
}
