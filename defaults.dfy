/**
 * `buildProperties`, shared by the insert command and the preset command:
 * the schema's declared defaults, in field order (a later field with the
 * same id overwrites an earlier one), optionally overwritten key by key by
 * the properties a preset or a pasted structure carries.
 */
module Defaults {
  import opened Wrappers
  import opened Values
  import opened Types

  /** The defaults of `fields`, as the loop leaves them after visiting every field. */
  function FieldDefaults(fields: seq<PropertyField>): (r: Properties)
    ensures forall k :: k in r <==>
              exists i :: 0 <= i < |fields| && fields[i].id == k && fields[i].defaultValue.Some?
    decreases |fields|
  {
    if fields == [] then map[]
    else
      var r := FieldDefaults(fields[..|fields| - 1]);
      var f := fields[|fields| - 1];
      assert forall i :: 0 <= i < |fields| - 1 ==> fields[..|fields| - 1][i] == fields[i];
      if f.defaultValue.Some? then r[f.id := f.defaultValue.value] else r
  }

  /** A key's value is the default of the last field with that id that declares one. */
  lemma {:induction false} LastDefaultWins(fields: seq<PropertyField>, i: nat)
    requires i < |fields| && fields[i].defaultValue.Some?
    requires forall j :: i < j < |fields| && fields[j].id == fields[i].id ==> fields[j].defaultValue.None?
    ensures fields[i].id in FieldDefaults(fields)
    ensures FieldDefaults(fields)[fields[i].id] == fields[i].defaultValue.value
    decreases |fields|
  {
    var n := |fields| - 1;
    var init := fields[..n];
    DefaultsStep(fields);
    if i < n {
      assert init[i] == fields[i];
      forall j | i < j < |init| && init[j].id == init[i].id
        ensures init[j].defaultValue.None?
      {
        assert init[j] == fields[j];
      }
      LastDefaultWins(init, i);
    }
  }

  /** The loop's last step: the last field's default, when it has one, is written over the rest. */
  lemma DefaultsStep(fields: seq<PropertyField>)
    requires fields != []
    ensures var f := fields[|fields| - 1];
      var r := FieldDefaults(fields[..|fields| - 1]);
      FieldDefaults(fields) == if f.defaultValue.Some? then r[f.id := f.defaultValue.value] else r
  {
  }

  /** `buildProperties(schema)` of the insert command. */
  function SchemaDefaults(schema: Option<BlockSchema>): Properties
  {
    if schema.Some? then FieldDefaults(schema.value.properties) else map[]
  }

  /** `buildProperties(schema, presetProperties)` of the preset command. */
  function PresetProperties(schema: Option<BlockSchema>, overrides: Option<Properties>): (r: Properties)
    ensures forall k :: k in r <==> k in SchemaDefaults(schema) || (overrides.Some? && k in overrides.value)
    ensures overrides.Some? ==> forall k :: k in overrides.value ==> r[k] == overrides.value[k]
    ensures forall k :: k in SchemaDefaults(schema) && !(overrides.Some? && k in overrides.value) ==>
              r[k] == SchemaDefaults(schema)[k]
  {
    if overrides.Some? then SchemaDefaults(schema) + overrides.value else SchemaDefaults(schema)
  }

  /** The defaults loop, run over the schema's fields. */
  method BuildProperties(schema: Option<BlockSchema>) returns (props: Properties)
    ensures props == SchemaDefaults(schema)
  {
    props := map[];
    if schema.Some? {
      var fields := schema.value.properties;
      for i := 0 to |fields|
        invariant props == FieldDefaults(fields[..i])
      {
        assert fields[..i + 1][..i] == fields[..i];
        if fields[i].defaultValue.Some? {
          props := props[fields[i].id := fields[i].defaultValue.value];
        }
      }
      assert fields[..|fields|] == fields;
    }
  }

  /** The defaults loop followed by `Object.assign` of the given properties. */
  method BuildMergedProperties(schema: Option<BlockSchema>, overrides: Option<Properties>)
    returns (props: Properties)
    ensures props == PresetProperties(schema, overrides)
  {
    props := BuildProperties(schema);
    if overrides.Some? {
      props := props + overrides.value;
    }
  }
}
