/** `validateSchema` of src/core/validate/validate.js: the error lists of
    every field of a schema, keyed by field key, for the fields that have
    any.  `Number(value)` on a string is `numberOf`. */
module Validate {
  import opened Js
  import opened Schema
  import opened Constraints

  /** `value === "" ? value : Number(value)`. */
  function Numeric(value: Value, numberOf: string -> Value): (v: Value)
    ensures value == Str("") ==> v == value
    ensures value.Num? ==> v == value
  {
    if value == Str("") then value else ToNumber(value, numberOf)
  }

  /** The errors of one field; they depend on `values[field.key]` only. */
  function FieldErrors(field: Field, values: map<string, Value>, numberOf: string -> Value, fmt: real -> string): seq<string> {
    ValidateField(Numeric(Lookup(values, field.key), numberOf), field, fmt)
  }

  /** The `forEach` over the first `n` fields. */
  function ValidatePrefix(fields: seq<Field>, n: nat, values: map<string, Value>, numberOf: string -> Value, fmt: real -> string): (errors: map<string, seq<string>>)
    requires n <= |fields|
    ensures forall k :: k in errors ==> errors[k] != []
    ensures forall k :: k in errors ==> exists i :: 0 <= i < n && fields[i].key == k && errors[k] == FieldErrors(fields[i], values, numberOf, fmt)
    ensures forall i :: 0 <= i < n && FieldErrors(fields[i], values, numberOf, fmt) != [] ==> fields[i].key in errors
    decreases n
  {
    if n == 0 then map[]
    else
      var before := ValidatePrefix(fields, n - 1, values, numberOf, fmt);
      var fe := FieldErrors(fields[n - 1], values, numberOf, fmt);
      if fe != [] then before[fields[n - 1].key := fe] else before
  }

  /** `validateSchema(schema, values)`: a key appears exactly for a field
      whose errors are non-empty, with that field's errors. */
  function ValidateSchema(schema: Schema, values: map<string, Value>, numberOf: string -> Value, fmt: real -> string): (errors: map<string, seq<string>>)
    ensures forall k :: k in errors ==> errors[k] != []
    ensures forall k :: k in errors ==>
      exists i :: 0 <= i < |schema.fields| && schema.fields[i].key == k && errors[k] == FieldErrors(schema.fields[i], values, numberOf, fmt)
    ensures forall i :: 0 <= i < |schema.fields| && FieldErrors(schema.fields[i], values, numberOf, fmt) != [] ==>
      schema.fields[i].key in errors
  {
    ValidatePrefix(schema.fields, |schema.fields|, values, numberOf, fmt)
  }

  /** When every field's value is a number within its bounds there are no
      errors at all; and conversely an empty result means every field is
      within bounds. */
  lemma EmptyIffAllWithinBounds(schema: Schema, values: map<string, Value>, numberOf: string -> Value, fmt: real -> string)
    ensures ValidateSchema(schema, values, numberOf, fmt) == map[] <==>
      forall i :: 0 <= i < |schema.fields| ==>
        WithinBounds(Numeric(Lookup(values, schema.fields[i].key), numberOf), schema.fields[i])
  {
    var errors := ValidateSchema(schema, values, numberOf, fmt);
    if errors == map[] {
      forall i | 0 <= i < |schema.fields|
        ensures WithinBounds(Numeric(Lookup(values, schema.fields[i].key), numberOf), schema.fields[i])
      {
        assert schema.fields[i].key !in errors;
      }
    } else {
      var k :| k in errors;
      var i :| 0 <= i < |schema.fields| && schema.fields[i].key == k && errors[k] == FieldErrors(schema.fields[i], values, numberOf, fmt);
      assert !WithinBounds(Numeric(Lookup(values, schema.fields[i].key), numberOf), schema.fields[i]);
    }
  }

  /** Fields with distinct keys: each field's key maps to exactly its own
      errors when it has any. */
  lemma DistinctKeysReportOwnErrors(schema: Schema, values: map<string, Value>, numberOf: string -> Value, fmt: real -> string, i: nat)
    requires i < |schema.fields|
    requires forall a, b :: 0 <= a < b < |schema.fields| ==> schema.fields[a].key != schema.fields[b].key
    ensures var errors := ValidateSchema(schema, values, numberOf, fmt);
      var fe := FieldErrors(schema.fields[i], values, numberOf, fmt);
      (schema.fields[i].key in errors <==> fe != []) && (fe != [] ==> errors[schema.fields[i].key] == fe)
  {
    var errors := ValidateSchema(schema, values, numberOf, fmt);
    var k := schema.fields[i].key;
    if k in errors {
      var j :| 0 <= j < |schema.fields| && schema.fields[j].key == k && errors[k] == FieldErrors(schema.fields[j], values, numberOf, fmt);
      assert j == i;
    }
  }

  /** A field's errors are read off `values[field.key]` alone, and an empty
      string is reported as missing rather than converted. */
  lemma FieldErrorsReadOneValue(field: Field, v1: map<string, Value>, v2: map<string, Value>, numberOf: string -> Value, fmt: real -> string)
    ensures Lookup(v1, field.key) == Lookup(v2, field.key) ==>
      FieldErrors(field, v1, numberOf, fmt) == FieldErrors(field, v2, numberOf, fmt)
    ensures Lookup(v1, field.key) == Str("") ==> FieldErrors(field, v1, numberOf, fmt) == [RequiredMessage(field)]
  {
  }
}
