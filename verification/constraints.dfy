/** `validateField` of src/core/validate/constraints.js: the error messages
    for one form value against one field's bounds.  Numbers inside the
    messages are printed by `fmt`. */
module Constraints {
  import opened Js
  import opened Schema

  /** `value === "" || value === null || Number.isNaN(value)`. */
  predicate IsMissing(value: Value) {
    value == Str("") || value.Null? || value.NaN?
  }

  /** The value is a number within the field's bounds; an absent bound
      does not constrain, and both bounds are inclusive. */
  predicate WithinBounds(value: Value, field: Field) {
    && value.Num?
    && (field.min.Some? ==> field.min.value <= value.r)
    && (field.max.Some? ==> value.r <= field.max.value)
  }

  function RequiredMessage(field: Field): string {
    TextString(field.caption) + " is required"
  }

  function NotANumberMessage(field: Field): string {
    TextString(field.caption) + " must be a number"
  }

  function AtLeastMessage(field: Field, min: real, fmt: real -> string): string {
    TextString(field.caption) + " must be at least " + fmt(min)
  }

  function AtMostMessage(field: Field, max: real, fmt: real -> string): string {
    TextString(field.caption) + " must be at most " + fmt(max)
  }

  /** `validateField(value, field)`. */
  function ValidateField(value: Value, field: Field, fmt: real -> string): (errors: seq<string>)
    ensures |errors| <= 2
    ensures IsMissing(value) <==> errors == [RequiredMessage(field)]
    ensures !IsMissing(value) && !IsNumberType(value) <==> errors == [NotANumberMessage(field)]
    ensures errors == [] <==> WithinBounds(value, field)
    ensures value.Num? && field.min.Some? && value.r < field.min.value ==>
      errors[0] == AtLeastMessage(field, field.min.value, fmt)
    ensures value.Num? && field.max.Some? && value.r > field.max.value ==>
      errors[|errors| - 1] == AtMostMessage(field, field.max.value, fmt)
    ensures value.Num? ==> |errors| == (if field.min.Some? && value.r < field.min.value then 1 else 0)
                                     + (if field.max.Some? && value.r > field.max.value then 1 else 0)
  {
    MessagesDiffer(field, fmt);
    if IsMissing(value) then [RequiredMessage(field)]
    else if !IsNumberType(value) then [NotANumberMessage(field)]
    else
      var low := if field.min.Some? && value.r < field.min.value then [AtLeastMessage(field, field.min.value, fmt)] else [];
      var high := if field.max.Some? && value.r > field.max.value then [AtMostMessage(field, field.max.value, fmt)] else [];
      var errors := low + high;
      assert errors != [RequiredMessage(field)] && errors != [NotANumberMessage(field)] by {
        if |errors| == 1 {
          assert (field.min.Some? && errors[0] == AtLeastMessage(field, field.min.value, fmt))
              || (field.max.Some? && errors[0] == AtMostMessage(field, field.max.value, fmt));
        }
      }
      errors
  }

  /** The four kinds of message are told apart by their wording. */
  lemma MessagesDiffer(field: Field, fmt: real -> string)
    ensures forall m: real :: AtLeastMessage(field, m, fmt) != RequiredMessage(field)
    ensures forall m: real :: AtMostMessage(field, m, fmt) != RequiredMessage(field)
    ensures forall m: real :: AtLeastMessage(field, m, fmt) != NotANumberMessage(field)
    ensures forall m: real :: AtMostMessage(field, m, fmt) != NotANumberMessage(field)
    ensures RequiredMessage(field) != NotANumberMessage(field)
  {
    var l := TextString(field.caption);
    var n := |l|;
    forall m: real
      ensures AtLeastMessage(field, m, fmt) != RequiredMessage(field)
      ensures AtMostMessage(field, m, fmt) != RequiredMessage(field)
      ensures AtLeastMessage(field, m, fmt) != NotANumberMessage(field)
      ensures AtMostMessage(field, m, fmt) != NotANumberMessage(field)
    {
      assert AtLeastMessage(field, m, fmt)[n + 1] == 'm';
      assert AtMostMessage(field, m, fmt)[n + 1] == 'm';
      assert RequiredMessage(field)[n + 1] == 'i';
      assert AtLeastMessage(field, m, fmt)[n + 10] == 't';
      assert AtMostMessage(field, m, fmt)[n + 10] == 't';
      assert NotANumberMessage(field)[n + 10] == ' ';
    }
    assert RequiredMessage(field)[n + 1] == 'i';
    assert NotANumberMessage(field)[n + 1] == 'm';
  }
}
