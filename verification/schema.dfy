/** The shape of a pattern schema: measurement fields with bounds, the
    defaults that fill a new form, and the draft options with their
    choices.  An absent `options` list is the empty list and an absent
    `optionDefaults` object the empty map. */
module Schema {
  import opened Js

  datatype Field = Field(
    key: string,
    code: Option<string>,
    caption: Text,
    description: Text,
    min: Option<real>,
    max: Option<real>,
    step: real)

  datatype Choice = Choice(caption: Text, value: Value)

  datatype OptionSpec = OptionSpec(
    key: string,
    caption: Text,
    description: Text,
    choices: seq<Choice>,
    defaultValue: Value)

  datatype Schema = Schema(
    id: string,
    name: Text,
    unit: string,
    fields: seq<Field>,
    defaults: map<string, Value>,
    options: seq<OptionSpec>,
    optionDefaults: map<string, Value>)

  /** `value` is the value of one of the option's choices. */
  predicate IsChoice(o: OptionSpec, value: Value) {
    exists i :: 0 <= i < |o.choices| && o.choices[i].value == value
  }
}
