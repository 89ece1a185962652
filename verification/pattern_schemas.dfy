/** The schema tables of the three pattern modules (test_rectangle,
    panties_basic, panties_thong_basic) and the facts the form relies on:
    every field has numeric bounds in order, the defaults cover every field
    and pass validation, and every option default is one of its choices
    and agrees with `optionDefaults`. */
module PatternSchemas {
  import opened Js
  import opened Schema
  import opened Constraints
  import opened Validate

  /** Every field has both bounds, in order. */
  predicate BoundsOrdered(s: Schema) {
    forall i :: 0 <= i < |s.fields| ==>
      s.fields[i].min.Some? && s.fields[i].max.Some? && s.fields[i].min.value <= s.fields[i].max.value
  }

  /** `defaults` has a numeric entry within bounds for every field key. */
  predicate DefaultsWithinBounds(s: Schema) {
    forall i :: 0 <= i < |s.fields| ==>
      s.fields[i].key in s.defaults && WithinBounds(s.defaults[s.fields[i].key], s.fields[i])
  }

  /** Each option's default is one of its choices and is what
      `optionDefaults` holds for its key. */
  predicate OptionDefaultsConsistent(s: Schema) {
    forall i :: 0 <= i < |s.options| ==>
      && IsChoice(s.options[i], s.options[i].defaultValue)
      && s.options[i].key in s.optionDefaults
      && s.optionDefaults[s.options[i].key] == s.options[i].defaultValue
  }

  predicate WellFormed(s: Schema) {
    BoundsOrdered(s) && DefaultsWithinBounds(s) && OptionDefaultsConsistent(s)
  }

  /** A well-formed schema's defaults pass `validateSchema`, whatever the
      string parser and number printer. */
  lemma DefaultsValidate(s: Schema, numberOf: string -> Value, fmt: real -> string)
    requires WellFormed(s)
    ensures ValidateSchema(s, s.defaults, numberOf, fmt) == map[]
  {
    forall i | 0 <= i < |s.fields|
      ensures WithinBounds(Numeric(Lookup(s.defaults, s.fields[i].key), numberOf), s.fields[i])
    {
      assert s.fields[i].key in s.defaults && WithinBounds(s.defaults[s.fields[i].key], s.fields[i]);
    }
    EmptyIffAllWithinBounds(s, s.defaults, numberOf, fmt);
  }

  function NumField(key: string, code: Option<string>, caption: Text, description: Text, min: real, max: real, step: real): Field {
    Field(key, code, caption, description, Some(min), Some(max), step)
  }

  function EnRu(en: string, ru: string): Text {
    Keyed(map["en" := en, "ru" := ru])
  }

  // ---------------------------------------------------------------------
  // src/patterns/test_rectangle/schema.js

  const RectangleSchema: Schema := Schema(
    "test_rectangle",
    Plain("Test Rectangle"),
    "cm",
    [ NumField("width_cm", None, Plain("Width"), Plain("Rectangle width."), 5.0, 80.0, 0.5),
      NumField("height_cm", None, Plain("Height"), Plain("Rectangle height."), 5.0, 120.0, 0.5),
      NumField("seam_allowance_cm", None, Plain("Seam allowance"), Plain("Additional margin added around the panel."), 0.0, 2.0, 0.1) ],
    map["width_cm" := Num(20.0), "height_cm" := Num(30.0), "seam_allowance_cm" := Num(0.0)],
    [],
    map[])

  lemma RectangleSchemaWellFormed()
    ensures WellFormed(RectangleSchema)
    ensures |RectangleSchema.fields| == 3
  {
  }

  // ---------------------------------------------------------------------
  // src/patterns/panties_basic/schema.js

  const PantiesSchema: Schema := Schema(
    "panties_basic",
    Plain("Panties Basic"),
    "cm",
    [ NumField("waist", None, Plain("Waist circumference"), Plain("Measure around the natural waist."), 50.0, 120.0, 0.5),
      NumField("hip", None, Plain("Hip circumference"), Plain("Measure around the fullest part of the hips."), 70.0, 140.0, 0.5),
      NumField("rise", None, Plain("Rise"), Plain("Vertical distance from waist to crotch (front)."), 18.0, 35.0, 0.5),
      NumField("legOpening", None, Plain("Leg opening"), Plain("Circumference around the leg opening."), 40.0, 80.0, 0.5) ],
    map["waist" := Num(70.0), "hip" := Num(95.0), "rise" := Num(23.0), "legOpening" := Num(55.0)],
    [ OptionSpec("style", Plain("Style"), Plain("Base style for the panty leg curve."),
        [Choice(Plain("Classic"), Str("classic"))], Str("classic")),
      OptionSpec("seamAllowance", Plain("Seam allowance"), Plain("Add a default seam allowance around the panel."),
        [Choice(Plain("Off"), Str("off")), Choice(Plain("On"), Str("on"))], Str("off")) ],
    map["style" := Str("classic"), "seamAllowance" := Str("off")])

  lemma PantiesSchemaWellFormed()
    ensures WellFormed(PantiesSchema)
    ensures |PantiesSchema.fields| == 4
  {
    assert IsChoice(PantiesSchema.options[0], Str("classic")) by {
      assert PantiesSchema.options[0].choices[0].value == Str("classic");
    }
    assert IsChoice(PantiesSchema.options[1], Str("off")) by {
      assert PantiesSchema.options[1].choices[0].value == Str("off");
    }
  }

  // ---------------------------------------------------------------------
  // src/patterns/panties_thong_basic/schema.js

  const ThongSchema: Schema := Schema(
    "panties_thong_basic",
    EnRu("Panties Thong Basic", "Базовые стринги"),
    "cm",
    [ NumField("waist", Some("W"), EnRu("Waist circumference", "Обхват талии"),
        EnRu("Measure around the natural waist.", "Измерьте окружность по линии талии."), 50.0, 120.0, 0.5),
      NumField("hip", Some("H"), EnRu("Hip circumference", "Обхват бёдер"),
        EnRu("Measure around the fullest part of the hips.", "Измерьте окружность по самой выступающей части бёдер."), 70.0, 140.0, 0.5),
      NumField("rise", Some("D"), EnRu("Rise", "Высота сидения"),
        EnRu("Vertical distance from waist to crotch (front).", "Вертикальное расстояние от талии до паховой точки спереди."), 18.0, 35.0, 0.5),
      NumField("legOpening", Some("L"), EnRu("Leg opening", "Обхват по вырезу ноги"),
        EnRu("Circumference around the leg opening.", "Окружность по линии выреза ноги."), 40.0, 80.0, 0.5) ],
    map["waist" := Num(70.0), "hip" := Num(95.0), "rise" := Num(23.0), "legOpening" := Num(55.0)],
    [ OptionSpec("thongWidth", EnRu("Thong width (cm)", "Ширина стрингов (см)"),
        EnRu("Controls the narrow width of the thong at the crotch.", "Управляет узкой шириной стрингов в области ластовицы."),
        [ Choice(EnRu("2cm", "2см"), Num(2.0)), Choice(EnRu("3cm", "3см"), Num(3.0)),
          Choice(EnRu("4cm", "4см"), Num(4.0)), Choice(EnRu("5cm", "5см"), Num(5.0)) ],
        Num(3.0)),
      OptionSpec("seamAllowance", EnRu("Seam allowance", "Припуск на шов"),
        EnRu("Add a default seam allowance around the panel.", "Добавить припуск на шов вокруг детали."),
        [ Choice(EnRu("0mm", "0мм"), Num(0.0)), Choice(EnRu("6mm", "6мм"), Num(6.0)),
          Choice(EnRu("8mm", "8мм"), Num(8.0)), Choice(EnRu("10mm", "10мм"), Num(10.0)) ],
        Num(6.0)) ],
    map["thongWidth" := Num(3.0), "seamAllowance" := Num(6.0)])

  lemma ThongSchemaWellFormed()
    ensures WellFormed(ThongSchema)
    ensures |ThongSchema.fields| == 4
  {
    ThongBoundsOrdered();
    ThongDefaultsWithinBounds();
    ThongOptionDefaultsConsistent();
  }

  lemma ThongBoundsOrdered()
    ensures BoundsOrdered(ThongSchema)
  {
  }

  lemma ThongDefaultsWithinBounds()
    ensures DefaultsWithinBounds(ThongSchema)
  {
  }

  lemma ThongOptionDefaultsConsistent()
    ensures OptionDefaultsConsistent(ThongSchema)
  {
    assert IsChoice(ThongSchema.options[0], Num(3.0)) by {
      assert ThongSchema.options[0].choices[1].value == Num(3.0);
    }
    assert IsChoice(ThongSchema.options[1], Num(6.0)) by {
      assert ThongSchema.options[1].choices[1].value == Num(6.0);
    }
  }
}
