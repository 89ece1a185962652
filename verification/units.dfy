/** Length units of src/core/geometry/Units.js.  A unit is the draft's unit
    string; `None` stands for an omitted argument, for which the source's
    default parameter "cm" applies. */
module Units {
  import opened Js

  const MmPerCm: real := 10.0
  const MmPerIn: real := 25.4
  const PtPerIn: real := 72.0

  /** Millimetres per unit as `toMm` applies them; unknown units pass the
      value through. */
  function MmPerUnit(unit: Option<string>): (f: real)
    ensures f > 0.0
  {
    match unit
    case None => MmPerCm
    case Some(u) => if u == "mm" then 1.0 else if u == "cm" then MmPerCm else if u == "in" then MmPerIn else 1.0
  }

  function ToMm(value: real, unit: Option<string>): (r: real)
    ensures r == value * MmPerUnit(unit)
  {
    var u := unit.GetOr("cm");
    if u == "mm" then value
    else if u == "cm" then value * 10.0
    else if u == "in" then value * 25.4
    else value
  }

  function FromMm(mm: real, unit: Option<string>): (r: real)
    ensures r * MmPerUnit(unit) == mm
  {
    var u := unit.GetOr("cm");
    if u == "mm" then mm
    else if u == "cm" then mm / 10.0
    else if u == "in" then mm / 25.4
    else mm
  }

  function ToPtFromMm(mm: real): (pt: real)
    ensures pt * 25.4 == mm * 72.0
    ensures mm > 0.0 ==> pt > 0.0
  {
    (mm / 25.4) * 72.0
  }

  /** Converting to millimetres and back is the identity, for every unit,
      known or not; so is the opposite order. */
  lemma RoundTrip(v: real, unit: Option<string>)
    ensures FromMm(ToMm(v, unit), unit) == v
    ensures ToMm(FromMm(v, unit), unit) == v
  {
  }

  /** The omitted unit behaves as "cm". */
  lemma DefaultIsCm(v: real)
    ensures ToMm(v, None) == ToMm(v, Some("cm")) == v * 10.0
    ensures FromMm(v, None) == FromMm(v, Some("cm")) == v / 10.0
  {
  }

  /** One inch is 72 points; the conversion is linear and strictly
      increasing. */
  lemma PointsPerInch(a: real, b: real, k: real)
    ensures ToPtFromMm(MmPerIn) == PtPerIn
    ensures ToPtFromMm(a + b) == ToPtFromMm(a) + ToPtFromMm(b)
    ensures ToPtFromMm(k * a) == k * ToPtFromMm(a)
    ensures a < b ==> ToPtFromMm(a) < ToPtFromMm(b)
  {
  }

  /** Every factor is positive, so conversion preserves order. */
  lemma Monotone(a: real, b: real, unit: Option<string>)
    requires a < b
    ensures ToMm(a, unit) < ToMm(b, unit)
    ensures FromMm(a, unit) < FromMm(b, unit)
  {
  }
}
