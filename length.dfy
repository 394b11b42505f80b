/** The length dimension: its constructor and its eleven unit classes; the base unit is the meter. */
module LengthUnits {
  import opened Basics
  import TemperatureUnits

  const KiloMeter := UnitDef("KiloMeter", "km", Affine(1000.0, 0.0), None)
  const Meter := UnitDef("Meter", "m", Identity, None)
  const DeciMeter := UnitDef("DeciMeter", "dm", Affine(0.1, 0.0), None)
  const CentiMeter := UnitDef("CentiMeter", "cm", Affine(0.01, 0.0), None)
  const MilliMeter := UnitDef("MilliMeter", "mm", Affine(0.001, 0.0), None)
  const MicroMeter := UnitDef("MicroMeter", "\U{03BC}m", Affine(0.000001, 0.0), None)
  const NanoMeter := UnitDef("NanoMeter", "nm", Affine(0.000000001, 0.0), None)
  const Mile := UnitDef("Mile", "Mi", Affine(1609.344, 0.0), None)
  const Yard := UnitDef("Yard", "yrd", Affine(0.914399909, 0.0), None)
  const Feet := UnitDef("Feet", "ft", Affine(0.3048, 0.0), None)
  const Inch := UnitDef("Inch", "inch", Affine(0.0254, 0.0), None)

  const Units := [KiloMeter, Meter, DeciMeter, CentiMeter, MilliMeter, MicroMeter, NanoMeter, Mile, Yard, Feet, Inch]

  /**
   * Length.__init__: a number is stored as the value, another length is
   * converted from its base value, anything else raises TypeError.
   */
  method New(def: UnitDef, input: Input) returns (r: Result<BaseUnit>)
    ensures match InitialValue(Dimension.Length, def, input)
      case Err(e) => r == Err(e)
      case Ok(v) =>
        r.Ok? && fresh(r.value) && fresh(r.value.toBase) && fresh(r.value.fromBase)
        && Holds(r.value, Dimension.Length, def, v)
  {
    r := Construct(Dimension.Length, def, input);
  }

  /** Every length unit's default from_base undoes its to_base. */
  lemma AllRoundTrip()
    ensures forall d :: d in Units ==> RoundTrips(d)
  {
  }

  /** No length unit has an offset: each one only scales. */
  lemma NoOffsets()
    ensures forall d :: d in Units ==> d.toBase.offset == 0.0
  {
  }

  /** A length unit built from a number holds it, with base value factor * value. */
  lemma FromNumber(def: UnitDef, x: real)
    requires def in Units
    ensures InitialValue(Dimension.Length, def, Num(x)) == Ok(x)
    ensures BaseOf(def, x) == def.toBase.factor * x
  {
    AllRoundTrip();
    NoOffsets();
    ScalingFromNumber(Dimension.Length, def, x);
  }

  /** A string, list, dict or a unit of another dimension is refused. */
  lemma RejectsForeignInput(def: UnitDef, input: Input)
    requires def in Units
    requires input.Other? || (input.Qty? && input.dim != Dimension.Length)
    ensures InitialValue(Dimension.Length, def, input) == Err(TypeError)
  {
  }

  /** The meter is the base: its base value is its value. */
  lemma MeterIsBase(v: real)
    ensures BaseOf(Meter, v) == v
  {
  }

  /** One meter, written in each metric unit by an exact power of ten. */
  lemma MetricToMeter()
    ensures BaseOf(KiloMeter, 0.001) == BaseOf(Meter, 1.0)
    ensures BaseOf(DeciMeter, 10.0) == BaseOf(Meter, 1.0)
    ensures BaseOf(CentiMeter, 100.0) == BaseOf(Meter, 1.0)
    ensures BaseOf(MilliMeter, 1000.0) == BaseOf(Meter, 1.0)
    ensures BaseOf(MicroMeter, 1000000.0) == BaseOf(Meter, 1.0)
    ensures BaseOf(NanoMeter, 1000000000.0) == BaseOf(Meter, 1.0)
  {
  }

  /** One of each metric unit, written in meters by an exact power of ten. */
  lemma MetricFromMeter()
    ensures BaseOf(KiloMeter, 1.0) == BaseOf(Meter, 1000.0)
    ensures BaseOf(DeciMeter, 1.0) == BaseOf(Meter, 0.1)
    ensures BaseOf(CentiMeter, 1.0) == BaseOf(Meter, 0.01)
    ensures BaseOf(MilliMeter, 1.0) == BaseOf(Meter, 0.001)
    ensures BaseOf(MicroMeter, 1.0) == BaseOf(Meter, 0.000001)
    ensures BaseOf(NanoMeter, 1.0) == BaseOf(Meter, 0.000000001)
  {
  }

  /** Mile, foot and inch agree exactly with their metric definitions. */
  lemma ImperialExact()
    ensures BaseOf(Mile, 1.0) == BaseOf(KiloMeter, 1.609344)
    ensures BaseOf(Feet, 1.0) == BaseOf(Meter, 0.3048)
    ensures BaseOf(Inch, 1.0) == BaseOf(MilliMeter, 25.4)
  {
  }

  /**
   * The yard's factor is 0.914399909, not 0.9144: one yard differs from
   * 0.9144 m, though by less than the four places the comparison uses.
   */
  lemma YardIsApproximate()
    ensures BaseOf(Yard, 1.0) != BaseOf(Meter, 0.9144)
    ensures -0.00005 < BaseOf(Yard, 1.0) - BaseOf(Meter, 0.9144) < 0.00005
  {
  }

  /** The reverse imperial conversions compared to four places. */
  lemma ImperialToFourPlaces()
    ensures -0.00005 < BaseOf(KiloMeter, 1.0) - BaseOf(Mile, 0.62137121212) < 0.00005
    ensures -0.00005 < BaseOf(Meter, 1.0) - BaseOf(Yard, 1.093613) < 0.00005
    ensures -0.00005 < BaseOf(Meter, 1.0) - BaseOf(Feet, 3.28084) < 0.00005
    ensures -0.00005 < BaseOf(MilliMeter, 1.0) - BaseOf(Inch, 0.03937008) < 0.00005
  {
  }

  // ---------------------------------------------------------------------------
  // Scenarios on meters, as the library's own tests state them
  // ---------------------------------------------------------------------------

  /** CentiMeter(Meter(1)) holds 100 and the same base value as Meter(1). */
  method CentiMeterFromMeter() returns (v: real, base: real)
    ensures v == 100.0 && base == 1.0
  {
    var m := New(Meter, Num(1.0));
    assert m.value.AsInput() == Qty(Dimension.Length, 1.0);
    assert FromBase(CentiMeter) == Affine(100.0, 0.0);
    assert InitialValue(Dimension.Length, CentiMeter, Qty(Dimension.Length, 1.0)) == Ok(100.0);
    var c := New(CentiMeter, m.value.AsInput());
    v, base := c.value.value, c.value.baseValue;
    assert base == BaseOf(CentiMeter, 100.0);
  }

  /** CentiMeter(Celsius(1)) raises TypeError. */
  method CentiMeterFromCelsius() returns (r: Result<BaseUnit>)
    ensures r == Err(TypeError)
  {
    var t := TemperatureUnits.New(TemperatureUnits.Celsius, Num(1.0));
    r := New(CentiMeter, t.value.AsInput());
  }

  /** -Meter(5) has the base value of Meter(-5); negation returns the same object. */
  method NegatedMeter() returns (same: bool, negated: real, literal: real)
    ensures same && negated == literal == -5.0
  {
    var a := New(Meter, Num(5.0));
    var u := a.value;
    var n := u.Neg();
    var b := New(Meter, Num(-5.0));
    same, negated, literal := n == u, n.baseValue, b.value.baseValue;
  }

  /** Meter(10) + 4.5 changes the receiver to 14.5 and returns it. */
  method AddNumberToMeter() returns (same: bool, v: real)
    ensures same && v == 14.5
  {
    var a := New(Meter, Num(10.0));
    var u := a.value;
    var r := u.Add(Num(4.5));
    same, v := r.value == u, u.value;
  }

  /** Meter(1) + '1' raises TypeError and leaves the receiver as it was. */
  method AddStringToMeter() returns (r: Result<BaseUnit>, v: real)
    ensures r == Err(TypeError) && v == 1.0
  {
    var a := New(Meter, Num(1.0));
    var u := a.value;
    r := u.Add(Other);
    v := u.value;
  }

  /** Meter(1) + CentiMeter(100) is a new Meter holding 2. */
  method AddCentiMeterToMeter() returns (v: real, left: real)
    ensures v == 2.0 && left == 1.0
  {
    var m := New(Meter, Num(1.0));
    var c := New(CentiMeter, Num(100.0));
    var r := m.value.Add(c.value.AsInput());
    v, left := r.value.value, m.value.value;
  }

  /**
   * CentiMeter(100) + CentiMeter(100), as written: the sum of the base values
   * (2.0) becomes the raw value of a new CentiMeter, whose base value is 0.02 m
   * instead of 2 m.
   */
  method AddCentiMetersAsWritten() returns (v: real, base: real)
    ensures v == 2.0 && base == 0.02
  {
    var a := New(CentiMeter, Num(100.0));
    var b := New(CentiMeter, Num(100.0));
    var r := a.value.Add(b.value.AsInput());
    v, base := r.value.value, r.value.baseValue;
  }

  /** The same sum through from_base: a CentiMeter holding 200, that is 2 m. */
  method AddCentiMetersConverted() returns (v: real, base: real)
    ensures v == 200.0 && base == 2.0
  {
    var a := New(CentiMeter, Num(100.0));
    var b := New(CentiMeter, Num(100.0));
    var r := a.value.AddConverted(b.value.AsInput());
    v, base := r.value.value, r.value.baseValue;
  }

  /**
   * CentiMeter(300) - CentiMeter(100), as written: the base-value difference
   * (2.0) becomes the raw value of a new CentiMeter worth 0.02 m instead of 2 m.
   */
  method SubCentiMetersAsWritten() returns (v: real, base: real)
    ensures v == 2.0 && base == 0.02
  {
    var a := New(CentiMeter, Num(300.0));
    var b := New(CentiMeter, Num(100.0));
    var r := a.value.Sub(b.value.AsInput());
    v, base := r.value.value, r.value.baseValue;
  }

  /** The same difference through from_base: a CentiMeter holding 200, that is 2 m. */
  method SubCentiMetersConverted() returns (v: real, base: real)
    ensures v == 200.0 && base == 2.0
  {
    var a := New(CentiMeter, Num(300.0));
    var b := New(CentiMeter, Num(100.0));
    var r := a.value.SubConverted(b.value.AsInput());
    v, base := r.value.value, r.value.baseValue;
  }

  /** CentiMeter(100) += Meter(1) leaves 200 cm in the receiver. */
  method InPlaceAddMeterToCentiMeter() returns (o: Outcome, v: real, base: real)
    ensures o == Pass && v == 200.0 && base == 2.0
  {
    var c := New(CentiMeter, Num(100.0));
    var m := New(Meter, Num(1.0));
    var u := c.value;
    assert u.Valid() && u.def == CentiMeter && u.dim == Dimension.Length && u.baseValue == 1.0;
    assert m.value.AsInput() == Qty(Dimension.Length, 1.0);
    o := u.IAdd(m.value.AsInput());
    v, base := u.value, u.baseValue;
  }

  /** round(Meter(1.5)) is 2, floor(Meter(-1.3)) is -2, ceil(Meter(-1.3)) is -1, int(Meter(-1.3)) is -1. */
  method RoundingMeters() returns (rounded: real, floored: real, ceiled: real, truncated: int)
    ensures rounded == 2.0 && floored == -2.0 && ceiled == -1.0 && truncated == -1
  {
    var a := New(Meter, Num(1.5));
    var r := a.value.Round();
    var b := New(Meter, Num(-1.3));
    truncated := b.value.ToInt();
    var f := b.value.FloorInPlace();
    var c := New(Meter, Num(-1.3));
    var g := c.value.CeilInPlace();
    rounded, floored, ceiled := r.value, f.value, g.value;
  }
}
