/** The temperature dimension: its constructor and its three unit classes; the base unit is degrees Celsius. */
module TemperatureUnits {
  import opened Basics

  const Celsius := UnitDef("Celsius", "\U{00B0}C", Identity, None)
  const Kelvin := UnitDef("Kelvin", "K", Affine(1.0, -273.15), None)
  /** The one unit of the library whose from_base is given explicitly. */
  const Fahrenheit := UnitDef("Fahrenheit", "\U{00B0}F", Affine(5.0 / 9.0, -160.0 / 9.0), Some(Affine(1.8, 32.0)))

  const Units := [Celsius, Kelvin, Fahrenheit]

  /**
   * Temperature.__init__: a number is stored as the value, another temperature
   * is converted from its base value, anything else raises TypeError.
   */
  method New(def: UnitDef, input: Input) returns (r: Result<BaseUnit>)
    ensures match InitialValue(Dimension.Temperature, def, input)
      case Err(e) => r == Err(e)
      case Ok(v) =>
        r.Ok? && fresh(r.value) && fresh(r.value.toBase) && fresh(r.value.fromBase)
        && Holds(r.value, Dimension.Temperature, def, v)
  {
    r := Construct(Dimension.Temperature, def, input);
  }

  /** Fahrenheit's explicit pair is exactly the inverse pair, so every temperature unit round-trips. */
  lemma AllRoundTrip()
    ensures Fahrenheit.fromBase.value == Inverse(Fahrenheit.toBase)
    ensures forall d :: d in Units ==> RoundTrips(d)
  {
    assert (-160.0 / 9.0) / (5.0 / 9.0) == -32.0;
  }

  /** Fahrenheit's from_base undoes its to_base, and the other way around, for every value. */
  lemma FahrenheitPairIsInverse(x: real)
    ensures Apply(Fahrenheit.fromBase.value, Apply(Fahrenheit.toBase, x)) == x
    ensures Apply(Fahrenheit.toBase, Apply(Fahrenheit.fromBase.value, x)) == x
  {
  }

  /** A temperature unit built from a number holds it. */
  lemma FromNumber(def: UnitDef, x: real)
    requires def in Units
    ensures InitialValue(Dimension.Temperature, def, Num(x)) == Ok(x)
  {
  }

  /** A string, list, dict or a unit of another dimension is refused. */
  lemma RejectsForeignInput(def: UnitDef, input: Input)
    requires def in Units
    requires input.Other? || (input.Qty? && input.dim != Dimension.Temperature)
    ensures InitialValue(Dimension.Temperature, def, input) == Err(TypeError)
  {
  }

  /** Celsius is the base, and Kelvin's base value is its value less 273.15. */
  lemma CelsiusAndKelvin(v: real)
    ensures BaseOf(Celsius, v) == v
    ensures BaseOf(Kelvin, v) == v - 273.15
  {
  }

  /** Pairs of temperatures that hold exactly the same base value. */
  lemma EqualTemperatures()
    ensures BaseOf(Celsius, 100.0) == BaseOf(Kelvin, 373.15)
    ensures BaseOf(Celsius, 101.0) == BaseOf(Fahrenheit, 213.8)
    ensures BaseOf(Kelvin, 100.0) == BaseOf(Celsius, -173.15)
    ensures BaseOf(Kelvin, 100.0) == BaseOf(Fahrenheit, -279.67)
  {
  }

  /** Fahrenheit(100) is exactly 340/9 degrees Celsius, which the four-place comparisons accept. */
  lemma FahrenheitHundred()
    ensures BaseOf(Fahrenheit, 100.0) == 340.0 / 9.0
    ensures -0.00005 < BaseOf(Fahrenheit, 100.0) - BaseOf(Celsius, 37.77778) < 0.00005
    ensures -0.00005 < BaseOf(Fahrenheit, 100.0) - BaseOf(Kelvin, 310.9278) < 0.00005
  {
  }

  /** Kelvin(Celsius(1)) holds 274.15 and the base value 1. */
  method KelvinFromCelsius() returns (v: real, base: real)
    ensures v == 274.15 && base == 1.0
  {
    var c := New(Celsius, Num(1.0));
    var k := New(Kelvin, c.value.AsInput());
    v, base := k.value.value, k.value.baseValue;
  }

  /** Fahrenheit(Celsius(100)) holds 212, through the explicit from_base. */
  method FahrenheitFromCelsius() returns (v: real)
    ensures v == 212.0
  {
    var c := New(Celsius, Num(100.0));
    var f := New(Fahrenheit, c.value.AsInput());
    v := f.value.value;
  }
}
