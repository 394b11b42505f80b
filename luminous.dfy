/** The luminous-intensity dimension: its constructor and the candela. */
module LuminousUnits {
  import opened Basics

  const Candela := UnitDef("Candela", "cd", Identity, None)

  /**
   * Luminous.__init__: a number is stored as the value, another luminous
   * intensity is converted from its base value, anything else raises TypeError.
   */
  method New(def: UnitDef, input: Input) returns (r: Result<BaseUnit>)
    ensures match InitialValue(Dimension.Luminous, def, input)
      case Err(e) => r == Err(e)
      case Ok(v) =>
        r.Ok? && fresh(r.value) && fresh(r.value.toBase) && fresh(r.value.fromBase)
        && Holds(r.value, Dimension.Luminous, def, v)
  {
    r := Construct(Dimension.Luminous, def, input);
  }

  /** A candela built from a number holds it, and its base value is that number. */
  lemma FromNumber(x: real)
    ensures InitialValue(Dimension.Luminous, Candela, Num(x)) == Ok(x)
    ensures BaseOf(Candela, x) == x
  {
  }

  /** A unit of another dimension, or anything that is not a number, is refused. */
  lemma RejectsForeignInput(input: Input)
    requires input.Other? || (input.Qty? && input.dim != Dimension.Luminous)
    ensures InitialValue(Dimension.Luminous, Candela, input) == Err(TypeError)
  {
  }

  /** Candela(Candela(x)) holds x: both of its conversions are the identity. */
  method CandelaFromCandela(x: real) returns (v: real)
    ensures v == x
  {
    var c := New(Candela, Num(x));
    var d := New(Candela, c.value.AsInput());
    v := d.value.value;
  }
}
