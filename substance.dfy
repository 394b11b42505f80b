/** The substance dimension: its constructor, the mole and the SI-prefix rows. */
module SubstanceUnits {
  import opened Basics
  import opened Prefixes

  const Mole := UnitDef("Mole", "mol", Identity, None)

  /**
   * Substance.__init__: a number is stored as the value, another substance amount is
   * converted from its base value, anything else raises TypeError.
   */
  method New(def: UnitDef, input: Input) returns (r: Result<BaseUnit>)
    ensures match InitialValue(Dimension.Substance, def, input)
      case Err(e) => r == Err(e)
      case Ok(v) =>
        r.Ok? && fresh(r.value) && fresh(r.value.toBase) && fresh(r.value.fromBase)
        && Holds(r.value, Dimension.Substance, def, v)
  {
    r := Construct(Dimension.Substance, def, input);
  }

  /** A string, list, dict or a unit of another dimension is refused. */
  lemma RejectsForeignInput(def: UnitDef, input: Input)
    requires HasFromBase(def)
    requires input.Other? || (input.Qty? && input.dim != Dimension.Substance)
    ensures InitialValue(Dimension.Substance, def, input) == Err(TypeError)
  {
  }

  /** The mole is the base: Mole(Mole(x)) holds x. */
  lemma MoleIsBase(x: real)
    ensures BaseOf(Mole, x) == x
    ensures InitialValue(Dimension.Substance, Mole, Qty(Dimension.Substance, BaseOf(Mole, x))) == Ok(x)
  {
  }

  /** The generated class name, "{prefix symbol}mol" as the library formats it. */
  function PrefixName(p: Prefix): string
  {
    p.symbol + "mol"
  }

  function PrefixRow(p: Prefix): UnitDef
  {
    Prefixes.Row(p, 1.0, PrefixName)
  }

  /**
   * The module-level loop: every prefix, "Kilo" included, yields in order a
   * row whose to_base factor is base10 with no offset.
   */
  method PrefixUnits(ps: seq<Prefix>) returns (rows: seq<UnitDef>)
    ensures |rows| == |ps|
    ensures forall i :: 0 <= i < |ps| ==>
      rows[i] == UnitDef(ps[i].symbol + "mol", ps[i].symbol, Affine(ps[i].base10, 0.0), None)
  {
    rows := Generate(ps, None, 1.0, PrefixName);
    TableWithoutSkip(ps, 1.0, PrefixName);
  }

  /** A prefixed unit built from Mole(m) holds m / base10. */
  lemma PrefixedFromMole(p: Prefix, m: real)
    requires p.base10 > 0.0
    ensures InitialValue(Dimension.Substance, PrefixRow(p), Qty(Dimension.Substance, BaseOf(Mole, m)))
      == Ok(m / p.base10)
  {
    var b := p.base10;
    assert BaseOf(Mole, m) == m;
    assert InitialValue(Dimension.Substance, PrefixRow(p), Qty(Dimension.Substance, m)) == Ok(Apply(FromBase(PrefixRow(p)), m));
    assert PrefixRow(p).toBase == Affine(b / 1.0, 0.0);
    assert b / 1.0 == b;
    assert FromBase(PrefixRow(p)) == Affine(1.0 / b, -(0.0 / b));
    assert (1.0 / b) * m + -(0.0 / b) == m / b;
    assert Apply(FromBase(PrefixRow(p)), m) == m / b;
  }
}
