/** The current dimension: its constructor, the ampere and the SI-prefix rows. */
module CurrentUnits {
  import opened Basics
  import opened Prefixes

  const Ampere := UnitDef("Ampere", "A", Identity, None)

  /**
   * Current.__init__: a number is stored as the value, another current is
   * converted from its base value, anything else raises TypeError.
   */
  method New(def: UnitDef, input: Input) returns (r: Result<BaseUnit>)
    ensures match InitialValue(Dimension.Current, def, input)
      case Err(e) => r == Err(e)
      case Ok(v) =>
        r.Ok? && fresh(r.value) && fresh(r.value.toBase) && fresh(r.value.fromBase)
        && Holds(r.value, Dimension.Current, def, v)
  {
    r := Construct(Dimension.Current, def, input);
  }

  /** A string, list, dict or a unit of another dimension is refused. */
  lemma RejectsForeignInput(def: UnitDef, input: Input)
    requires HasFromBase(def)
    requires input.Other? || (input.Qty? && input.dim != Dimension.Current)
    ensures InitialValue(Dimension.Current, def, input) == Err(TypeError)
  {
  }

  /** The ampere is the base: Ampere(Ampere(x)) holds x. */
  lemma AmpereIsBase(x: real)
    ensures BaseOf(Ampere, x) == x
    ensures InitialValue(Dimension.Current, Ampere, Qty(Dimension.Current, BaseOf(Ampere, x))) == Ok(x)
  {
  }

  /** The generated class name, "{prefix symbol}A" as the library formats it. */
  function PrefixName(p: Prefix): string
  {
    p.symbol + "A"
  }

  function PrefixRow(p: Prefix): UnitDef
  {
    Prefixes.Row(p, 1.0, PrefixName)
  }

  /**
   * The module-level loop: every prefix, "Kilo" included, yields in order a
   * row whose to_base factor is base10 with no offset.
   */
  method PrefixUnits(ps: seq<Prefix>) returns (rows: seq<UnitDef>)
    ensures |rows| == |ps|
    ensures forall i :: 0 <= i < |ps| ==>
      rows[i] == UnitDef(ps[i].symbol + "A", ps[i].symbol, Affine(ps[i].base10, 0.0), None)
  {
    rows := Generate(ps, None, 1.0, PrefixName);
    TableWithoutSkip(ps, 1.0, PrefixName);
  }

  /** A prefixed unit built from Ampere(a) holds a / base10. */
  lemma PrefixedFromAmpere(p: Prefix, a: real)
    requires p.base10 > 0.0
    ensures InitialValue(Dimension.Current, PrefixRow(p), Qty(Dimension.Current, BaseOf(Ampere, a)))
      == Ok(a / p.base10)
  {
    var b := p.base10;
    assert BaseOf(Ampere, a) == a;
    assert InitialValue(Dimension.Current, PrefixRow(p), Qty(Dimension.Current, a)) == Ok(Apply(FromBase(PrefixRow(p)), a));
    assert PrefixRow(p).toBase == Affine(b / 1.0, 0.0);
    assert b / 1.0 == b;
    assert FromBase(PrefixRow(p)) == Affine(1.0 / b, -(0.0 / b));
    assert (1.0 / b) * a + -(0.0 / b) == a / b;
    assert Apply(FromBase(PrefixRow(p)), a) == a / b;
  }
}
