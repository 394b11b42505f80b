/**
 * The mass dimension: its constructor, its seven unit classes and the SI-prefix
 * rows; the base unit is the kilogram.
 */
module MassUnits {
  import opened Basics
  import opened Prefixes

  const Tonne := UnitDef("Tonne", "t", Affine(1000.0, 0.0), None)
  const KiloGram := UnitDef("KiloGram", "kg", Identity, None)
  /** The gram's name attribute is "KiloGram" as the library writes it; nothing in the core reads it. */
  const Gram := UnitDef("KiloGram", "g", Affine(0.001, 0.0), None)
  const Pound := UnitDef("Pound", "lbs", Affine(0.45359237, 0.0), None)
  const Ounce := UnitDef("Ounce", "oz", Affine(0.02834952, 0.0), None)
  const Ton := UnitDef("Ton", "ton (UK)", Affine(1016.047, 0.0), None)
  const ShortTon := UnitDef("ShortTon", "ton (US)", Affine(907.1847, 0.0), None)

  const Units := [Tonne, KiloGram, Gram, Pound, Ounce, Ton, ShortTon]

  /**
   * Mass.__init__: a number is stored as the value, another mass is converted
   * from its base value, anything else raises TypeError.
   */
  method New(def: UnitDef, input: Input) returns (r: Result<BaseUnit>)
    ensures match InitialValue(Dimension.Mass, def, input)
      case Err(e) => r == Err(e)
      case Ok(v) =>
        r.Ok? && fresh(r.value) && fresh(r.value.toBase) && fresh(r.value.fromBase)
        && Holds(r.value, Dimension.Mass, def, v)
  {
    r := Construct(Dimension.Mass, def, input);
  }

  /** Every mass unit's default from_base undoes its to_base. */
  lemma AllRoundTrip()
    ensures forall d :: d in Units ==> RoundTrips(d)
  {
  }

  /** No mass unit has an offset: each one only scales. */
  lemma NoOffsets()
    ensures forall d :: d in Units ==> d.toBase.offset == 0.0
  {
  }

  /** A mass unit built from a number holds it, with base value factor * value. */
  lemma FromNumber(def: UnitDef, x: real)
    requires def in Units
    ensures InitialValue(Dimension.Mass, def, Num(x)) == Ok(x)
    ensures BaseOf(def, x) == def.toBase.factor * x
  {
    AllRoundTrip();
    NoOffsets();
    ScalingFromNumber(Dimension.Mass, def, x);
  }

  /** A string, list, dict or a unit of another dimension (a length, say) is refused. */
  lemma RejectsForeignInput(def: UnitDef, input: Input)
    requires def in Units
    requires input.Other? || (input.Qty? && input.dim != Dimension.Mass)
    ensures InitialValue(Dimension.Mass, def, input) == Err(TypeError)
  {
  }

  /** The kilogram is the base, and tonne and gram scale by a thousand either way. */
  lemma MetricMasses(v: real)
    ensures BaseOf(KiloGram, v) == v
    ensures BaseOf(KiloGram, 1000.0) == BaseOf(Tonne, 1.0)
    ensures BaseOf(Gram, 1000.0) == BaseOf(KiloGram, 1.0)
  {
  }

  /** The imperial units against one another, to the places the comparisons use. */
  lemma ImperialMasses()
    ensures -0.000005 < BaseOf(KiloGram, 1.0) - BaseOf(Pound, 2.204623) < 0.000005
    ensures -0.0005 < BaseOf(Pound, 2240.0) - BaseOf(Ton, 1.0) < 0.0005
    ensures -0.00005 < BaseOf(Pound, 2000.0) - BaseOf(ShortTon, 1.0) < 0.00005
    ensures -0.000005 < BaseOf(Pound, 1.0) - BaseOf(Ounce, 16.0) < 0.000005
    ensures BaseOf(Pound, 1.0) != BaseOf(Ounce, 16.0)
  {
  }

  /** Gram(KiloGram(1)) holds 1000. */
  method GramFromKiloGram() returns (grams: real)
    ensures grams == 1000.0
  {
    var kg := New(KiloGram, Num(1.0));
    var g := New(Gram, kg.value.AsInput());
    grams := g.value.value;
  }

  /** KiloGram(Gram(1)) holds 0.001. */
  method KiloGramFromGram() returns (kilograms: real)
    ensures kilograms == 0.001
  {
    var g := New(Gram, Num(1.0));
    var kg := New(KiloGram, g.value.AsInput());
    kilograms := kg.value.value;
  }

  // ---------------------------------------------------------------------------
  // SI-prefix rows
  // ---------------------------------------------------------------------------

  /** The generated class name, "{prefix name}Meter" as the library formats it. */
  function PrefixName(p: Prefix): string
  {
    p.name + "Meter"
  }

  /** The row of one prefix: base10 is divided by 1e3, since the base unit is already a kilo unit. */
  function PrefixRow(p: Prefix): UnitDef
  {
    Prefixes.Row(p, 1000.0, PrefixName)
  }

  /**
   * The module-level loop: every prefix but "Kilo" yields a row whose to_base
   * factor is base10 / 1e3; the "Kilo" row is skipped.
   */
  method PrefixUnits(ps: seq<Prefix>) returns (rows: seq<UnitDef>)
    ensures forall p :: p in ps && p.name != "Kilo" ==> PrefixRow(p) in rows
    ensures forall u :: u in rows ==> exists p :: p in ps && p.name != "Kilo" && u == PrefixRow(p)
    ensures forall u :: u in rows ==> u.toBase.offset == 0.0 && u.fromBase == None
  {
    rows := Generate(ps, Some("Kilo"), 1000.0, PrefixName);
    forall u | true
      ensures u in rows <==> exists p :: p in ps && !Skipped(p, Some("Kilo")) && u == PrefixRow(p)
    {
      InTable(ps, Some("Kilo"), 1000.0, PrefixName, u);
    }
  }

  /** A prefixed gram: v of it weighs as much as v * base10 grams. */
  lemma PrefixedGram(p: Prefix, v: real)
    ensures BaseOf(PrefixRow(p), v) == BaseOf(Gram, p.base10 * v)
  {
    assert (p.base10 / 1000.0) * v == 0.001 * (p.base10 * v);
  }

  /** A prefixed unit built from KiloGram(m) holds m * 1e3 / base10. */
  lemma PrefixedFromKiloGram(p: Prefix, m: real)
    requires p.base10 > 0.0
    ensures InitialValue(Dimension.Mass, PrefixRow(p), Qty(Dimension.Mass, BaseOf(KiloGram, m)))
      == Ok(m * 1000.0 / p.base10)
  {
    var b := p.base10;
    assert BaseOf(KiloGram, m) == m;
    assert InitialValue(Dimension.Mass, PrefixRow(p), Qty(Dimension.Mass, m)) == Ok(Apply(FromBase(PrefixRow(p)), m));
    assert PrefixRow(p).toBase == Affine(b / 1000.0, 0.0);
    assert 1.0 / (b / 1000.0) == 1000.0 / b;
    assert FromBase(PrefixRow(p)) == Affine(1000.0 / b, -(0.0 / (b / 1000.0)));
    assert (1000.0 / b) * m + -(0.0 / (b / 1000.0)) == m * 1000.0 / b;
    assert Apply(FromBase(PrefixRow(p)), m) == m * 1000.0 / b;
  }
}
