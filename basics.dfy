/**
 * The conversion and arithmetic engine shared by every unit type: an affine
 * conversion with in-place inversion, and the generic unit value that keeps its
 * base value in step with its own value through a single setter.
 */
module Basics {

  /** The dimension tag; in the library it is the dimension superclass itself. */
  datatype Dimension = Length | Temperature | Mass | Current | Substance | Luminous

  /** The exceptions the core raises. */
  datatype Error = TypeError | ZeroDivisionError

  datatype Option<T> = None | Some(value: T)

  /** A value, or the exception raised instead of producing it. */
  datatype Result<T> = Ok(value: T) | Err(error: Error)

  /** The outcome of an operation that returns nothing but may raise. */
  datatype Outcome = Pass | Fail(error: Error)

  // ---------------------------------------------------------------------------
  // Affine maps: the value semantics of a Conversion
  // ---------------------------------------------------------------------------

  /** The map x |-> factor * x + offset. */
  datatype Affine = Affine(factor: real, offset: real)

  /** The map of a default-constructed Conversion. */
  const Identity := Affine(1.0, 0.0)

  /** What `Conversion.convert` computes. */
  function Apply(a: Affine, x: real): (y: real)
    ensures a.factor == 0.0 ==> y == a.offset
    ensures a == Identity ==> y == x
  {
    a.factor * x + a.offset
  }

  /** The map an inversion leaves behind: (1/factor, -offset/factor). */
  function Inverse(a: Affine): Affine
    requires a.factor != 0.0
  {
    Affine(1.0 / a.factor, -(a.offset / a.factor))
  }

  /** The inverted map undoes the original, on either side. */
  lemma InverseUndoes(a: Affine, x: real)
    requires a.factor != 0.0
    ensures Apply(Inverse(a), Apply(a, x)) == x
    ensures Apply(a, Apply(Inverse(a), x)) == x
  {
    var f, o := a.factor, a.offset;
    calc {
      Apply(Inverse(a), Apply(a, x));
      (1.0 / f) * (f * x + o) - o / f;
      { assert (1.0 / f) * (f * x) == x; assert (1.0 / f) * o == o / f; }
      x;
    }
    calc {
      Apply(a, Apply(Inverse(a), x));
      f * ((1.0 / f) * x - o / f) + o;
      { assert f * ((1.0 / f) * x) == x; assert f * (o / f) == o; }
      x;
    }
  }

  /** Inverting twice gives back the original factor and offset. */
  lemma InverseInvolutive(a: Affine)
    requires a.factor != 0.0
    ensures Inverse(a).factor != 0.0
    ensures Inverse(Inverse(a)) == a
  {
    var f, o := a.factor, a.offset;
    assert (1.0 / f) * f == 1.0;
    assert 1.0 / (1.0 / f) == f;
    assert (o / f) / (1.0 / f) == o;
  }

  // ---------------------------------------------------------------------------
  // Conversion
  // ---------------------------------------------------------------------------

  /** A mutable affine conversion; `Conversion()` with no arguments is the identity. */
  class Conversion {
    var factor: real
    var offset: real

    constructor (factor: real, offset: real)
      ensures this.factor == factor && this.offset == offset
    {
      this.factor := factor;
      this.offset := offset;
    }

    /** The affine map this object currently stands for. */
    function Map(): Affine
      reads this
    {
      Affine(factor, offset)
    }

    /** `convert`: the map of the object's current factor and offset, applied to x. */
    function Convert(x: real): (y: real)
      reads this
      ensures y == Apply(Map(), x)
      ensures factor == 0.0 ==> y == offset
    {
      Apply(Map(), x)
    }

    /** A shallow copy, as `copy.copy` makes one. */
    method Copy() returns (c: Conversion)
      ensures fresh(c) && c.Map() == Map()
    {
      c := new Conversion(factor, offset);
    }

    /**
     * `~conversion`: overwrites offset, then factor, in place and returns this
     * same object. A zero factor makes the source divide by zero.
     */
    method Invert() returns (self: Conversion)
      requires factor != 0.0
      modifies this
      ensures self == this
      ensures factor == 1.0 / old(factor) && offset == -(old(offset) / old(factor))
      ensures Map() == Inverse(old(Map()))
    {
      offset := -(offset / factor);
      factor := 1.0 / factor;
      self := this;
    }
  }

  // ---------------------------------------------------------------------------
  // Unit definitions and construction input
  // ---------------------------------------------------------------------------

  /**
   * The constants a concrete unit class passes to its dimension's constructor:
   * name, symbol, to_base, and from_base when it is given explicitly.
   */
  datatype UnitDef = UnitDef(name: string, symbol: string, toBase: Affine, fromBase: Option<Affine>)

  /** The default from_base can be formed; otherwise inverting to_base divides by zero. */
  predicate HasFromBase(def: UnitDef)
  {
    def.fromBase.Some? || def.toBase.factor != 0.0
  }

  /** from_base: the explicit one, or by default the inverse of to_base. */
  function FromBase(def: UnitDef): Affine
    requires HasFromBase(def)
  {
    if def.fromBase.Some? then def.fromBase.value else Inverse(def.toBase)
  }

  /** from_base is the true inverse of to_base. */
  predicate RoundTrips(def: UnitDef)
  {
    def.toBase.factor != 0.0 && FromBase(def) == Inverse(def.toBase)
  }

  /** The base value of this unit holding `v`. */
  function BaseOf(def: UnitDef, v: real): real
  {
    Apply(def.toBase, v)
  }

  /**
   * What a dimension constructor or an arithmetic operator is given: a plain
   * number, a unit (of which only its dimension and base value are read), or
   * anything else (a string, a list, a dict).
   */
  datatype Input = Num(x: real) | Qty(dim: Dimension, baseValue: real) | Other

  /**
   * The value the dimension constructor stores, or the exception it raises:
   * a number is stored directly, a unit of the same dimension is converted
   * from its base value through from_base, anything else is a TypeError.
   */
  function InitialValue(dim: Dimension, def: UnitDef, input: Input): (r: Result<real>)
    ensures !HasFromBase(def) ==> r == Err(ZeroDivisionError)
    ensures HasFromBase(def) ==> (r.Ok? <==> input.Num? || (input.Qty? && input.dim == dim))
    ensures HasFromBase(def) && r.Err? ==> r.error == TypeError
    ensures r.Ok? && input.Num? ==> r.value == input.x
  {
    if !HasFromBase(def) then Err(ZeroDivisionError)
    else match input
      case Num(x) => Ok(x)
      case Qty(d, b) => if d == dim then Ok(Apply(FromBase(def), b)) else Err(TypeError)
      case Other => Err(TypeError)
  }

  /** A unit that only scales, with the default from_base, stores a number as is. */
  lemma ScalingFromNumber(dim: Dimension, def: UnitDef, x: real)
    requires def.toBase.factor != 0.0 && def.toBase.offset == 0.0
    ensures InitialValue(dim, def, Num(x)) == Ok(x)
    ensures BaseOf(def, x) == def.toBase.factor * x
  {
  }

  /** Converting from a unit of the same dimension keeps its base value. */
  lemma ConvertingKeepsBase(dim: Dimension, def: UnitDef, b: real)
    requires RoundTrips(def)
    ensures InitialValue(dim, def, Qty(dim, b)).Ok?
    ensures BaseOf(def, InitialValue(dim, def, Qty(dim, b)).value) == b
  {
    InverseUndoes(def.toBase, b);
  }

  /**
   * A(B(A(v))).value == v: converting a value to another unit of the same
   * dimension and back reproduces it.
   */
  lemma RoundTripThroughOtherUnit(dim: Dimension, a: UnitDef, b: UnitDef, v: real)
    requires RoundTrips(a) && RoundTrips(b)
    ensures InitialValue(dim, b, Qty(dim, BaseOf(a, v))).Ok?
    ensures InitialValue(dim, a, Qty(dim, BaseOf(b, InitialValue(dim, b, Qty(dim, BaseOf(a, v))).value))) == Ok(v)
  {
    ConvertingKeepsBase(dim, b, BaseOf(a, v));
    InverseUndoes(a.toBase, v);
  }

  // ---------------------------------------------------------------------------
  // The numeric builtins the operators delegate to
  // ---------------------------------------------------------------------------

  /** `math.floor`. */
  function Floor(v: real): (k: int)
    ensures k as real <= v < k as real + 1.0
  {
    v.Floor
  }

  /** `math.ceil`. */
  function Ceil(v: real): (k: int)
    ensures k as real - 1.0 < v <= k as real
  {
    -((-v).Floor)
  }

  /** `int(x)`: truncation toward zero. */
  function Truncate(v: real): (k: int)
    ensures v >= 0.0 ==> 0 <= k && k as real <= v < k as real + 1.0
    ensures v < 0.0 ==> k <= 0 && k as real - 1.0 < v <= k as real
  {
    if v >= 0.0 then v.Floor else -((-v).Floor)
  }

  /** `round(x)` with no digits: nearest integer, ties to the even one. */
  function RoundHalfEven(v: real): (k: int)
    ensures -0.5 <= v - k as real <= 0.5
    ensures (v - k as real == 0.5 || v - k as real == -0.5) ==> k % 2 == 0
  {
    var f := v.Floor;
    var d := v - f as real;
    if d < 0.5 then f
    else if d > 0.5 then f + 1
    else if f % 2 == 0 then f
    else f + 1
  }

  // ---------------------------------------------------------------------------
  // BaseUnit
  // ---------------------------------------------------------------------------

  /**
   * A quantity in one unit: its dimension, the constants of its concrete unit
   * class (what `type(self)` stands for), its two conversions, its value in its
   * own scale and its value in the dimension's base unit.
   */
  class BaseUnit {
    const dim: Dimension
    const def: UnitDef
    const toBase: Conversion
    const fromBase: Conversion
    var value: real
    var baseValue: real

    /** The conversion objects are distinct and agree with the unit's constants. */
    ghost predicate Wired()
      reads this, toBase, fromBase
    {
      && toBase != fromBase
      && HasFromBase(def)
      && toBase.Map() == def.toBase
      && fromBase.Map() == FromBase(def)
    }

    /** The class invariant the value setter re-establishes. */
    ghost predicate Valid()
      reads this, toBase, fromBase
    {
      Wired() && baseValue == Apply(toBase.Map(), value)
    }

    /**
     * BaseUnit.__init__: stores the conversions, and by default a fresh inverted
     * copy of to_base as from_base; value and base value start at 0.0 without
     * going through the setter.
     */
    constructor (dim: Dimension, def: UnitDef, toBase: Conversion, fromBase: Conversion?)
      requires fromBase != null || toBase.factor != 0.0
      requires fromBase != toBase
      ensures this.dim == dim && this.def == def && this.toBase == toBase
      ensures fromBase != null ==> this.fromBase == fromBase
      ensures fromBase == null ==> fresh(this.fromBase) && this.fromBase.Map() == Inverse(toBase.Map())
      ensures value == 0.0 && baseValue == 0.0
    {
      var inverse: Conversion;
      if fromBase != null {
        inverse := fromBase;
      } else {
        var copy := toBase.Copy();
        inverse := copy.Invert();
      }
      this.dim := dim;
      this.def := def;
      this.toBase := toBase;
      this.fromBase := inverse;
      value := 0.0;
      baseValue := 0.0;
    }

    /** The snapshot of this unit that constructors and operators read. */
    function AsInput(): Input
      reads this
    {
      Qty(dim, baseValue)
    }

    /** The `value` setter: the only path that changes value and base value. */
    method SetValue(v: real)
      requires Wired()
      modifies this
      ensures Valid()
      ensures value == v && baseValue == BaseOf(def, v)
    {
      value := v;
      baseValue := toBase.Convert(value);
    }

    /** `+unit` returns the receiver itself. */
    method Pos() returns (self: BaseUnit)
      ensures self == this
    {
      self := this;
    }

    /** `-unit` negates the receiver in place and returns it. */
    method Neg() returns (self: BaseUnit)
      requires Valid()
      modifies this
      ensures self == this && Valid()
      ensures value == -old(value)
    {
      SetValue(-value);
      self := this;
    }

    /** `abs(unit)` makes the receiver's value non-negative in place and returns it. */
    method Abs() returns (self: BaseUnit)
      requires Valid()
      modifies this
      ensures self == this && Valid()
      ensures value >= 0.0 && (value == old(value) || value == -old(value))
    {
      SetValue(if value < 0.0 then -value else value);
      self := this;
    }

    /** `round(unit)` without digits: ties to even, in place. */
    method Round() returns (self: BaseUnit)
      requires Valid()
      modifies this
      ensures self == this && Valid()
      ensures value == RoundHalfEven(old(value)) as real
    {
      SetValue(RoundHalfEven(value) as real);
      self := this;
    }

    /** `math.floor(unit)` in place. */
    method FloorInPlace() returns (self: BaseUnit)
      requires Valid()
      modifies this
      ensures self == this && Valid()
      ensures value == Floor(old(value)) as real
      ensures value <= old(value) < value + 1.0
    {
      SetValue(Floor(value) as real);
      self := this;
    }

    /** `math.ceil(unit)` in place. */
    method CeilInPlace() returns (self: BaseUnit)
      requires Valid()
      modifies this
      ensures self == this && Valid()
      ensures value == Ceil(old(value)) as real
      ensures value - 1.0 < old(value) <= value
    {
      SetValue(Ceil(value) as real);
      self := this;
    }

    /** `float(unit)`: the value in the unit's own scale. */
    function ToFloat(): (r: real)
      reads this, toBase, fromBase
      ensures Valid() ==> BaseOf(def, r) == baseValue
    {
      value
    }

    /** `int(unit)`: the value truncated toward zero; nothing changes. */
    function ToInt(): (k: int)
      reads this
      ensures value >= 0.0 ==> 0 <= k && k as real <= value < k as real + 1.0
      ensures value < 0.0 ==> k <= 0 && k as real - 1.0 < value <= k as real
    {
      Truncate(value)
    }

    /**
     * `unit + other`. A number is added to the receiver in place and the
     * receiver is returned. A unit of the same dimension yields a new object of
     * the receiver's class whose raw value is the sum of the two BASE values.
     * A unit of another dimension, or anything else, is a TypeError.
     */
    method Add(other: Input) returns (r: Result<BaseUnit>)
      requires Valid()
      modifies this
      ensures Valid()
      ensures other.Num? ==> r == Ok(this) && value == old(value) + other.x
      ensures !other.Num? ==> unchanged(this)
      ensures other.Qty? && other.dim == dim ==>
        r.Ok? && fresh(r.value) && fresh(r.value.toBase) && fresh(r.value.fromBase)
        && r.value.Valid() && r.value.dim == dim && r.value.def == def
        && r.value.value == old(baseValue) + other.baseValue
      ensures (other.Qty? && other.dim != dim) || other.Other? ==> r == Err(TypeError)
    {
      match other {
        case Num(x) =>
          SetValue(value + x);
          r := Ok(this);
        case Qty(d, b) =>
          if d != dim {
            r := Err(TypeError);
          } else {
            r := Construct(dim, def, Num(baseValue + b));
          }
        case Other =>
          r := Err(TypeError);
      }
    }

    /** `unit - other`, the mirror of Add. */
    method Sub(other: Input) returns (r: Result<BaseUnit>)
      requires Valid()
      modifies this
      ensures Valid()
      ensures other.Num? ==> r == Ok(this) && value == old(value) - other.x
      ensures !other.Num? ==> unchanged(this)
      ensures other.Qty? && other.dim == dim ==>
        r.Ok? && fresh(r.value) && fresh(r.value.toBase) && fresh(r.value.fromBase)
        && r.value.Valid() && r.value.dim == dim && r.value.def == def
        && r.value.value == old(baseValue) - other.baseValue
      ensures (other.Qty? && other.dim != dim) || other.Other? ==> r == Err(TypeError)
    {
      match other {
        case Num(x) =>
          SetValue(value - x);
          r := Ok(this);
        case Qty(d, b) =>
          if d != dim {
            r := Err(TypeError);
          } else {
            r := Construct(dim, def, Num(baseValue - b));
          }
        case Other =>
          r := Err(TypeError);
      }
    }

    /**
     * Add as evidently intended: the new object is built from the base-value
     * sum through from_base, so it holds that sum as its base value.
     */
    method AddConverted(other: Input) returns (r: Result<BaseUnit>)
      requires Valid()
      modifies this
      ensures Valid()
      ensures other.Num? ==> r == Ok(this) && value == old(value) + other.x
      ensures !other.Num? ==> unchanged(this)
      ensures other.Qty? && other.dim == dim ==>
        r.Ok? && fresh(r.value) && fresh(r.value.toBase) && fresh(r.value.fromBase)
        && r.value.Valid() && r.value.dim == dim && r.value.def == def
        && r.value.value == Apply(FromBase(def), old(baseValue) + other.baseValue)
      ensures other.Qty? && other.dim == dim && RoundTrips(def) ==>
        r.Ok? && r.value.baseValue == old(baseValue) + other.baseValue
      ensures (other.Qty? && other.dim != dim) || other.Other? ==> r == Err(TypeError)
    {
      match other {
        case Num(x) =>
          SetValue(value + x);
          r := Ok(this);
        case Qty(d, b) =>
          if d != dim {
            r := Err(TypeError);
          } else {
            var sum := baseValue + b;
            r := Construct(dim, def, Qty(dim, sum));
            if RoundTrips(def) {
              ConvertingKeepsBase(dim, def, sum);
            }
          }
        case Other =>
          r := Err(TypeError);
      }
    }

    /** Sub as evidently intended, the mirror of AddConverted. */
    method SubConverted(other: Input) returns (r: Result<BaseUnit>)
      requires Valid()
      modifies this
      ensures Valid()
      ensures other.Num? ==> r == Ok(this) && value == old(value) - other.x
      ensures !other.Num? ==> unchanged(this)
      ensures other.Qty? && other.dim == dim ==>
        r.Ok? && fresh(r.value) && fresh(r.value.toBase) && fresh(r.value.fromBase)
        && r.value.Valid() && r.value.dim == dim && r.value.def == def
        && r.value.value == Apply(FromBase(def), old(baseValue) - other.baseValue)
      ensures other.Qty? && other.dim == dim && RoundTrips(def) ==>
        r.Ok? && r.value.baseValue == old(baseValue) - other.baseValue
      ensures (other.Qty? && other.dim != dim) || other.Other? ==> r == Err(TypeError)
    {
      match other {
        case Num(x) =>
          SetValue(value - x);
          r := Ok(this);
        case Qty(d, b) =>
          if d != dim {
            r := Err(TypeError);
          } else {
            var diff := baseValue - b;
            r := Construct(dim, def, Qty(dim, diff));
            if RoundTrips(def) {
              ConvertingKeepsBase(dim, def, diff);
            }
          }
        case Other =>
          r := Err(TypeError);
      }
    }

    /**
     * `unit += other`: a number is added to the value; a unit of the same
     * dimension makes the value from_base of the base-value sum. Returns nothing.
     */
    method IAdd(other: Input) returns (o: Outcome)
      requires Valid()
      modifies this
      ensures Valid()
      ensures other.Num? ==> o == Pass && value == old(value) + other.x
      ensures other.Qty? && other.dim == dim ==>
        o == Pass && value == Apply(FromBase(def), old(baseValue) + other.baseValue)
      ensures other.Qty? && other.dim == dim && RoundTrips(def) ==>
        baseValue == old(baseValue) + other.baseValue
      ensures (other.Qty? && other.dim != dim) || other.Other? ==>
        o == Fail(TypeError) && unchanged(this)
    {
      match other {
        case Num(x) =>
          SetValue(value + x);
          o := Pass;
        case Qty(d, b) =>
          if d != dim {
            o := Fail(TypeError);
          } else {
            var sum := baseValue + b;
            SetValue(fromBase.Convert(sum));
            if RoundTrips(def) {
              InverseUndoes(def.toBase, sum);
            }
            o := Pass;
          }
        case Other =>
          o := Fail(TypeError);
      }
    }

    /** `unit -= other`, the mirror of IAdd. */
    method ISub(other: Input) returns (o: Outcome)
      requires Valid()
      modifies this
      ensures Valid()
      ensures other.Num? ==> o == Pass && value == old(value) - other.x
      ensures other.Qty? && other.dim == dim ==>
        o == Pass && value == Apply(FromBase(def), old(baseValue) - other.baseValue)
      ensures other.Qty? && other.dim == dim && RoundTrips(def) ==>
        baseValue == old(baseValue) - other.baseValue
      ensures (other.Qty? && other.dim != dim) || other.Other? ==>
        o == Fail(TypeError) && unchanged(this)
    {
      match other {
        case Num(x) =>
          SetValue(value - x);
          o := Pass;
        case Qty(d, b) =>
          if d != dim {
            o := Fail(TypeError);
          } else {
            var diff := baseValue - b;
            SetValue(fromBase.Convert(diff));
            if RoundTrips(def) {
              InverseUndoes(def.toBase, diff);
            }
            o := Pass;
          }
        case Other =>
          o := Fail(TypeError);
      }
    }
  }

  /** A constructed unit: valid, of the given dimension and class, holding `v`. */
  ghost predicate Holds(u: BaseUnit, dim: Dimension, def: UnitDef, v: real)
    reads u, u.toBase, u.fromBase
  {
    u.Valid() && u.dim == dim && u.def == def && u.value == v
  }

  /**
   * The dimension constructor shared by every dimension class: BaseUnit.__init__
   * (which raises ZeroDivisionError when the default from_base cannot be
   * formed), then the three-way dispatch on the input, storing through the setter.
   */
  method Construct(dim: Dimension, def: UnitDef, input: Input) returns (r: Result<BaseUnit>)
    ensures match InitialValue(dim, def, input)
      case Err(e) => r == Err(e)
      case Ok(v) =>
        r.Ok? && fresh(r.value) && fresh(r.value.toBase) && fresh(r.value.fromBase)
        && Holds(r.value, dim, def, v)
  {
    if !HasFromBase(def) {
      return Err(ZeroDivisionError);
    }
    var toBase := new Conversion(def.toBase.factor, def.toBase.offset);
    var fromBase: Conversion? := null;
    if def.fromBase.Some? {
      fromBase := new Conversion(def.fromBase.value.factor, def.fromBase.value.offset);
    }
    var u := new BaseUnit(dim, def, toBase, fromBase);
    match input {
      case Num(x) =>
        u.SetValue(x);
        r := Ok(u);
      case Qty(d, b) =>
        if d == dim {
          u.SetValue(u.fromBase.Convert(b));
          r := Ok(u);
        } else {
          r := Err(TypeError);
        }
      case Other =>
        r := Err(TypeError);
    }
  }
}
