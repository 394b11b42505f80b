# pyUnitTypes in Dafny

A model of the core of pyUnitTypes, a Python library of physical-unit types.
A quantity holds a value in its own unit and keeps a matching base value in the
base unit of its dimension (meter, degree Celsius, kilogram, ampere, mole,
candela). Two affine conversions link the scales: `to_base` maps a value to its
base value, and `from_base` maps a base value back. By default `from_base` is
the inverse of `to_base`.

The model has these modules:

- `Basics` (basics.dfy) covers the core itself:
  - the mutable `Conversion` class and its in-place inversion;
  - the `BaseUnit` class, with its value setter, its unary and rounding operators, its conversions to numbers, and its four additive operators;
  - the constructor shared by every dimension class (`Construct`). It stores a number directly, converts a quantity of the same dimension from that quantity's base value, and raises `TypeError` for anything else.
- `Prefixes` (prefixes.dfy) models the module-level loop that turns the SI-prefix table into unit definitions.
- `LengthUnits`, `TemperatureUnits`, `MassUnits`, `CurrentUnits`, `SubstanceUnits` and `LuminousUnits` cover one dimension each:
  - that dimension's constructor;
  - its unit classes, each given as the constants it passes to the constructor (name, symbol, `to_base`, optional `from_base`);
  - lemmas about those constants;
  - small client methods that replay the library's own test scenarios.

Python floats are modelled as Dafny `real`s, which are exact. A raised
exception is an `Err` value of a `Result`, or a `Fail` value of an `Outcome`
for the in-place operators, which return nothing. A constructor argument or
operand is an `Input`, which is one of:

- `Num(x)`: a Python `int` or `float`;
- `Qty(dim, baseValue)`: another unit, of which the code only reads its dimension and its base value;
- `Other`: a string, list, dict or any other object.

`BaseUnit.AsInput()` gives the `Input` of a live unit.

## Model

| member | source | states |
|---|---|---|
| Basics.Apply | pyUnitTypes/basics.py:46-53 | `convert` computes factor·x + offset. With a zero factor it always yields the offset; the default `Conversion()` (1, 0) is the identity. |
| Basics.InverseUndoes | pyUnitTypes/basics.py:55-60 | For a non-zero factor, the inverted map (1/f, −o/f) undoes the original map on either side, for every x. |
| Basics.InverseInvolutive | pyUnitTypes/basics.py:55-60 | Inverting twice gives back the original factor and offset, and the inverse's factor is again non-zero. |
| Basics.Conversion.Convert | pyUnitTypes/basics.py:46-53 | `convert` on the object is `Apply` of its current factor and offset, so an in-place `Invert` changes what later calls compute; with a zero factor it yields the offset whatever x is. |
| Basics.Conversion.constructor | pyUnitTypes/basics.py:36-44 | The new conversion stores exactly the given factor and offset. |
| Basics.Conversion.Copy | tests/test_basics.py:198-199 | A shallow copy is a fresh object with the same map. Inverting the copy therefore leaves the original alone. |
| Basics.Conversion.Invert | pyUnitTypes/basics.py:55-60 | Requires a non-zero factor, since the source divides by it. Overwrites this object in place with factor 1/f and offset −o/f, which is `Inverse` of the old map, and returns the same object. |
| Basics.InitialValue | pyUnitTypes/length.py:26-32 | The value a dimension constructor stores: a number is stored as is (Ok iff number or same-dimension unit); a same-dimension unit is converted through from_base; anything else is TypeError; no from_base derivable is ZeroDivisionError. |
| Basics.ScalingFromNumber | pyUnitTypes/length.py:26-27 | A unit that only scales stores a number as is, with base value factor·x. |
| Basics.ConvertingKeepsBase | pyUnitTypes/length.py:28-29 | When from_base inverts to_base, building a unit from a same-dimension unit succeeds and reproduces that unit's base value. |
| Basics.RoundTripThroughOtherUnit | pyUnitTypes/length.py:28-29 | A(B(A(v))) holds v again for any two units A and B whose from_base inverts their to_base. |
| Basics.Floor | pyUnitTypes/basics.py:129-133 | `math.floor`: the greatest integer not above v. |
| Basics.Ceil | pyUnitTypes/basics.py:135-139 | `math.ceil`: the least integer not below v. |
| Basics.Truncate | pyUnitTypes/basics.py:146-149 | `int()`: truncation toward zero. The result has the sign of v and lies within 1 of v, on the zero side. |
| Basics.RoundHalfEven | pyUnitTypes/basics.py:123-127 | `round()` with no digits: an integer within 0.5 of v, and the even one on a tie. |
| Basics.BaseUnit.constructor | pyUnitTypes/basics.py:73-98 | Stores the dimension, the unit constants and to_base. Uses an explicit from_base as given; otherwise a fresh in-place inverted copy of to_base. Value and base value start at 0. |
| Basics.BaseUnit.SetValue | pyUnitTypes/basics.py:224-229 | The value setter stores v and recomputes the base value as to_base(v). This re-establishes the class invariant `baseValue == to_base(value)`. |
| Basics.BaseUnit.Pos | pyUnitTypes/basics.py:106-109 | `+u` is u itself. |
| Basics.BaseUnit.Neg | pyUnitTypes/basics.py:111-115 | `-u` negates the value in place, keeps the invariant and returns the same object. |
| Basics.BaseUnit.Abs | pyUnitTypes/basics.py:117-121 | `abs(u)` makes the value non-negative, equal to ±old value, in place; keeps the invariant and returns the same object. |
| Basics.BaseUnit.Round | pyUnitTypes/basics.py:123-127 | `round(u)` sets the value to its round-half-even integer in place. It keeps the invariant and returns the same object. |
| Basics.BaseUnit.FloorInPlace | pyUnitTypes/basics.py:129-133 | `math.floor(u)` sets the value to its floor in place (new ≤ old < new + 1). It keeps the invariant and returns the same object. |
| Basics.BaseUnit.CeilInPlace | pyUnitTypes/basics.py:135-139 | `math.ceil(u)` sets the value to its ceiling in place (new − 1 < old ≤ new). It keeps the invariant and returns the same object. |
| Basics.BaseUnit.ToFloat | pyUnitTypes/basics.py:141-144 | `float(u)` is the value in the unit's own scale, whose image under to_base is the stored base value. |
| Basics.BaseUnit.ToInt | pyUnitTypes/basics.py:146-149 | `int(u)` truncates the value toward zero: the result has the value's sign and lies within 1 of it on the zero side; nothing changes. |
| Basics.BaseUnit.Add | pyUnitTypes/basics.py:151-167 | Number: added to the receiver in place, receiver returned. Same-dimension unit: a fresh object of the receiver's class whose raw value is the base-value sum, receiver unchanged. Other dimension or non-number: TypeError, receiver unchanged. |
| Basics.BaseUnit.Sub | pyUnitTypes/basics.py:169-185 | The mirror of Add: the number is subtracted in place, or a fresh object is built from the base-value difference, or TypeError with nothing changed. |
| Basics.BaseUnit.AddConverted | pyUnitTypes/basics.py:158-164 | Add corrected: a same-dimension sum is built through from_base. The new object holds old base value + other base value whenever from_base inverts to_base. Number and error cases are as in Add. |
| Basics.BaseUnit.SubConverted | pyUnitTypes/basics.py:176-182 | Sub corrected: the new object holds the base-value difference. |
| Basics.BaseUnit.IAdd | pyUnitTypes/basics.py:187-201 | `u += x` adds a number to the value. `u += v` with a same-dimension v sets the value to from_base(base sum), so the base value becomes the sum. Another dimension or a non-number raises TypeError and changes nothing. |
| Basics.BaseUnit.ISub | pyUnitTypes/basics.py:203-217 | `u -= x` and `u -= v`, the mirror of IAdd with the base-value difference. |
| Basics.Construct | pyUnitTypes/length.py:22-32 | The dimension constructor, over BaseUnit.__init__: fails exactly with InitialValue's error; otherwise a fresh unit of that dimension and class, invariant holding, value as InitialValue gives. |
| Prefixes.Generate | pyUnitTypes/mass.py:121-134 | The prefix loop yields exactly `Table`: in order, one row per prefix not skipped, scaled by base10 / divisor, no offset and the default from_base. |
| Prefixes.InTable | pyUnitTypes/mass.py:121-130 | A unit definition is generated iff some prefix that is not skipped yields it. |
| Prefixes.TableRowsAreScalings | pyUnitTypes/mass.py:127-130 | Every generated row is a pure scaling by base10 / divisor of some prefix that is not skipped, with the default from_base. |
| Prefixes.TableWithoutSkip | pyUnitTypes/current.py:52-57 | With no skipped prefix, there is one row per prefix, in the same order. |
| LengthUnits.New | pyUnitTypes/length.py:10-32 | Length.__init__: Construct for the length dimension. |
| LengthUnits.AllRoundTrip | pyUnitTypes/length.py:35-164 | Every length unit's default from_base inverts its to_base. |
| LengthUnits.FromNumber | pyUnitTypes/length.py:26-27 | A length unit built from a number holds it, with base value factor·x. |
| LengthUnits.NoOffsets | pyUnitTypes/length.py:35-164 | No length unit has an offset: each `Conversion` is built from a factor alone. |
| LengthUnits.RejectsForeignInput | pyUnitTypes/length.py:30-32 | A length unit refuses a non-number and a unit of another dimension with TypeError. |
| LengthUnits.MeterIsBase | pyUnitTypes/length.py:56 | The meter's base value is its value. |
| LengthUnits.MetricToMeter | tests/test_length.py:33-39 | One meter equals 1e-3 km, 1e1 dm, 1e2 cm, 1e3 mm, 1e6 µm and 1e9 nm, exactly. |
| LengthUnits.MetricFromMeter | tests/test_length.py:46-52 | One km, dm, cm, mm, µm and nm equal 1e3, 1e-1, 1e-2, 1e-3, 1e-6 and 1e-9 m, exactly. |
| LengthUnits.ImperialExact | tests/test_length.py:53-56 | Mile, foot and inch equal 1.609344 km, 0.3048 m and 25.4 mm exactly. |
| LengthUnits.YardIsApproximate | pyUnitTypes/length.py:140 | The yard's factor 0.914399909 differs from 0.9144 m, though by less than 0.00005 m. |
| LengthUnits.ImperialToFourPlaces | tests/test_length.py:40-43 | The reverse imperial comparisons agree to four places. |
| LengthUnits.CentiMeterFromMeter | tests/test_length.py:14-15 | CentiMeter(Meter(1)) holds 100, with base value 1. |
| LengthUnits.CentiMeterFromCelsius | tests/test_length.py:24-25 | CentiMeter(Celsius(1)) raises TypeError. |
| LengthUnits.NegatedMeter | tests/test_basics.py:14 | −Meter(5) is the same object, with the base value of Meter(−5). |
| LengthUnits.AddNumberToMeter | tests/test_basics.py:33 | Meter(10) + 4.5 returns the receiver, now holding 14.5. |
| LengthUnits.AddStringToMeter | tests/test_basics.py:51-52 | Meter(1) + '1' raises TypeError and leaves the receiver at 1. |
| LengthUnits.AddCentiMeterToMeter | pyUnitTypes/basics.py:163-164 | Meter(1) + CentiMeter(100) is a new Meter holding 2; the left operand keeps 1. |
| LengthUnits.AddCentiMetersAsWritten | pyUnitTypes/basics.py:163-164 | As written, CentiMeter(100) + CentiMeter(100) holds 2, that is 0.02 m. |
| LengthUnits.AddCentiMetersConverted | pyUnitTypes/basics.py:163-164 | Corrected, the same sum holds 200 cm, that is 2 m. |
| LengthUnits.SubCentiMetersAsWritten | pyUnitTypes/basics.py:181-182 | As written, CentiMeter(300) − CentiMeter(100) holds 2, that is 0.02 m. |
| LengthUnits.SubCentiMetersConverted | pyUnitTypes/basics.py:181-182 | Corrected, the same difference holds 200 cm, that is 2 m. |
| LengthUnits.InPlaceAddMeterToCentiMeter | pyUnitTypes/basics.py:193-198 | CentiMeter(100) += Meter(1) succeeds and leaves 200 cm, 2 m, in the receiver. |
| LengthUnits.RoundingMeters | pyUnitTypes/basics.py:123-149 | round(Meter(1.5)) is 2, floor(−1.3) is −2, ceil(−1.3) is −1 and int(−1.3) is −1. |
| TemperatureUnits.New | pyUnitTypes/temperature.py:11-33 | Temperature.__init__: Construct for the temperature dimension. |
| TemperatureUnits.AllRoundTrip | pyUnitTypes/temperature.py:45-70 | Fahrenheit's explicit from_base (1.8, 32) is exactly the inverse of (5/9, −160/9), and every temperature unit round-trips. |
| TemperatureUnits.FahrenheitPairIsInverse | pyUnitTypes/temperature.py:69-70 | Fahrenheit's two conversions undo each other on either side, for every value. |
| TemperatureUnits.FromNumber | pyUnitTypes/temperature.py:27-28 | A temperature unit built from a number holds it. |
| TemperatureUnits.RejectsForeignInput | pyUnitTypes/temperature.py:31-33 | A temperature unit refuses a non-number and a unit of another dimension with TypeError. |
| TemperatureUnits.CelsiusAndKelvin | pyUnitTypes/temperature.py:45-57 | Celsius is the base, and Kelvin's base value is its value less 273.15. |
| TemperatureUnits.EqualTemperatures | tests/test_temperature.py:32-35 | 100 °C = 373.15 K, 101 °C = 213.8 °F, 100 K = −173.15 °C = −279.67 °F, all exactly. |
| TemperatureUnits.FahrenheitHundred | tests/test_temperature.py:36-37 | 100 °F is exactly 340/9 °C, within 0.00005 of 37.77778 °C and of 310.9278 K. |
| TemperatureUnits.KelvinFromCelsius | tests/test_temperature.py:13-14 | Kelvin(Celsius(1)) holds 274.15, with base value 1. |
| TemperatureUnits.FahrenheitFromCelsius | pyUnitTypes/temperature.py:29-30 | Fahrenheit(Celsius(100)) holds 212, through the explicit from_base. |
| MassUnits.New | pyUnitTypes/mass.py:11-33 | Mass.__init__: Construct for the mass dimension. |
| MassUnits.AllRoundTrip | pyUnitTypes/mass.py:36-117 | Every mass unit's default from_base inverts its to_base. |
| MassUnits.FromNumber | pyUnitTypes/mass.py:27-28 | A mass unit built from a number holds it, with base value factor·x. |
| MassUnits.NoOffsets | pyUnitTypes/mass.py:36-117 | No mass unit has an offset: each `Conversion` is built from a factor alone. |
| MassUnits.RejectsForeignInput | pyUnitTypes/mass.py:31-33 | A mass unit refuses a non-number and a unit of another dimension with TypeError. |
| MassUnits.MetricMasses | tests/test_mass.py:32-33 | The kilogram is the base; 1000 kg = 1 t and 1000 g = 1 kg. |
| MassUnits.ImperialMasses | tests/test_mass.py:36-39 | Pound, ton, short ton and ounce against one another agree to the places compared. 16 oz is not exactly 1 lb. |
| MassUnits.GramFromKiloGram | tests/test_mass.py:13 | Gram(KiloGram(1)) holds 1000. |
| MassUnits.KiloGramFromGram | tests/test_mass.py:14 | KiloGram(Gram(1)) holds 0.001. |
| MassUnits.PrefixUnits | pyUnitTypes/mass.py:121-134 | Every prefix but "Kilo" yields its row, named "{name}Meter" with factor base10 / 1e3; every row comes from such a prefix and has no offset. |
| MassUnits.PrefixedGram | pyUnitTypes/mass.py:127-130 | v of a prefixed mass unit weighs as much as v·base10 grams. |
| MassUnits.PrefixedFromKiloGram | pyUnitTypes/mass.py:127-130 | A prefixed mass unit built from KiloGram(m) holds m·1000 / base10. |
| CurrentUnits.New | pyUnitTypes/current.py:11-33 | Current.__init__: Construct for the current dimension. |
| CurrentUnits.RejectsForeignInput | pyUnitTypes/current.py:31-33 | A current unit refuses a non-number and a unit of another dimension with TypeError. |
| CurrentUnits.AmpereIsBase | pyUnitTypes/current.py:48 | The ampere is the base: Ampere(Ampere(x)) holds x. |
| CurrentUnits.PrefixUnits | pyUnitTypes/current.py:52-61 | One row per prefix, in order, named "{symbol}A" with factor base10 and no offset. |
| CurrentUnits.PrefixedFromAmpere | pyUnitTypes/current.py:56-57 | A prefixed current unit built from Ampere(a) holds a / base10. |
| SubstanceUnits.New | pyUnitTypes/substance.py:11-33 | Substance.__init__: Construct for the substance dimension. |
| SubstanceUnits.RejectsForeignInput | pyUnitTypes/substance.py:31-33 | A substance unit refuses a non-number and a unit of another dimension with TypeError. |
| SubstanceUnits.MoleIsBase | pyUnitTypes/substance.py:48 | The mole is the base: Mole(Mole(x)) holds x. |
| SubstanceUnits.PrefixUnits | pyUnitTypes/substance.py:51-60 | One row per prefix, in order, named "{symbol}mol" with factor base10 and no offset. |
| SubstanceUnits.PrefixedFromMole | pyUnitTypes/substance.py:55-56 | A prefixed substance unit built from Mole(m) holds m / base10. |
| LuminousUnits.New | pyUnitTypes/luminous.py:10-32 | Luminous.__init__: Construct for the luminous-intensity dimension. |
| LuminousUnits.FromNumber | pyUnitTypes/luminous.py:26-27 | A candela built from a number holds it, and that number is its base value. |
| LuminousUnits.RejectsForeignInput | pyUnitTypes/luminous.py:30-32 | A candela refuses a non-number and a unit of another dimension with TypeError. |
| LuminousUnits.CandelaFromCandela | pyUnitTypes/luminous.py:28-29 | Candela(Candela(x)) holds x. |

## Where the code and its documentation part ways

- The default `from_base` (basics.py:95-98) is documented as the inversion of `to_base`. The code writes `not to_base`, which is the boolean `False` for any object. The model follows the documented intent, the `~` operator: a fresh copy of `to_base`, inverted in place.
- The dimension constructors call `self.from_base(...)` (for example length.py:29), but the attribute is `_from_base` and it is a `Conversion`. The model applies `_from_base.convert`, which is what the methods `__iadd__` and `__isub__` do.
- With that default, a unit whose `to_base` factor is 0 raises `ZeroDivisionError` on construction. This is `Err(ZeroDivisionError)` in `InitialValue`. No unit of the library has such a factor.
- The class `Gram` passes the name 'KiloGram' (mass.py:69). The model keeps that string.
- The mass prefix loop names its classes "{prefix}Meter" (mass.py:124). The model keeps that naming rule.

## Left out

- Floating point: values are exact reals. Rounding error, `inf`, `nan` and the `float()`/`int` casts of the setter and of `convert` are not modelled. This is why the yard, pound and temperature comparisons are stated as exact or as explicit tolerances.
- Basics.BaseUnit.Round: only `round(u)` without digits. `round(u, n)` to n decimal places is not modelled, because decimal rounding of floats has no exact counterpart over reals.
- `__repr__` and `__str__` (string formatting) are not modelled.
- The abstract `__mul__`, `__div__`, `__imul__` and `__idiv__` are not modelled. Each only returns None.
- Equality and ordering are not defined by the source; the tests' comparisons are stated here over base values. Reflected operators (`4.5 + Meter(2)`) do not exist in the source either.
- Basics.BaseUnit.IAdd, Basics.BaseUnit.ISub: Python rebinds `u += v` and `u -= v` to the operator's result, which is `None` since neither method returns anything. That rebinding belongs to the caller, so the model models only what happens to the receiver.
- The `System`, `BasicTypes` and `ComplexTypes` enumerations are not modelled. The core never reads them.
- `name` and `symbol` are kept only as constants in `UnitDef`; `base_class` is not kept (the core never reads it).
- Every concrete unit class defaults its argument to `float()`, so `KiloMeter()` holds 0; that no-argument call is `New(def, Num(0.0))` here, since Dafny methods have no default arguments.
- Classes are not objects here. Dynamic class creation by `class_factory` and registration through `globals()` become the list of unit definitions that `Prefixes.Generate` returns.
- A generated class in the source shares one `to_base` object across all its instances. The model builds fresh conversion objects for each instance. This is observable only if someone mutates a live unit's conversion, which the core never does.
- `SI_PREFIXES` is a parameter of the prefix loop. Its contents are not part of this model.
- The time dimension (time.py) is not part of this model.
- Basics.Conversion.Invert: requires a non-zero factor. The source raises `ZeroDivisionError` there; the model reports that error one level up, in `InitialValue`.

## Findings

| source | as written | input that shows it | evidently intended | confidence | as-written member | corrected member |
|---|---|---|---|---|---|---|
| pyUnitTypes/basics.py:163-164 | `__add__` with a unit passes the sum of the two base values to the receiver's class as a raw value in that class's own scale | CentiMeter(100) + CentiMeter(100) gives CentiMeter(2): 0.02 m instead of 2 m | the sum in the receiver's unit, CentiMeter(200), as `__iadd__` computes through from_base | not executed | Basics.BaseUnit.Add, LengthUnits.AddCentiMetersAsWritten | Basics.BaseUnit.AddConverted, LengthUnits.AddCentiMetersConverted |
| pyUnitTypes/basics.py:181-182 | `__sub__` with a unit passes the difference of the two base values to the receiver's class as a raw value | CentiMeter(300) − CentiMeter(100) gives CentiMeter(2): 0.02 m instead of 2 m | CentiMeter(200), as `__isub__` computes | not executed | Basics.BaseUnit.Sub, LengthUnits.SubCentiMetersAsWritten | Basics.BaseUnit.SubConverted, LengthUnits.SubCentiMetersConverted |
