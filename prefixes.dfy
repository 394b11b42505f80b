/**
 * The SI-prefix rows that the mass, current and substance modules turn into unit
 * classes at load time. The list of prefixes itself is a parameter: a sequence
 * of (name, symbol, base10) rows.
 */
module Prefixes {
  import opened Basics

  datatype Prefix = Prefix(name: string, symbol: string, base10: real)

  /** The loop's `continue`: the row whose name is the skipped one, if any. */
  predicate Skipped(p: Prefix, skip: Option<string>)
  {
    skip.Some? && p.name == skip.value
  }

  /**
   * The unit one prefix row yields: its name comes from the dimension's naming
   * rule, its symbol is the prefix symbol, to_base scales by base10 / divisor
   * with no offset, and from_base is left to its default.
   */
  function Row(p: Prefix, divisor: real, nameOf: Prefix -> string): UnitDef
    requires divisor != 0.0
  {
    UnitDef(nameOf(p), p.symbol, Affine(p.base10 / divisor, 0.0), None)
  }

  /** The rows the loop produces, in the order of the prefixes. */
  function Table(ps: seq<Prefix>, skip: Option<string>, divisor: real, nameOf: Prefix -> string): seq<UnitDef>
    requires divisor != 0.0
  {
    if ps == [] then []
    else
      var last := ps[|ps| - 1];
      Table(ps[..|ps| - 1], skip, divisor, nameOf)
      + (if Skipped(last, skip) then [] else [Row(last, divisor, nameOf)])
  }

  /** A unit is in the table exactly when some prefix that is not skipped yields it. */
  lemma {:induction false} InTable(ps: seq<Prefix>, skip: Option<string>, divisor: real, nameOf: Prefix -> string, u: UnitDef)
    requires divisor != 0.0
    ensures u in Table(ps, skip, divisor, nameOf) <==>
      exists p :: p in ps && !Skipped(p, skip) && u == Row(p, divisor, nameOf)
  {
    if ps != [] {
      var init, last := ps[..|ps| - 1], ps[|ps| - 1];
      assert ps == init + [last];
      InTable(init, skip, divisor, nameOf, u);
      if u in Table(ps, skip, divisor, nameOf) {
        if u in Table(init, skip, divisor, nameOf) {
          var p :| p in init && !Skipped(p, skip) && u == Row(p, divisor, nameOf);
          assert p in ps;
        } else {
          assert last in ps && !Skipped(last, skip) && u == Row(last, divisor, nameOf);
        }
      } else {
        forall p | p in ps && !Skipped(p, skip)
          ensures u != Row(p, divisor, nameOf)
        {
          if p != last {
            assert p in init;
          }
        }
      }
    }
  }

  /** Every row scales by base10 / divisor of some prefix that is not skipped, with no offset and the default from_base. */
  lemma {:induction false} TableRowsAreScalings(ps: seq<Prefix>, skip: Option<string>, divisor: real, nameOf: Prefix -> string, i: nat)
    requires divisor != 0.0
    requires i < |Table(ps, skip, divisor, nameOf)|
    ensures Table(ps, skip, divisor, nameOf)[i].toBase.offset == 0.0
    ensures Table(ps, skip, divisor, nameOf)[i].fromBase == None
    ensures exists p :: p in ps && !Skipped(p, skip) && Table(ps, skip, divisor, nameOf)[i].toBase.factor == p.base10 / divisor
  {
    var u := Table(ps, skip, divisor, nameOf)[i];
    InTable(ps, skip, divisor, nameOf, u);
  }

  /** Without a skipped row the table has one row per prefix, in the same order. */
  lemma {:induction false} TableWithoutSkip(ps: seq<Prefix>, divisor: real, nameOf: Prefix -> string)
    requires divisor != 0.0
    ensures |Table(ps, None, divisor, nameOf)| == |ps|
    ensures forall i :: 0 <= i < |ps| ==> Table(ps, None, divisor, nameOf)[i] == Row(ps[i], divisor, nameOf)
  {
    if ps != [] {
      var init := ps[..|ps| - 1];
      TableWithoutSkip(init, divisor, nameOf);
    }
  }

  /**
   * The module-level `for` loop: walks the prefixes in order, skips the named
   * row, scales base10 by the divisor and appends the generated unit.
   */
  method Generate(ps: seq<Prefix>, skip: Option<string>, divisor: real, nameOf: Prefix -> string)
    returns (rows: seq<UnitDef>)
    requires divisor != 0.0
    ensures rows == Table(ps, skip, divisor, nameOf)
  {
    rows := [];
    for i := 0 to |ps|
      invariant rows == Table(ps[..i], skip, divisor, nameOf)
    {
      assert ps[..i + 1][..i] == ps[..i];
      var p := ps[i];
      if Skipped(p, skip) {
        continue;
      }
      var base10 := p.base10 / divisor;
      rows := rows + [UnitDef(nameOf(p), p.symbol, Affine(base10, 0.0), None)];
    }
    assert ps[..|ps|] == ps;
  }
}
