/**
 * Propellants and the classification of a propellant list into a tank type, shared by the
 * rocket and parts packages.
 */
module Propellants {
  import opened Wrappers

  /** The propellants of the game (their densities are never used by the mass model). */
  datatype Propellant = LiquidFuel | Oxidizer | SolidFuel | Monopropellant | XenonGas

  /** BaseThruster.DEFAULT_PROPELLANTS and BaseTank.DEFAULT_PROPELLANTS. */
  const DEFAULT_PROPELLANTS: seq<Propellant> := [LiquidFuel, Oxidizer]

  /** determinePropellants: an empty list stands for the default liquid fuel and oxidizer. */
  function DeterminePropellants(ps: seq<Propellant>): (r: seq<Propellant>)
    ensures r != []
    ensures ps != [] ==> r == ps
    ensures ps == [] ==> r == DEFAULT_PROPELLANTS
  {
    if |ps| > 0 then ps else DEFAULT_PROPELLANTS
  }

  /**
   * combinePropellants of two parts: the first list followed by those propellants of the
   * second that it does not already hold.
   */
  function Combine(a: seq<Propellant>, b: seq<Propellant>): (r: seq<Propellant>)
    ensures forall p {:trigger p in r} :: p in r <==> p in a || p in b
    ensures |a| <= |r| && r[..|a|] == a
    decreases |b|
  {
    if b == [] then a
    else
      var c := Combine(a, b[..|b| - 1]);
      if b[|b| - 1] in c then c else c + [b[|b| - 1]]
  }

  /** combinePropellants over any number of parts, left to right. */
  function CombineAll(lists: seq<seq<Propellant>>): (r: seq<Propellant>)
    ensures forall p {:trigger p in r} :: p in r <==> exists i :: 0 <= i < |lists| && p in lists[i]
  {
    if lists == [] then []
    else
      var init := lists[..|lists| - 1];
      var r := Combine(CombineAll(init), lists[|lists| - 1]);
      assert forall i :: 0 <= i < |init| ==> init[i] == lists[i];
      r
  }

  /** The tank types; Auto asks the constructor to classify the propellants itself. */
  datatype TankType = LiquidFuelAndOxidizerTank | MonopropellantTank | NoTankType | Auto

  /** The propellants a tank can currently be classified by. */
  predicate Supported(p: Propellant)
  {
    p == LiquidFuel || p == Oxidizer || p == Monopropellant
  }

  /**
   * Tank.determineTankType: any unsupported propellant is rejected, monopropellant may not be
   * mixed with liquid fuel or oxidizer, liquid fuel with oxidizer is a liquid-fuel tank,
   * monopropellant alone a monopropellant tank, and everything else is rejected.
   */
  function Classify(ps: seq<Propellant>): Result<TankType>
  {
    if exists i :: 0 <= i < |ps| && !Supported(ps[i]) then Err(UnsupportedPropellant)
    else if Monopropellant in ps && (LiquidFuel in ps || Oxidizer in ps) then Err(InvalidPropellantCombination)
    else if LiquidFuel in ps && Oxidizer in ps then Ok(LiquidFuelAndOxidizerTank)
    else if Monopropellant in ps then Ok(MonopropellantTank)
    else Err(InvalidPropellantCombination)
  }

  /** The type a part with these propellants reports; NoTankType where classification fails. */
  function TypeOf(ps: seq<Propellant>): (t: TankType)
    ensures t != Auto
    ensures Classify(ps).Ok? ==> t == Classify(ps).value
    ensures Classify(ps).Err? ==> t == NoTankType
  {
    match Classify(ps)
    case Ok(t) => t
    case Err(_) => NoTankType
  }

  /** A list is a liquid-fuel tank exactly when it holds only supported propellants, both LF and OX, and no MP. */
  lemma ClassifyLiquidFuelAndOxidizer(ps: seq<Propellant>)
    ensures Classify(ps) == Ok(LiquidFuelAndOxidizerTank) <==>
      (forall p :: p in ps ==> Supported(p)) && LiquidFuel in ps && Oxidizer in ps && Monopropellant !in ps
  {
  }

  /** A list is a monopropellant tank exactly when it holds monopropellant and nothing else. */
  lemma ClassifyMonopropellant(ps: seq<Propellant>)
    ensures Classify(ps) == Ok(MonopropellantTank) <==> Monopropellant in ps && forall p :: p in ps ==> p == Monopropellant
  {
    if Monopropellant in ps && forall p :: p in ps ==> p == Monopropellant {
      forall i | 0 <= i < |ps|
        ensures Supported(ps[i])
      {
        assert ps[i] in ps;
      }
    }
  }

  /** Classification never yields NoTankType or Auto, and the rejected lists of the source's comments are rejected. */
  lemma ClassifyRejects()
    ensures Classify([]) == Err(InvalidPropellantCombination)
    ensures Classify([LiquidFuel]) == Err(InvalidPropellantCombination)
    ensures Classify([Oxidizer, Oxidizer]) == Err(InvalidPropellantCombination)
    ensures Classify([Monopropellant, LiquidFuel]) == Err(InvalidPropellantCombination)
    ensures Classify([LiquidFuel, SolidFuel, Monopropellant]) == Err(UnsupportedPropellant)
    ensures Classify(DEFAULT_PROPELLANTS) == Ok(LiquidFuelAndOxidizerTank)
    ensures forall ps :: Classify(ps).Ok? ==> Classify(ps).value != NoTankType && Classify(ps).value != Auto
  {
    assert !Supported([LiquidFuel, SolidFuel, Monopropellant][1]);
  }

  /** Classification depends only on which propellants occur, not on their order or multiplicity. */
  lemma ClassifyBySet(a: seq<Propellant>, b: seq<Propellant>)
    requires forall p :: p in a <==> p in b
    ensures Classify(a) == Classify(b)
  {
    var badA := exists i :: 0 <= i < |a| && !Supported(a[i]);
    var badB := exists i :: 0 <= i < |b| && !Supported(b[i]);
    if badA {
      var i :| 0 <= i < |a| && !Supported(a[i]);
      assert a[i] in b;
    }
    if badB {
      var i :| 0 <= i < |b| && !Supported(b[i]);
      assert b[i] in a;
    }
  }
}
