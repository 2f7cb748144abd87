/** Tank of the parts package: the tank-type classifier, the expendable mass and the procedural builder. */
module PartsTank {
  import opened Wrappers
  import opened Physics
  import opened Propellants
  import RocketTank

  /**
   * Tank.determineTankType: one pass over the propellants setting a flag per supported kind and
   * rejecting any other kind on sight, followed by the decision on the three flags.
   */
  method DetermineTankType(ps: seq<Propellant>) returns (r: Result<TankType>)
    ensures r == Classify(ps)
  {
    var usingLF, usingOX, usingMP := false, false, false;
    var i := 0;
    while i < |ps|
      invariant 0 <= i <= |ps|
      invariant usingLF <==> LiquidFuel in ps[..i]
      invariant usingOX <==> Oxidizer in ps[..i]
      invariant usingMP <==> Monopropellant in ps[..i]
      invariant forall j :: 0 <= j < i ==> Supported(ps[j])
    {
      assert ps[..i + 1] == ps[..i] + [ps[i]];
      match ps[i] {
        case LiquidFuel => usingLF := true;
        case Oxidizer => usingOX := true;
        case Monopropellant => usingMP := true;
        case _ => return Err(UnsupportedPropellant);
      }
      i := i + 1;
    }
    assert ps[..i] == ps;
    if usingMP && (usingLF || usingOX) {
      return Err(InvalidPropellantCombination);
    }
    if usingLF && usingOX {
      return Ok(LiquidFuelAndOxidizerTank);
    }
    if usingMP {
      return Ok(MonopropellantTank);
    }
    return Err(InvalidPropellantCombination);
  }

  /** A tank: fixed dry and total mass, propellants and type, and a current mass that is used up. */
  class Tank {
    const dryMass: real
    const totalMass: real
    const propellants: seq<Propellant>
    const tankType: TankType
    var mass: real

    /** The protected constructor once the type is known; Tank() is Init(0, 0, NoTankType, []). */
    constructor Init(dryMass: real, totalMass: real, tankType: TankType, ps: seq<Propellant>)
      ensures this.dryMass == dryMass && this.totalMass == totalMass
      ensures this.tankType == tankType && propellants == ps
      ensures mass == totalMass
    {
      this.dryMass := dryMass;
      this.totalMass := totalMass;
      this.tankType := tankType;
      propellants := ps;
      mass := totalMass;
    }

    /** The current mass lies between the dry and the total mass. */
    predicate Valid()
      reads this
    {
      dryMass <= mass <= totalMass
    }

    /** setMass: the mass raised to the dry mass, then lowered to the total mass. */
    method SetMass(m: real)
      modifies this
      ensures mass == Clamp(m, dryMass, totalMass)
      ensures dryMass <= totalMass ==> Valid()
    {
      mass := Clamp(m, dryMass, totalMass);
    }

    /** changeMass(d): setMass(mass + d). */
    method ChangeMass(d: real)
      modifies this
      ensures mass == Clamp(old(mass) + d, dryMass, totalMass)
      ensures dryMass <= totalMass ==> Valid()
    {
      SetMass(mass + d);
    }
  }

  /**
   * The protected constructor Tank(dryMass, totalMass, type, propellants): Type.AUTO classifies
   * the propellants, which rejects lists that are no tank type; any other type is kept.
   */
  method NewTank(dryMass: real, totalMass: real, tankType: TankType, ps: seq<Propellant>) returns (r: Result<Tank>)
    ensures tankType == Auto ==> (r.Ok? <==> Classify(ps).Ok?)
    ensures tankType == Auto && r.Err? ==> r.failure == Classify(ps).failure
    ensures tankType != Auto ==> r.Ok?
    ensures r.Ok? ==> fresh(r.value) && r.value.dryMass == dryMass && r.value.totalMass == totalMass
    ensures r.Ok? ==> r.value.propellants == ps && r.value.mass == totalMass
    ensures r.Ok? ==> r.value.tankType == (if tankType == Auto then Classify(ps).value else tankType)
  {
    var t := tankType;
    if tankType == Auto {
      var c := DetermineTankType(ps);
      if c.Err? {
        return Err(c.failure);
      }
      t := c.value;
    }
    var tank := new Tank.Init(dryMass, totalMass, t, ps);
    r := Ok(tank);
  }

  /**
   * The public constructor Tank(dryMass, totalMass, propellants) as written: it hands Type.AUTO
   * and no propellants on, so the classification sees an empty list and rejects it.
   */
  method PublicTankAsWritten(dryMass: real, totalMass: real, ps: seq<Propellant>) returns (r: Result<Tank>)
    ensures r == Err(InvalidPropellantCombination)
  {
    r := NewTank(dryMass, totalMass, Auto, []);
  }

  /** The public constructor as intended: the propellants are passed on to the classification. */
  method PublicTank(dryMass: real, totalMass: real, ps: seq<Propellant>) returns (r: Result<Tank>)
    ensures r.Ok? <==> Classify(ps).Ok?
    ensures r.Err? ==> r.failure == Classify(ps).failure
    ensures r.Ok? ==> fresh(r.value) && r.value.dryMass == dryMass && r.value.totalMass == totalMass
    ensures r.Ok? ==> r.value.propellants == ps && r.value.tankType == Classify(ps).value && r.value.mass == totalMass
  {
    r := NewTank(dryMass, totalMass, Auto, ps);
  }

  /** Tank.ProceduralBuilder: the sizing of a procedural tank, held until build. */
  datatype ProceduralBuilder = ProceduralBuilder(dryMass: real, totalMass: real, propellants: seq<Propellant>, tankType: TankType)

  /**
   * ProceduralBuilder(totalMass, propellants): the propellants are classified and the dry mass is
   * the type's share of the total (calculateDryMass, the same sizing as the rocket package's
   * ProceduralTank.determineDryMass).
   */
  function NewProceduralBuilder(totalMass: real, ps: seq<Propellant>): (r: Result<ProceduralBuilder>)
    ensures r.Ok? <==> Classify(ps).Ok?
    ensures r.Err? ==> r.failure == Classify(ps).failure
    ensures r.Ok? ==> r.value.totalMass == totalMass && r.value.propellants == ps && r.value.tankType == Classify(ps).value
    ensures r.Ok? && r.value.tankType == LiquidFuelAndOxidizerTank ==> r.value.dryMass == totalMass / 9.0
    ensures r.Ok? && r.value.tankType == MonopropellantTank ==> r.value.dryMass == totalMass / 5.0
    ensures r.Ok? && 0.0 <= totalMass ==> 0.0 <= r.value.dryMass <= totalMass
  {
    match Classify(ps)
    case Err(f) => Err(f)
    case Ok(t) =>
      var dry := RocketTank.DetermineDryMass(totalMass, t);
      assert dry.Ok?;
      Ok(ProceduralBuilder(dry.value, totalMass, ps, t))
  }

  /** ProceduralBuilder.build: a tank with the builder's masses, propellants and type, full. */
  method Build(b: ProceduralBuilder) returns (t: Tank)
    ensures fresh(t)
    ensures t.dryMass == b.dryMass && t.totalMass == b.totalMass && t.propellants == b.propellants
    ensures t.tankType == b.tankType && t.mass == b.totalMass
  {
    t := new Tank.Init(b.dryMass, b.totalMass, b.tankType, b.propellants);
  }
}
