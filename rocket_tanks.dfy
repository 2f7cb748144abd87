/** BaseTank, FuelTank and ProceduralTank of the rocket package. */
module RocketTank {
  import opened Wrappers
  import opened Propellants

  /** The fields of a fuel tank, with the type FuelTank reports through getType. */
  datatype FuelTank = FuelTank(dryMass: real, mass: real, propellants: seq<Propellant>, tankType: TankType)

  /** ProceduralTank.LF_OX_MASS_RATIO: dry-to-wet mass of a liquid-fuel procedural tank. */
  const LF_OX_MASS_RATIO: real := 1.0 / 9.0
  /** ProceduralTank.MP_MASS_RATIO: dry-to-wet mass of a monopropellant procedural tank. */
  const MP_MASS_RATIO: real := 1.0 / 5.0

  /**
   * BaseTank(dryMass, mass, propellants) through FuelTank: the propellants go through
   * determinePropellants; the reported type is the classification of the stored propellants.
   */
  function NewFuelTank(dryMass: real, mass: real, ps: seq<Propellant>): (t: FuelTank)
    ensures t.dryMass == dryMass && t.mass == mass
    ensures t.propellants == DeterminePropellants(ps)
    ensures ps != [] ==> t.propellants == ps
    ensures t.tankType == TypeOf(t.propellants)
  {
    var props := DeterminePropellants(ps);
    FuelTank(dryMass, mass, props, TypeOf(props))
  }

  /** BaseTank(mass, propellants): a tank whose dry mass is its mass. */
  function NewFuelTankOfMass(mass: real, ps: seq<Propellant>): (t: FuelTank)
    ensures t.dryMass == mass && t.mass == mass
    ensures t == NewFuelTank(mass, mass, ps)
  {
    NewFuelTank(mass, mass, ps)
  }

  /** ProceduralTank.determineDryMass: a fixed share of the total mass, by tank type; other types are rejected. */
  function DetermineDryMass(totalMass: real, tankType: TankType): (r: Result<real>)
    ensures r.Ok? <==> tankType == LiquidFuelAndOxidizerTank || tankType == MonopropellantTank
    ensures tankType == LiquidFuelAndOxidizerTank ==> r == Ok(totalMass / 9.0)
    ensures tankType == MonopropellantTank ==> r == Ok(totalMass / 5.0)
    ensures r.Err? ==> r.failure == UnsupportedTankType
    ensures r.Ok? && 0.0 <= totalMass ==> 0.0 <= r.value <= totalMass
  {
    match tankType
    case LiquidFuelAndOxidizerTank => Ok(LF_OX_MASS_RATIO * totalMass)
    case MonopropellantTank => Ok(MP_MASS_RATIO * totalMass)
    case _ => Err(UnsupportedTankType)
  }

  /** The private ProceduralTank(totalMass, type, propellants): dry mass from the type it is handed. */
  function ProceduralTankOfType(totalMass: real, tankType: TankType, ps: seq<Propellant>): (r: Result<FuelTank>)
    ensures r.Ok? <==> DetermineDryMass(totalMass, tankType).Ok?
    ensures r.Ok? ==> r.value == FuelTank(DetermineDryMass(totalMass, tankType).value, totalMass, DeterminePropellants(ps), tankType)
  {
    match DetermineDryMass(totalMass, tankType)
    case Ok(dry) => Ok(FuelTank(dry, totalMass, DeterminePropellants(ps), tankType))
    case Err(f) => Err(f)
  }

  /** The public ProceduralTank(totalMass, propellants) as written: it hands Type.AUTO to determineDryMass. */
  function ProceduralTankAsWritten(totalMass: real, ps: seq<Propellant>): Result<FuelTank>
  {
    ProceduralTankOfType(totalMass, Auto, ps)
  }

  /** As written, every procedural tank is rejected, the ones the tests build included. */
  lemma ProceduralTankAsWrittenRejects(totalMass: real, ps: seq<Propellant>)
    ensures ProceduralTankAsWritten(totalMass, ps) == Err(UnsupportedTankType)
  {
  }

  /**
   * ProceduralTank(totalMass, propellants) as intended: Type.AUTO is resolved by classifying the
   * (defaulted) propellants before the dry mass is computed.
   */
  function ProceduralTank(totalMass: real, ps: seq<Propellant>): (r: Result<FuelTank>)
    ensures r.Ok? <==> Classify(DeterminePropellants(ps)).Ok?
    ensures r.Ok? ==> r.value.mass == totalMass && r.value.propellants == DeterminePropellants(ps)
    ensures r.Ok? ==> r.value.tankType == Classify(DeterminePropellants(ps)).value == TypeOf(r.value.propellants)
    ensures r.Ok? && r.value.tankType == LiquidFuelAndOxidizerTank ==> r.value.dryMass == totalMass / 9.0
    ensures r.Ok? && r.value.tankType == MonopropellantTank ==> r.value.dryMass == totalMass / 5.0
    ensures r.Ok? && 0.0 <= totalMass ==> 0.0 <= r.value.dryMass <= totalMass
  {
    ProceduralTankOfType(totalMass, TypeOf(DeterminePropellants(ps)), ps)
  }

  /** ProceduralTank(totalMass): the default liquid fuel and oxidizer. */
  function ProceduralTankOfMass(totalMass: real): (r: Result<FuelTank>)
    ensures r == Ok(FuelTank(totalMass / 9.0, totalMass, DEFAULT_PROPELLANTS, LiquidFuelAndOxidizerTank))
  {
    ProceduralTank(totalMass, DEFAULT_PROPELLANTS)
  }

  /** A monopropellant procedural tank keeps one fifth of its mass as dry mass. */
  lemma ProceduralTankMonopropellant(totalMass: real)
    ensures ProceduralTank(totalMass, [Monopropellant]) == Ok(FuelTank(totalMass / 5.0, totalMass, [Monopropellant], MonopropellantTank))
  {
    assert Classify([Monopropellant]) == Ok(MonopropellantTank);
  }
}
