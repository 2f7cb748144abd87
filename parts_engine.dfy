/** Engine of the parts package: the engine catalogue entries, with an expendable mass and filters over the catalogue. */
module PartsEngine {
  import opened Wrappers
  import opened Physics
  import opened Propellants
  import opened Aggregates
  import opened RocketThruster
  import PartsTank

  /** Engine.Mod of the parts package. */
  datatype Mod = Stock | KwRocketry | Aies | Novapunch | Kspx

  /** An entry of the Engine enum: fixed characteristics and a current mass. */
  class Engine {
    /** The enum constant's identifier, which getName returns. */
    const id: string
    /** The display name, which toString returns. */
    const name: string
    const mod: Mod
    const dryMass: real
    const totalMass: real
    const thrust: real
    const isp: real
    const size: real
    const propellants: seq<Propellant>
    var mass: real

    /** The private constructor: every characteristic given, the engine full. */
    constructor Full(id: string, name: string, mod: Mod, dryMass: real, totalMass: real, thrust: real, isp: real,
                     size: real, ps: seq<Propellant>)
      ensures this.id == id && this.name == name && this.mod == mod && this.size == size
      ensures this.dryMass == dryMass && this.totalMass == totalMass && this.thrust == thrust && this.isp == isp
      ensures propellants == ps && mass == totalMass
    {
      this.id, this.name, this.mod, this.size := id, name, mod, size;
      this.dryMass, this.totalMass, this.thrust, this.isp := dryMass, totalMass, thrust, isp;
      propellants := ps;
      mass := totalMass;
    }

    /** Engine(name, mod, mass, thrust, isp, size, propellants): an engine that burns none of its own mass. */
    constructor OfMass(id: string, name: string, mod: Mod, mass: real, thrust: real, isp: real, size: real, ps: seq<Propellant>)
      ensures this.id == id && this.name == name && this.mod == mod && this.size == size
      ensures dryMass == mass && totalMass == mass && this.thrust == thrust && this.isp == isp
      ensures propellants == ps && this.mass == mass
    {
      this.id, this.name, this.mod, this.size := id, name, mod, size;
      dryMass, totalMass, this.thrust, this.isp := mass, mass, thrust, isp;
      propellants := ps;
      this.mass := mass;
    }

    /** The tank-booster constructor: dry mass, total mass and propellants are the tank's. */
    constructor Booster(id: string, name: string, mod: Mod, thrust: real, isp: real, size: real, tank: PartsTank.Tank)
      ensures this.id == id && this.name == name && this.mod == mod && this.size == size
      ensures dryMass == tank.dryMass && totalMass == tank.totalMass && propellants == tank.propellants
      ensures this.thrust == thrust && this.isp == isp && mass == tank.totalMass
    {
      this.id, this.name, this.mod, this.size := id, name, mod, size;
      dryMass, totalMass, this.thrust, this.isp := tank.dryMass, tank.totalMass, thrust, isp;
      propellants := tank.propellants;
      mass := tank.totalMass;
    }

    /** getIsp: the Isp times the scaler read at call time. */
    function GetIsp(scaler: real): real
    {
      isp * scaler
    }

    /** getMinTWR: thrust / (g * total mass). */
    function MinTWR(): real
    {
      CalculateTWR(totalMass, thrust)
    }

    /** getMaxTWR: thrust / (g * dry mass). */
    function MaxTWR(): real
    {
      CalculateTWR(dryMass, thrust)
    }

    /** getDeltaV: getIsp() * ln(total / dry) * g. */
    function DeltaV(math: MathLib, scaler: real): real
    {
      GetIsp(scaler) * math.ln(Div(totalMass, dryMass)) * KERBIN_GRAVITY
    }

    /** What the engine reports to a cluster or stage built while the scaler has the given value. */
    function Report(scaler: real): Reading
    {
      Reading(dryMass, totalMass, thrust, GetIsp(scaler))
    }

    predicate Valid()
      reads this
    {
      dryMass <= mass <= totalMass
    }

    /** setMass: the mass raised to the dry mass, then lowered to the total mass. */
    method SetMass(m: real)
      modifies this
      ensures mass == Clamp(m, dryMass, totalMass)
      ensures dryMass <= totalMass ==> Valid()
    {
      mass := Clamp(m, dryMass, totalMass);
    }

    /** changeMass(d): setMass(mass + d). */
    method ChangeMass(d: real)
      modifies this
      ensures mass == Clamp(old(mass) + d, dryMass, totalMass)
      ensures dryMass <= totalMass ==> Valid()
    {
      SetMass(mass + d);
    }
  }

  /** A fuelled engine with thrust starts at a lower thrust-to-weight ratio than it burns out at. */
  lemma EngineTWROrder(e: Engine)
    requires 0.0 < e.dryMass <= e.totalMass && 0.0 <= e.thrust
    ensures 0.0 <= e.MinTWR() <= e.MaxTWR()
  {
    CalculateTWRAntitone(e.dryMass, e.totalMass, e.thrust);
  }

  /** The engines of the catalogue from one mod, in catalogue order. */
  function FilterByMod(values: seq<Engine>, mod: Mod): (r: seq<Engine>)
    ensures |r| <= |values|
    ensures forall i :: 0 <= i < |r| ==> r[i] in values && r[i].mod == mod
    ensures forall j :: 0 <= j < |values| && values[j].mod == mod ==> values[j] in r
  {
    if values == [] then []
    else
      var rest := FilterByMod(values[..|values| - 1], mod);
      var last := values[|values| - 1];
      assert values == values[..|values| - 1] + [last];
      if last.mod == mod then rest + [last] else rest
  }

  /** The engines of the catalogue with one diameter, in catalogue order. */
  function FilterBySize(values: seq<Engine>, size: real): (r: seq<Engine>)
    ensures |r| <= |values|
    ensures forall i :: 0 <= i < |r| ==> r[i] in values && r[i].size == size
    ensures forall j :: 0 <= j < |values| && values[j].size == size ==> values[j] in r
  {
    if values == [] then []
    else
      var rest := FilterBySize(values[..|values| - 1], size);
      var last := values[|values| - 1];
      assert values == values[..|values| - 1] + [last];
      if last.size == size then rest + [last] else rest
  }

  /** Filtering a catalogue split in two filters each part, so the catalogue order is kept. */
  lemma {:induction false} FilterByModAppend(a: seq<Engine>, b: seq<Engine>, mod: Mod)
    ensures FilterByMod(a + b, mod) == FilterByMod(a, mod) + FilterByMod(b, mod)
    decreases |b|
  {
    if b == [] {
      assert a + b == a;
    } else {
      var b' := b[..|b| - 1];
      assert (a + b)[..|a + b| - 1] == a + b';
      FilterByModAppend(a, b', mod);
    }
  }

  lemma {:induction false} FilterBySizeAppend(a: seq<Engine>, b: seq<Engine>, size: real)
    ensures FilterBySize(a + b, size) == FilterBySize(a, size) + FilterBySize(b, size)
    decreases |b|
  {
    if b == [] {
      assert a + b == a;
    } else {
      var b' := b[..|b| - 1];
      assert (a + b)[..|a + b| - 1] == a + b';
      FilterBySizeAppend(a, b', size);
    }
  }

  /** getEngines(mod): the loop over Engine.values() keeping the matching entries. */
  method GetEnginesByMod(values: seq<Engine>, mod: Mod) returns (engines: seq<Engine>)
    ensures engines == FilterByMod(values, mod)
  {
    engines := [];
    var i := 0;
    while i < |values|
      invariant 0 <= i <= |values|
      invariant engines == FilterByMod(values[..i], mod)
    {
      assert values[..i + 1][..i] == values[..i];
      if values[i].mod == mod {
        engines := engines + [values[i]];
      }
      i := i + 1;
    }
    assert values[..i] == values;
  }

  /** getEngines(size): the loop over Engine.values() keeping the entries of that diameter. */
  method GetEnginesBySize(values: seq<Engine>, size: real) returns (engines: seq<Engine>)
    ensures engines == FilterBySize(values, size)
  {
    engines := [];
    var i := 0;
    while i < |values|
      invariant 0 <= i <= |values|
      invariant engines == FilterBySize(values[..i], size)
    {
      assert values[..i + 1][..i] == values[..i];
      if values[i].size == size {
        engines := engines + [values[i]];
      }
      i := i + 1;
    }
    assert values[..i] == values;
  }

  /** The LFB_KR_1X2 entry built around a tank: 2000 kN of thrust, Isp 380, 2.5 m. */
  method KrBooster(tank: PartsTank.Tank) returns (e: Engine)
    ensures fresh(e) && e.dryMass == tank.dryMass && e.totalMass == tank.totalMass && e.propellants == tank.propellants
    ensures e.thrust == 2000000.0 && e.isp == 380.0 && e.size == 2.5
  {
    e := new Engine.Booster("LFB_KR_1X2", "LFB KR-1x2", Stock, 2000000.0, 380.0, 2.5, tank);
  }

  /**
   * LFB_KR_1X2 as written: a booster around new Tank(10000, 42000, LIQUID_FUEL, OXIDIZER), which
   * the public Tank constructor rejects, so the entry (and with it the enum) cannot be built.
   */
  method LfbKr1x2AsWritten() returns (e: Option<Engine>)
    ensures e.None?
  {
    var tank := PartsTank.PublicTankAsWritten(10000.0, 42000.0, [LiquidFuel, Oxidizer]);
    match tank {
      case Err(_) => e := None;
      case Ok(t) =>
        var engine := KrBooster(t);
        e := Some(engine);
    }
  }

  /** LFB_KR_1X2 with the intended Tank constructor: a 10 t dry, 42 t full liquid-fuel booster. */
  method LfbKr1x2() returns (e: Option<Engine>)
    ensures e.Some? && e.value.dryMass == 10000.0 && e.value.totalMass == 42000.0
    ensures e.value.propellants == [LiquidFuel, Oxidizer] && e.value.thrust == 2000000.0 && e.value.isp == 380.0
  {
    assert Classify([LiquidFuel, Oxidizer]) == Ok(LiquidFuelAndOxidizerTank);
    var tank := PartsTank.PublicTank(10000.0, 42000.0, [LiquidFuel, Oxidizer]);
    var engine := KrBooster(tank.value);
    e := Some(engine);
  }
}
