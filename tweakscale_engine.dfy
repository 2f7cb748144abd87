/**
 * TweakscaleEngine, the older parts-package engine whose characteristics are given directly rather
 * than taken from a catalogue: the same expendable mass and the same derived figures.
 */
module TweakscaleEngine {
  import opened Physics
  import opened Propellants
  import opened RocketThruster
  import PartsEngine

  class TweakscaleEngine {
    const name: string
    const mod: PartsEngine.Mod
    const dryMass: real
    const totalMass: real
    const thrust: real
    const isp: real
    const size: real
    const propellants: seq<Propellant>
    var mass: real

    /** The constructor: every characteristic given, the engine full. */
    constructor (name: string, mod: PartsEngine.Mod, dryMass: real, totalMass: real, thrust: real, isp: real,
                 size: real, ps: seq<Propellant>)
      ensures this.name == name && this.mod == mod && this.size == size
      ensures this.dryMass == dryMass && this.totalMass == totalMass && this.thrust == thrust && this.isp == isp
      ensures propellants == ps && mass == totalMass
    {
      this.name, this.mod, this.size := name, mod, size;
      this.dryMass, this.totalMass, this.thrust, this.isp := dryMass, totalMass, thrust, isp;
      propellants := ps;
      mass := totalMass;
    }

    /** getIsp: the Isp times the parts Engine's scaler read at call time. */
    function GetIsp(scaler: real): real
    {
      isp * scaler
    }

    /** getMinTWR: thrust / (g * total mass). */
    function MinTWR(): real
    {
      CalculateTWR(totalMass, thrust)
    }

    /** getMaxTWR: thrust / (g * dry mass). */
    function MaxTWR(): real
    {
      CalculateTWR(dryMass, thrust)
    }

    /** getDeltaV: getIsp() * ln(total / dry) * g. */
    function DeltaV(math: MathLib, scaler: real): real
    {
      GetIsp(scaler) * math.ln(Div(totalMass, dryMass)) * KERBIN_GRAVITY
    }

    predicate Valid()
      reads this
    {
      dryMass <= mass <= totalMass
    }

    /** setMass: the mass raised to the dry mass, then lowered to the total mass. */
    method SetMass(m: real)
      modifies this
      ensures mass == Clamp(m, dryMass, totalMass)
      ensures dryMass <= totalMass ==> Valid()
    {
      mass := Clamp(m, dryMass, totalMass);
    }

    /** changeMass(d): setMass(mass + d). */
    method ChangeMass(d: real)
      modifies this
      ensures mass == Clamp(old(mass) + d, dryMass, totalMass)
      ensures dryMass <= totalMass ==> Valid()
    {
      SetMass(mass + d);
    }
  }

  /** A fuelled engine with thrust starts at a lower thrust-to-weight ratio than it burns out at. */
  lemma TweakscaleTWROrder(e: TweakscaleEngine)
    requires 0.0 < e.dryMass <= e.totalMass && 0.0 <= e.thrust
    ensures 0.0 <= e.MinTWR() <= e.MaxTWR()
  {
    CalculateTWRAntitone(e.dryMass, e.totalMass, e.thrust);
  }

  /**
   * A TweakscaleEngine and a catalogue Engine with the same characteristics report the same Isp,
   * thrust-to-weight ratios and delta-V: the catalogue engine took over these formulas unchanged.
   */
  lemma SameAsCatalogueEngine(t: TweakscaleEngine, e: PartsEngine.Engine, math: MathLib, scaler: real)
    requires t.dryMass == e.dryMass && t.totalMass == e.totalMass && t.thrust == e.thrust && t.isp == e.isp
    ensures t.GetIsp(scaler) == e.GetIsp(scaler)
    ensures t.MinTWR() == e.MinTWR() && t.MaxTWR() == e.MaxTWR()
    ensures t.DeltaV(math, scaler) == e.DeltaV(math, scaler)
  {
  }

  /** Multiplying the scaler by k multiplies both the Isp and the delta-V by k. */
  lemma TweakscaleDeltaVScales(t: TweakscaleEngine, math: MathLib, scaler: real, k: real)
    ensures t.GetIsp(k * scaler) == k * t.GetIsp(scaler)
    ensures t.DeltaV(math, k * scaler) == k * t.DeltaV(math, scaler)
  {
  }
}
