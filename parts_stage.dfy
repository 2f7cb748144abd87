/**
 * RocketStage of the parts package: a payload, a tank and the engines under them.  Three of its
 * getters are modelled twice, as written and as evidently intended.
 */
module PartsStage {
  import opened Physics
  import opened Aggregates
  import opened Propellants
  import opened RocketThruster
  import PartsTank

  class RocketStage {
    const dryMass: real
    const totalMass: real
    const thrust: real
    const isp: real
    /** The file declares no getPropellants; the stage is taken to burn its tank's propellants. */
    const propellants: seq<Propellant>
    var mass: real

    /**
     * The constructor: payload mass plus the tank's dry and total mass, then one pass over the
     * engines adding their masses, thrust and thrust / getIsp(); the Isp is the summed thrust over
     * the summed flow and the stage starts full.  Each engine is given by what it reports.
     */
    constructor (payloadMass: real, tank: PartsTank.Tank, engines: seq<Reading>)
      ensures dryMass == payloadMass + tank.dryMass + SumOf(engines, DryMass)
      ensures totalMass == payloadMass + tank.totalMass + SumOf(engines, Mass)
      ensures thrust == SumOf(engines, Thrust) && isp == HarmonicIsp(engines)
      ensures propellants == tank.propellants && mass == totalMass
    {
      var d, t, th, f := Accumulate(engines);
      dryMass := payloadMass + tank.dryMass + d;
      totalMass := payloadMass + tank.totalMass + t;
      thrust := th;
      isp := Div(th, f);
      propellants := tank.propellants;
      mass := payloadMass + tank.totalMass + t;
    }

    /** getIsp as written: the stored mean, already built from scaled Isps, times the scaler again. */
    function GetIspAsWritten(scaler: real): real
    {
      isp * scaler
    }

    /** getIsp as intended: the stored mean, like the parts EngineCluster's getIsp. */
    function GetIsp(): real
    {
      isp
    }

    /** getMinTWR as written: g * thrust / total mass. */
    function MinTWRAsWritten(): real
    {
      Div(KERBIN_GRAVITY * thrust, totalMass)
    }

    /** getMaxTWR as written: g * thrust / dry mass. */
    function MaxTWRAsWritten(): real
    {
      Div(KERBIN_GRAVITY * thrust, dryMass)
    }

    /** getMinTWR as intended: thrust / (g * total mass), as every other thruster computes it. */
    function MinTWR(): real
    {
      CalculateTWR(totalMass, thrust)
    }

    /** getMaxTWR as intended: thrust / (g * dry mass). */
    function MaxTWR(): real
    {
      CalculateTWR(dryMass, thrust)
    }

    /** getDeltaV as written: getIsp() * ln(total / dry), without the factor g. */
    function DeltaVAsWritten(math: MathLib, scaler: real): real
    {
      GetIspAsWritten(scaler) * math.ln(Div(totalMass, dryMass))
    }

    /** getDeltaV as intended: the rocket equation Isp * ln(total / dry) * g. */
    function DeltaV(math: MathLib): real
    {
      GetIsp() * math.ln(Div(totalMass, dryMass)) * KERBIN_GRAVITY
    }

    predicate Valid()
      reads this
    {
      dryMass <= mass <= totalMass
    }

    /** setMass: the mass raised to the dry mass, then lowered to the total mass. */
    method SetMass(m: real)
      modifies this
      ensures mass == Clamp(m, dryMass, totalMass)
      ensures dryMass <= totalMass ==> Valid()
    {
      mass := Clamp(m, dryMass, totalMass);
    }

    /** changeMass(d): setMass(mass + d). */
    method ChangeMass(d: real)
      modifies this
      ensures mass == Clamp(old(mass) + d, dryMass, totalMass)
      ensures dryMass <= totalMass ==> Valid()
    {
      SetMass(mass + d);
    }
  }

  /** g * t / m is g^2 times t / (g * m): the as-written ratio is off by a factor of about 96. */
  lemma GravityTwice(thrust: real, m: real)
    requires m != 0.0
    ensures Div(KERBIN_GRAVITY * thrust, m) == KERBIN_GRAVITY * KERBIN_GRAVITY * CalculateTWR(m, thrust)
  {
    var g := KERBIN_GRAVITY;
    var x := CalculateTWR(m, thrust);
    CalculateTWRTimesWeight(m, thrust);
    assert x * (g * m) == thrust;
    assert (g * g * x) * m == g * thrust;
    DivOfTimes(g * thrust, m, g * g * x);
  }

  /** As written, both thrust-to-weight ratios of a stage with mass are g^2 times the intended ones. */
  lemma StageTWRAsWritten(s: RocketStage)
    requires s.totalMass != 0.0 && s.dryMass != 0.0
    ensures s.MinTWRAsWritten() == KERBIN_GRAVITY * KERBIN_GRAVITY * s.MinTWR()
    ensures s.MaxTWRAsWritten() == KERBIN_GRAVITY * KERBIN_GRAVITY * s.MaxTWR()
  {
    GravityTwice(s.thrust, s.totalMass);
    GravityTwice(s.thrust, s.dryMass);
  }

  /** As intended, a fuelled stage with thrust starts at a lower ratio than it burns out at. */
  lemma StageTWROrder(s: RocketStage)
    requires 0.0 < s.dryMass <= s.totalMass && 0.0 <= s.thrust
    ensures 0.0 <= s.MinTWR() <= s.MaxTWR()
  {
    CalculateTWRAntitone(s.dryMass, s.totalMass, s.thrust);
  }

  /** As written, the delta-V lacks the factor g: at scaler 1 it is the intended delta-V divided by g. */
  lemma StageDeltaVAsWritten(math: MathLib, s: RocketStage)
    ensures s.DeltaVAsWritten(math, 1.0) * KERBIN_GRAVITY == s.DeltaV(math)
  {
  }

  /**
   * As intended, a stage's ratios and delta-V are those of a rocket-package thruster of the same
   * masses, thrust and Isp, read under the scaler 1 (the stored Isp is already scaled).
   */
  lemma StageMatchesThruster(math: MathLib, s: RocketStage)
    ensures s.MinTWR() == NewThruster(s.dryMass, s.totalMass, s.thrust, s.isp, s.propellants).minTWR
    ensures s.MaxTWR() == NewThruster(s.dryMass, s.totalMass, s.thrust, s.isp, s.propellants).maxTWR
    ensures s.DeltaV(math) == DeltaV(math, NewThruster(s.dryMass, s.totalMass, s.thrust, s.isp, s.propellants), 1.0)
  {
  }

  /**
   * As written, a stage of one engine of Isp 370 built under the scaler 0.81 reports
   * 0.81 * 0.81 * 370 under that scaler; as intended it reports 0.81 * 370, the engine's own getIsp.
   */
  method StageIspExample(tank: PartsTank.Tank, payloadMass: real) returns (s: RocketStage)
    ensures s.GetIsp() == 0.81 * 370.0
    ensures s.GetIspAsWritten(0.81) == 0.81 * 0.81 * 370.0
  {
    var engine := Reading(1250.0, 1250.0, 215000.0, 0.81 * 370.0);
    s := new RocketStage(payloadMass, tank, [engine]);
    SumOfOne(engine, Thrust);
    UniformHarmonicIsp([engine], 0.81 * 370.0);
  }
}
