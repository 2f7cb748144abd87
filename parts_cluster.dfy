/** EngineCluster of the parts package: engines fired together, with a combined expendable mass. */
module PartsCluster {
  import opened Physics
  import opened Aggregates
  import opened RocketThruster
  import opened PartsEngine

  /** What the engines report, in order, while the scaler has the given value. */
  function Reports(engines: seq<Engine>, scaler: real): (rs: seq<Reading>)
    ensures |rs| == |engines|
    ensures forall i :: 0 <= i < |engines| ==> rs[i] == engines[i].Report(scaler)
  {
    seq(|engines|, i requires 0 <= i < |engines| => engines[i].Report(scaler))
  }

  /** The same reports with the engines' stored Isps, before any scaler. */
  function RawReports(engines: seq<Engine>): (rs: seq<Reading>)
    ensures |rs| == |engines|
    ensures forall i :: 0 <= i < |engines| ==> rs[i] == Reading(engines[i].dryMass, engines[i].totalMass, engines[i].thrust, engines[i].isp)
  {
    seq(|engines|, i requires 0 <= i < |engines| => Reading(engines[i].dryMass, engines[i].totalMass, engines[i].thrust, engines[i].isp))
  }

  /**
   * A cluster stores the harmonic mean of the Isps the engines report when it is built: the scaler
   * in force then multiplies the mean of their stored Isps.
   */
  lemma ReportsScaled(engines: seq<Engine>, scaler: real)
    ensures HarmonicIsp(Reports(engines, scaler)) == scaler * HarmonicIsp(RawReports(engines))
  {
    var raw := RawReports(engines);
    var rs := Reports(engines, scaler);
    forall i | 0 <= i < |engines|
      ensures rs[i] == ScaleIsp(raw, scaler)[i]
    {
      ScaleIspAt(raw, scaler, i);
    }
    assert rs == ScaleIsp(raw, scaler);
    ScaledHarmonicIsp(raw, scaler);
  }

  class EngineCluster {
    const engines: seq<Engine>
    const dryMass: real
    const totalMass: real
    const thrust: real
    const isp: real
    var mass: real

    /**
     * The constructor: one pass summing dry mass, total mass, thrust and thrust / getIsp() over
     * the engines; the Isp is the summed thrust over the summed flow and the cluster starts full.
     */
    constructor (engines: seq<Engine>, scaler: real)
      ensures this.engines == engines
      ensures dryMass == SumOf(Reports(engines, scaler), DryMass) && totalMass == SumOf(Reports(engines, scaler), Mass)
      ensures thrust == SumOf(Reports(engines, scaler), Thrust) && isp == HarmonicIsp(Reports(engines, scaler))
      ensures mass == totalMass
    {
      var d, t, th, f := Accumulate(Reports(engines, scaler));
      this.engines := engines;
      dryMass, totalMass, thrust := d, t, th;
      isp := Div(th, f);
      mass := t;
    }

    /** getIsp: the stored value; a later change of the scaler does not reach it. */
    function GetIsp(): real
    {
      isp
    }

    /** getMinTWR: thrust / (total mass * g). */
    function MinTWR(): real
    {
      CalculateTWR(totalMass, thrust)
    }

    /** getMaxTWR: thrust / (dry mass * g). */
    function MaxTWR(): real
    {
      CalculateTWR(dryMass, thrust)
    }

    /** getDeltaV: getIsp() * ln(total / dry) * g. */
    function DeltaV(math: MathLib): real
    {
      GetIsp() * math.ln(Div(totalMass, dryMass)) * KERBIN_GRAVITY
    }

    predicate Valid()
      reads this
    {
      dryMass <= mass <= totalMass
    }

    /** setMass: the mass raised to the dry mass, then lowered to the total mass. */
    method SetMass(m: real)
      modifies this
      ensures mass == Clamp(m, dryMass, totalMass)
      ensures dryMass <= totalMass ==> Valid()
    {
      mass := Clamp(m, dryMass, totalMass);
    }

    /** changeMass(d): setMass(mass + d). */
    method ChangeMass(d: real)
      modifies this
      ensures mass == Clamp(old(mass) + d, dryMass, totalMass)
      ensures dryMass <= totalMass ==> Valid()
    {
      SetMass(mass + d);
    }
  }

  /** Two engines of Isp 350 make a cluster of Isp 350 when the scaler is 1. */
  method SameIspCluster(a: Engine, b: Engine) returns (c: EngineCluster)
    requires a.isp == 350.0 && b.isp == 350.0 && a.thrust > 0.0 && b.thrust > 0.0
    ensures c.engines == [a, b] && c.GetIsp() == 350.0
  {
    c := new EngineCluster([a, b], 1.0);
    var rs := Reports([a, b], 1.0);
    SumOfTwo(rs[0], rs[1], Thrust);
    assert rs == [rs[0], rs[1]];
    UniformHarmonicIsp(rs, 350.0);
  }
}
