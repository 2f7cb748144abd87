/** BaseThruster: anything with mass that thrusts (engines, clusters, stacks and stages of the rocket package). */
module RocketThruster {
  import opened Physics
  import opened Propellants

  /** The fields of a BaseThruster, the mass inherited from BaseComponent included; no getter changes them. */
  datatype Thruster = Thruster(
    dryMass: real,
    mass: real,
    thrust: real,
    isp: real,
    minTWR: real,
    maxTWR: real,
    propellants: seq<Propellant>)

  /** calculateTWR: thrust / (g * mass). */
  function CalculateTWR(mass: real, thrust: real): real
  {
    Div(thrust, KERBIN_GRAVITY * mass)
  }

  /** The ratio times the weight of a non-zero mass gives back the thrust. */
  lemma CalculateTWRTimesWeight(mass: real, thrust: real)
    requires mass != 0.0
    ensures CalculateTWR(mass, thrust) * (KERBIN_GRAVITY * mass) == thrust
  {
    DivMul(thrust, KERBIN_GRAVITY * mass);
  }

  /** Non-negative thrust over a larger positive mass gives a lower thrust-to-weight ratio. */
  lemma CalculateTWRAntitone(m1: real, m2: real, thrust: real)
    requires 0.0 < m1 <= m2 && 0.0 <= thrust
    ensures 0.0 <= CalculateTWR(m2, thrust) <= CalculateTWR(m1, thrust)
  {
    var a, b := KERBIN_GRAVITY * m1, KERBIN_GRAVITY * m2;
    assert 0.0 < a <= b;
    var x, y := CalculateTWR(m1, thrust), CalculateTWR(m2, thrust);
    CalculateTWRTimesWeight(m1, thrust);
    CalculateTWRTimesWeight(m2, thrust);
    assert 0.0 <= y;
    assert y * a <= y * b;
    assert (x - y) * a >= 0.0;
    assert y <= x;
  }

  /** With positive thrust the ratio strictly falls as the mass grows. */
  lemma CalculateTWRStrictlyAntitone(m1: real, m2: real, thrust: real)
    requires 0.0 < m1 < m2 && 0.0 < thrust
    ensures 0.0 < CalculateTWR(m2, thrust) < CalculateTWR(m1, thrust)
  {
    var a, b := KERBIN_GRAVITY * m1, KERBIN_GRAVITY * m2;
    assert 0.0 < a < b;
    var x, y := CalculateTWR(m1, thrust), CalculateTWR(m2, thrust);
    CalculateTWRTimesWeight(m1, thrust);
    CalculateTWRTimesWeight(m2, thrust);
    assert 0.0 < y;
    CrossMulLt(x, y, a, b);
  }

  /** Mass scaled by p != 0 and thrust by q scale the ratio by q / p. */
  lemma CalculateTWRScaled(mass: real, thrust: real, p: real, q: real)
    requires p != 0.0
    ensures CalculateTWR(mass * p, thrust * q) == CalculateTWR(mass, thrust) * Div(q, p)
  {
    assert KERBIN_GRAVITY * (mass * p) == (KERBIN_GRAVITY * mass) * p;
    DivProduct(thrust, q, KERBIN_GRAVITY * mass, p);
  }

  /**
   * The five-argument BaseThruster constructor: the initial (minimum) ratio is taken at full
   * mass, the final (maximum) one at dry mass, and an empty propellant list means the default.
   */
  function NewThruster(dryMass: real, mass: real, thrust: real, isp: real, ps: seq<Propellant>): (t: Thruster)
    ensures t.dryMass == dryMass && t.mass == mass && t.thrust == thrust && t.isp == isp
    ensures t.minTWR == CalculateTWR(mass, thrust) && t.maxTWR == CalculateTWR(dryMass, thrust)
    ensures t.propellants == DeterminePropellants(ps)
  {
    Thruster(dryMass, mass, thrust, isp, CalculateTWR(mass, thrust), CalculateTWR(dryMass, thrust), DeterminePropellants(ps))
  }

  /** A thruster built with positive dry mass no larger than its mass and non-negative thrust has minTWR <= maxTWR. */
  lemma NewThrusterTWROrder(dryMass: real, mass: real, thrust: real, isp: real, ps: seq<Propellant>)
    requires 0.0 < dryMass <= mass && 0.0 <= thrust
    ensures 0.0 <= NewThruster(dryMass, mass, thrust, isp, ps).minTWR <= NewThruster(dryMass, mass, thrust, isp, ps).maxTWR
  {
    CalculateTWRAntitone(dryMass, mass, thrust);
  }

  /** A thruster whose masses are scaled by p != 0 and thrust by q has both ratios scaled by q / p. */
  lemma NewThrusterScaledTWR(dryMass: real, mass: real, thrust: real, isp: real, ps: seq<Propellant>, p: real, q: real)
    requires p != 0.0
    ensures NewThruster(dryMass * p, mass * p, thrust * q, isp, ps).minTWR == CalculateTWR(mass, thrust) * Div(q, p)
    ensures NewThruster(dryMass * p, mass * p, thrust * q, isp, ps).maxTWR == CalculateTWR(dryMass, thrust) * Div(q, p)
  {
    CalculateTWRScaled(mass, thrust, p, q);
    CalculateTWRScaled(dryMass, thrust, p, q);
  }

  /** getIsp: the stored Isp times the Isp scaler read at call time. */
  function GetIsp(t: Thruster, scaler: real): real
  {
    scaler * t.isp
  }

  /** getDeltaV: the rocket equation, Isp * ln(mass / dryMass) * g. */
  function DeltaV(math: MathLib, t: Thruster, scaler: real): real
  {
    GetIsp(t, scaler) * math.ln(Div(t.mass, t.dryMass)) * KERBIN_GRAVITY
  }

  /** Delta-V follows the Isp scaler: changing it rescales every existing thruster's delta-V. */
  lemma DeltaVScales(math: MathLib, t: Thruster, scaler: real)
    ensures DeltaV(math, t, scaler) == scaler * DeltaV(math, t, 1.0)
  {
    var l := math.ln(Div(t.mass, t.dryMass)) * KERBIN_GRAVITY;
    assert DeltaV(math, t, scaler) == (scaler * t.isp) * l;
    assert DeltaV(math, t, 1.0) == t.isp * l;
  }
}
