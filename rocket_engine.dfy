/** Engine of the rocket package: named engines, the global Isp scaler and TweakScale resizing. */
module RocketEngine {
  import opened Physics
  import opened Propellants
  import opened RocketThruster

  /** Engine.Mod: the game mod an engine comes from. */
  datatype Mod = Stock | KwRocketry | Aies | Novapunch | Kspx

  /** An Engine: the BaseThruster fields plus display name, mod and diameter in metres. */
  datatype Engine = Engine(name: string, mod: Mod, size: real, body: Thruster)

  /**
   * The static Engine.ispScaler (the Kerbal Isp Difficulty Scaler), held as the one field of a
   * register. Every formula that reads it at call time takes its value as a parameter.
   */
  class IspScaler {
    var value: real

    /** The scaler starts at 1. */
    constructor ()
      ensures value == 1.0
    {
      value := 1.0;
    }

    /** setIspScaler: getIspScaler afterwards returns exactly the value set. */
    method Set(x: real)
      modifies this
      ensures value == x
    {
      value := x;
    }
  }

  /**
   * The eight-argument Engine constructor as written: an empty propellant list means the
   * default, minTWR is computed from the dry mass and maxTWR from the total mass.
   */
  function NewEngineAsWritten(name: string, mod: Mod, dryMass: real, mass: real, thrust: real, isp: real, size: real, ps: seq<Propellant>): (e: Engine)
    ensures e.name == name && e.mod == mod && e.size == size
    ensures e.body.dryMass == dryMass && e.body.mass == mass && e.body.thrust == thrust && e.body.isp == isp
    ensures e.body.propellants == DeterminePropellants(ps)
    ensures e.body.minTWR == CalculateTWR(dryMass, thrust) && e.body.maxTWR == CalculateTWR(mass, thrust)
  {
    Engine(name, mod, size, Thruster(dryMass, mass, thrust, isp, CalculateTWR(dryMass, thrust), CalculateTWR(mass, thrust), DeterminePropellants(ps)))
  }

  /** As written, a fuelled engine with thrust reports a "minimum" ratio above its "maximum". */
  lemma NewEngineAsWrittenSwapsTWR(name: string, mod: Mod, dryMass: real, mass: real, thrust: real, isp: real, size: real, ps: seq<Propellant>)
    requires 0.0 < dryMass < mass && 0.0 < thrust
    ensures NewEngineAsWritten(name, mod, dryMass, mass, thrust, isp, size, ps).body.minTWR
          > NewEngineAsWritten(name, mod, dryMass, mass, thrust, isp, size, ps).body.maxTWR
  {
    CalculateTWRStrictlyAntitone(dryMass, mass, thrust);
  }

  /**
   * The eight-argument Engine constructor as intended: the BaseThruster it sets up is the one
   * the five-argument BaseThruster constructor builds, initial ratio at full mass.
   */
  function NewEngine(name: string, mod: Mod, dryMass: real, mass: real, thrust: real, isp: real, size: real, ps: seq<Propellant>): (e: Engine)
    ensures e.name == name && e.mod == mod && e.size == size
    ensures e.body == NewThruster(dryMass, mass, thrust, isp, ps)
  {
    Engine(name, mod, size, NewThruster(dryMass, mass, thrust, isp, ps))
  }

  /** As intended, the initial ratio never exceeds the burnt-out one. */
  lemma NewEngineTWROrder(name: string, mod: Mod, dryMass: real, mass: real, thrust: real, isp: real, size: real, ps: seq<Propellant>)
    requires 0.0 < dryMass <= mass && 0.0 <= thrust
    ensures 0.0 <= NewEngine(name, mod, dryMass, mass, thrust, isp, size, ps).body.minTWR
          <= NewEngine(name, mod, dryMass, mass, thrust, isp, size, ps).body.maxTWR
  {
    NewThrusterTWROrder(dryMass, mass, thrust, isp, ps);
  }

  /** The seven-argument constructor: an engine without a separate dry mass. */
  function NewEngineOfMass(name: string, mod: Mod, mass: real, thrust: real, isp: real, size: real, ps: seq<Propellant>): (e: Engine)
    ensures e.body.dryMass == mass && e.body.mass == mass
    ensures e == NewEngine(name, mod, mass, mass, thrust, isp, size, ps)
    ensures e.body.minTWR == e.body.maxTWR
  {
    NewEngine(name, mod, mass, mass, thrust, isp, size, ps)
  }

  /** Two PreDefined entries, built by the six-argument PreDefined constructor; the rest of the catalogue is data. */
  const LV_909_LIQUID_FUEL_ENGINE: Engine := NewEngineOfMass("LV-909 Liquid Fuel Engine", Stock, 500.0, 50000.0, 390.0, 1.25, [])
  const LV_T30_LIQUID_FUEL_ENGINE: Engine := NewEngineOfMass("LV-T30 Liquid Fuel Engine", Stock, 1250.0, 215000.0, 370.0, 1.25, [])

  /** The three quantities TweakScale derives from the size ratio. */
  function ScaledDryMass(math: MathLib, e: Engine, scale: real): real
  {
    e.body.dryMass * math.pow(Div(scale, e.size), MASS_EXPONENT)
  }

  function ScaledMass(math: MathLib, e: Engine, scale: real): real
  {
    e.body.mass * math.pow(Div(scale, e.size), MASS_EXPONENT)
  }

  function ScaledThrust(math: MathLib, e: Engine, scale: real): real
  {
    e.body.thrust * math.pow(Div(scale, e.size), THRUST_EXPONENT)
  }

  /**
   * PreDefined.tweakScale as written: the same size gives the engine back; another size gives a
   * new engine whose masses scale by ratio^2.5 and thrust by ratio^2.6, built by the Engine
   * constructor as written and handed the scaled Isp engine.getIsp().
   */
  function TweakScaleAsWritten(math: MathLib, e: Engine, scale: real, scaler: real): Engine
  {
    if scale != e.size then
      NewEngineAsWritten(e.name, e.mod, ScaledDryMass(math, e, scale), ScaledMass(math, e, scale),
        ScaledThrust(math, e, scale), GetIsp(e.body, scaler), scale, e.body.propellants)
    else e
  }

  /** PreDefined.tweakScale as intended: the new engine keeps the stored (unscaled) Isp. */
  function TweakScale(math: MathLib, e: Engine, scale: real): Engine
  {
    if scale != e.size then
      NewEngine(e.name, e.mod, ScaledDryMass(math, e, scale), ScaledMass(math, e, scale),
        ScaledThrust(math, e, scale), e.body.isp, scale, e.body.propellants)
    else e
  }

  /** Resizing to the current size returns the engine itself, whatever the Isp scaler. */
  lemma TweakScaleSameSize(math: MathLib, e: Engine, scaler: real)
    ensures TweakScale(math, e, e.size) == e
    ensures TweakScaleAsWritten(math, e, e.size, scaler) == e
  {
  }

  /** Resizing to another size keeps name, mod, Isp and propellants, takes the new size and scales masses and thrust. */
  lemma TweakScaleNewSize(math: MathLib, e: Engine, scale: real)
    requires scale != e.size
    ensures var r := TweakScale(math, e, scale);
      r.name == e.name && r.mod == e.mod && r.size == scale && r.body.isp == e.body.isp
      && r.body.propellants == DeterminePropellants(e.body.propellants)
      && (e.body.propellants != [] ==> r.body.propellants == e.body.propellants)
      && r.body.dryMass == e.body.dryMass * math.pow(Div(scale, e.size), MASS_EXPONENT)
      && r.body.mass == e.body.mass * math.pow(Div(scale, e.size), MASS_EXPONENT)
      && r.body.thrust == e.body.thrust * math.pow(Div(scale, e.size), THRUST_EXPONENT)
  {
  }

  /** Masses scaling by a common non-zero factor, an engine's delta-V survives resizing. */
  lemma TweakScaleKeepsDeltaV(math: MathLib, e: Engine, scale: real, scaler: real)
    requires math.pow(Div(scale, e.size), MASS_EXPONENT) != 0.0
    ensures DeltaV(math, TweakScale(math, e, scale).body, scaler) == DeltaV(math, e.body, scaler)
  {
    if scale != e.size {
      var p := math.pow(Div(scale, e.size), MASS_EXPONENT);
      var r := TweakScale(math, e, scale).body;
      assert r.mass == e.body.mass * p && r.dryMass == e.body.dryMass * p;
      DivCancel(e.body.mass, e.body.dryMass, p);
      assert Div(r.mass, r.dryMass) == Div(e.body.mass, e.body.dryMass);
      assert GetIsp(r, scaler) == GetIsp(e.body, scaler);
    }
  }

  /** The ratio of the thrust factor to the mass factor of a resize. */
  function TWRFactor(math: MathLib, e: Engine, scale: real): real
  {
    Div(math.pow(Div(scale, e.size), THRUST_EXPONENT), math.pow(Div(scale, e.size), MASS_EXPONENT))
  }

  /** Off the current size, the resized body is the thruster built on the scaled masses and thrust. */
  lemma TweakScaleBody(math: MathLib, e: Engine, scale: real)
    requires scale != e.size
    ensures TweakScale(math, e, scale).body
         == NewThruster(e.body.dryMass * math.pow(Div(scale, e.size), MASS_EXPONENT),
              e.body.mass * math.pow(Div(scale, e.size), MASS_EXPONENT),
              e.body.thrust * math.pow(Div(scale, e.size), THRUST_EXPONENT), e.body.isp, e.body.propellants)
  {
  }

  /** Off the current size, the resized body's initial ratio is the original engine's computed one times the factor. */
  lemma TweakScaleMinTWRFactor(math: MathLib, e: Engine, scale: real)
    requires scale != e.size
    requires math.pow(Div(scale, e.size), MASS_EXPONENT) != 0.0
    ensures TweakScale(math, e, scale).body.minTWR == CalculateTWR(e.body.mass, e.body.thrust) * TWRFactor(math, e, scale)
  {
    TweakScaleBody(math, e, scale);
    NewThrusterScaledTWR(e.body.dryMass, e.body.mass, e.body.thrust, e.body.isp, e.body.propellants,
      math.pow(Div(scale, e.size), MASS_EXPONENT), math.pow(Div(scale, e.size), THRUST_EXPONENT));
  }

  /** Off the current size, the resized body's burnt-out ratio is the original engine's computed one times the factor. */
  lemma TweakScaleMaxTWRFactor(math: MathLib, e: Engine, scale: real)
    requires scale != e.size
    requires math.pow(Div(scale, e.size), MASS_EXPONENT) != 0.0
    ensures TweakScale(math, e, scale).body.maxTWR == CalculateTWR(e.body.dryMass, e.body.thrust) * TWRFactor(math, e, scale)
  {
    TweakScaleBody(math, e, scale);
    NewThrusterScaledTWR(e.body.dryMass, e.body.mass, e.body.thrust, e.body.isp, e.body.propellants,
      math.pow(Div(scale, e.size), MASS_EXPONENT), math.pow(Div(scale, e.size), THRUST_EXPONENT));
  }

  /** The initial thrust-to-weight ratio scales by thrustScale / massScale. */
  lemma TweakScaleScalesMinTWR(math: MathLib, e: Engine, scale: real)
    requires scale != e.size
    requires e.body.minTWR == CalculateTWR(e.body.mass, e.body.thrust)
    requires math.pow(Div(scale, e.size), MASS_EXPONENT) != 0.0
    ensures TweakScale(math, e, scale).body.minTWR == e.body.minTWR * TWRFactor(math, e, scale)
  {
    TweakScaleMinTWRFactor(math, e, scale);
  }

  /** The burnt-out thrust-to-weight ratio scales by thrustScale / massScale. */
  lemma TweakScaleScalesMaxTWR(math: MathLib, e: Engine, scale: real)
    requires scale != e.size
    requires e.body.maxTWR == CalculateTWR(e.body.dryMass, e.body.thrust)
    requires math.pow(Div(scale, e.size), MASS_EXPONENT) != 0.0
    ensures TweakScale(math, e, scale).body.maxTWR == e.body.maxTWR * TWRFactor(math, e, scale)
  {
    TweakScaleMaxTWRFactor(math, e, scale);
  }

  /**
   * As written, the resized engine stores the already scaled Isp and scales it again on every
   * read: its delta-V is the original's multiplied by the scaler once more.
   */
  lemma TweakScaleAsWrittenRescalesIsp(math: MathLib, e: Engine, scale: real, scaler: real)
    requires scale != e.size
    requires math.pow(Div(scale, e.size), MASS_EXPONENT) != 0.0
    ensures DeltaV(math, TweakScaleAsWritten(math, e, scale, scaler).body, scaler) == scaler * DeltaV(math, e.body, scaler)
  {
    var p := math.pow(Div(scale, e.size), MASS_EXPONENT);
    var r := TweakScaleAsWritten(math, e, scale, scaler).body;
    assert r.mass == e.body.mass * p && r.dryMass == e.body.dryMass * p;
    DivCancel(e.body.mass, e.body.dryMass, p);
    var l := math.ln(Div(e.body.mass, e.body.dryMass));
    assert r.isp == scaler * e.body.isp;
    assert Div(r.mass, r.dryMass) == Div(e.body.mass, e.body.dryMass);
    assert GetIsp(r, scaler) == scaler * (scaler * e.body.isp);
    assert DeltaV(math, r, scaler) == ((scaler * (scaler * e.body.isp)) * l) * KERBIN_GRAVITY;
    assert DeltaV(math, e.body, scaler) == ((scaler * e.body.isp) * l) * KERBIN_GRAVITY;
    MulAssoc4(scaler, scaler * e.body.isp, l, KERBIN_GRAVITY);
  }
}
