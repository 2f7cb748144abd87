/**
 * The aggregates of the rocket package: Stack (a tank and its engine), Stage (a payload carried
 * by stacks) and EngineCluster (engines fired together).  Each is a BaseThruster built from sums
 * over its members.
 */
module RocketAssembly {
  import opened Wrappers
  import opened Physics
  import opened Propellants
  import opened Aggregates
  import opened RocketThruster
  import opened RocketTank

  /** What a member reports to the calculate* helpers, its stored (unscaled) Isp included. */
  function ReadingOf(t: Thruster): Reading
  {
    Reading(t.dryMass, t.mass, t.thrust, t.isp)
  }

  /** What a member reports through getIsp() while the Isp scaler has the given value. */
  function ReadingAt(t: Thruster, scaler: real): Reading
  {
    Reading(t.dryMass, t.mass, t.thrust, GetIsp(t, scaler))
  }

  function Readings(ts: seq<Thruster>): (rs: seq<Reading>)
    ensures |rs| == |ts|
    ensures forall i :: 0 <= i < |ts| ==> rs[i] == ReadingOf(ts[i])
  {
    seq(|ts|, i requires 0 <= i < |ts| => ReadingOf(ts[i]))
  }

  function ReadingsAt(ts: seq<Thruster>, scaler: real): (rs: seq<Reading>)
    ensures |rs| == |ts|
    ensures forall i :: 0 <= i < |ts| ==> rs[i] == ReadingAt(ts[i], scaler)
  {
    seq(|ts|, i requires 0 <= i < |ts| => ReadingAt(ts[i], scaler))
  }

  /** Reading the members through getIsp() is scaling their stored Isps by the scaler. */
  lemma ReadingsAtScaled(ts: seq<Thruster>, scaler: real)
    ensures ReadingsAt(ts, scaler) == ScaleIsp(Readings(ts), scaler)
  {
    var a, b := ReadingsAt(ts, scaler), ScaleIsp(Readings(ts), scaler);
    forall i | 0 <= i < |ts|
      ensures a[i] == b[i]
    {
      ScaleIspAt(Readings(ts), scaler, i);
    }
  }

  /** The propellant lists of the members, in order, for combinePropellants. */
  function PropellantLists(ts: seq<Thruster>): (ls: seq<seq<Propellant>>)
    ensures |ls| == |ts|
    ensures forall i :: 0 <= i < |ts| ==> ls[i] == ts[i].propellants
  {
    seq(|ts|, i requires 0 <= i < |ts| => ts[i].propellants)
  }

  /** The type FuelTank.getType and the engine's getType compare: the classification of the propellants. */
  predicate TypesMatch(tank: FuelTank, engine: Thruster)
  {
    tank.tankType == TypeOf(engine.propellants)
  }

  /**
   * The Stack constructor as written: tank and engine masses add up, thrust is the engine's and
   * the Isp slot receives engine.getIsp(), the Isp already multiplied by the scaler; a tank whose
   * type is not the engine's is rejected.
   */
  function StackAsWritten(tank: FuelTank, engine: Thruster, scaler: real): (r: Result<Thruster>)
    ensures r.Err? <==> !TypesMatch(tank, engine)
    ensures r.Err? ==> r.failure == TankEngineTypeMismatch
    ensures r.Ok? ==> r.value.dryMass == tank.dryMass + engine.dryMass && r.value.mass == tank.mass + engine.mass
    ensures r.Ok? ==> r.value.thrust == engine.thrust
    ensures r.Ok? ==> forall s :: GetIsp(r.value, s) == s * GetIsp(engine, scaler)
  {
    if TypesMatch(tank, engine) then
      Ok(NewThruster(tank.dryMass + engine.dryMass, tank.mass + engine.mass, engine.thrust,
        GetIsp(engine, scaler), Combine(tank.propellants, engine.propellants)))
    else Err(TankEngineTypeMismatch)
  }

  /** As written, with the scaler at 0.81 a stack built from an engine of Isp 370 reports 0.81 * 0.81 * 370. */
  lemma StackAsWrittenScalesTwice(tank: FuelTank, engine: Thruster)
    requires TypesMatch(tank, engine) && engine.isp == 370.0
    ensures GetIsp(StackAsWritten(tank, engine, 0.81).value, 0.81) == 0.81 * 0.81 * 370.0
    ensures GetIsp(StackAsWritten(tank, engine, 0.81).value, 0.81) != GetIsp(engine, 0.81)
  {
  }

  /**
   * The Stack constructor as intended: the stack keeps the engine's stored Isp, so that its
   * getIsp() is the engine's under every value of the scaler.
   */
  function Stack(tank: FuelTank, engine: Thruster): (r: Result<Thruster>)
    ensures r.Err? <==> !TypesMatch(tank, engine)
    ensures r.Err? ==> r.failure == TankEngineTypeMismatch
    ensures r.Ok? ==> r.value.dryMass == tank.dryMass + engine.dryMass && r.value.mass == tank.mass + engine.mass
    ensures r.Ok? ==> r.value.thrust == engine.thrust
    ensures r.Ok? ==> forall s :: GetIsp(r.value, s) == GetIsp(engine, s)
    ensures r.Ok? && tank.propellants != [] ==> forall p {:trigger p in r.value.propellants} :: p in r.value.propellants <==> p in tank.propellants || p in engine.propellants
    ensures r.Ok? ==> r.value.minTWR == CalculateTWR(r.value.mass, r.value.thrust)
  {
    if TypesMatch(tank, engine) then
      Ok(NewThruster(tank.dryMass + engine.dryMass, tank.mass + engine.mass, engine.thrust,
        engine.isp, Combine(tank.propellants, engine.propellants)))
    else Err(TankEngineTypeMismatch)
  }

  /** A stack's delta-V is g times the engine's Isp times the log of the combined mass ratio. */
  lemma StackDeltaV(math: MathLib, tank: FuelTank, engine: Thruster, scaler: real)
    requires Stack(tank, engine).Ok?
    ensures DeltaV(math, Stack(tank, engine).value, scaler)
         == KERBIN_GRAVITY * GetIsp(engine, scaler) * math.ln(Div(tank.mass + engine.mass, tank.dryMass + engine.dryMass))
  {
    var s := Stack(tank, engine).value;
    var i, l := GetIsp(engine, scaler), math.ln(Div(tank.mass + engine.mass, tank.dryMass + engine.dryMass));
    assert GetIsp(s, scaler) == i;
    assert DeltaV(math, s, scaler) == i * l * KERBIN_GRAVITY;
  }

  /** A monopropellant tank under a liquid-fuel engine is rejected, and the default tank is accepted. */
  lemma StackTypeCheck(engine: Thruster)
    requires engine.propellants == DEFAULT_PROPELLANTS
    ensures Stack(ProceduralTank(1000.0, [Monopropellant]).value, engine) == Err(TankEngineTypeMismatch)
    ensures Stack(ProceduralTankOfMass(1000.0).value, engine).Ok?
    ensures Stack(ProceduralTankOfMass(1000.0).value, engine).value.dryMass == 1000.0 / 9.0 + engine.dryMass
  {
    ProceduralTankMonopropellant(1000.0);
    assert Classify(DEFAULT_PROPELLANTS) == Ok(LiquidFuelAndOxidizerTank);
  }

  /** Stack.duplicate(n): n references to the same stack. */
  function Duplicate(s: Thruster, n: nat): (r: seq<Thruster>)
    ensures |r| == n
    ensures forall i :: 0 <= i < n ==> r[i] == s
  {
    seq(n, _ => s)
  }

  /**
   * The Stage constructor as written: payload mass plus the stacks' dry masses and masses, their
   * summed thrust, and the summed thrust once more in the Isp slot.
   */
  function StageAsWritten(payloadMass: real, stacks: seq<Thruster>): Thruster
  {
    var rs := Readings(stacks);
    NewThruster(payloadMass + SumOf(rs, DryMass), payloadMass + SumOf(rs, Mass), SumOf(rs, Thrust),
      SumOf(rs, Thrust), CombineAll(PropellantLists(stacks)))
  }

  /** The Stage constructor as intended: the Isp slot receives the thrust-weighted harmonic mean of the stacks. */
  function Stage(payloadMass: real, stacks: seq<Thruster>): Thruster
  {
    var rs := Readings(stacks);
    NewThruster(payloadMass + SumOf(rs, DryMass), payloadMass + SumOf(rs, Mass), SumOf(rs, Thrust),
      HarmonicIsp(rs), CombineAll(PropellantLists(stacks)))
  }

  /** Stage(payload, stack, n): the stage of n copies of the stack. */
  function StageOf(payloadMass: real, stack: Thruster, n: nat): Thruster
  {
    Stage(payloadMass, Duplicate(stack, n))
  }

  /** A single-stack stage: payload plus the stack's masses, the stack's thrust, Isp and propellants. */
  lemma StageOneStack(payloadMass: real, s: Thruster)
    requires s.thrust != 0.0 && s.isp != 0.0
    ensures Stage(payloadMass, [s]).dryMass == payloadMass + s.dryMass
    ensures Stage(payloadMass, [s]).mass == payloadMass + s.mass
    ensures Stage(payloadMass, [s]).thrust == s.thrust && Stage(payloadMass, [s]).isp == s.isp
    ensures forall p :: p in Stage(payloadMass, [s]).propellants <==> p in DeterminePropellants(s.propellants)
  {
    var rs := Readings([s]);
    assert rs == [ReadingOf(s)];
    SumOfOne(ReadingOf(s), DryMass);
    SumOfOne(ReadingOf(s), Mass);
    SumOfOne(ReadingOf(s), Thrust);
    UniformHarmonicIsp(rs, s.isp);
    CombineOne(s.propellants);
    assert PropellantLists([s]) == [s.propellants];
  }

  /** Combining a single list keeps its members, and is empty exactly when the list is. */
  lemma CombineOne(ps: seq<Propellant>)
    ensures forall p :: p in CombineAll([ps]) <==> p in ps
    ensures CombineAll([ps]) == [] <==> ps == []
  {
    var c := CombineAll([ps]);
    assert forall p :: p in c <==> p in ps by {
      assert [ps][0] == ps;
    }
    if c != [] {
      assert c[0] in ps;
    }
    if ps != [] {
      assert ps[0] in c;
    }
  }

  /** As written, a single-stack stage reports its thrust as its Isp, not the stack's Isp. */
  lemma StageAsWrittenIspIsThrust(payloadMass: real, s: Thruster)
    ensures StageAsWritten(payloadMass, [s]).isp == s.thrust
    ensures s.thrust != s.isp ==> StageAsWritten(payloadMass, [s]).isp != s.isp
  {
    assert Readings([s]) == [ReadingOf(s)];
    SumOfOne(ReadingOf(s), Thrust);
  }

  /** Adding a stack adds its masses and thrust to the stage. */
  lemma StageAddStack(payloadMass: real, stacks: seq<Thruster>, s: Thruster)
    ensures Stage(payloadMass, stacks + [s]).dryMass == Stage(payloadMass, stacks).dryMass + s.dryMass
    ensures Stage(payloadMass, stacks + [s]).mass == Stage(payloadMass, stacks).mass + s.mass
    ensures Stage(payloadMass, stacks + [s]).thrust == Stage(payloadMass, stacks).thrust + s.thrust
  {
    assert Readings(stacks + [s])[..|stacks|] == Readings(stacks);
  }

  /** n copies of a stack multiply its masses and thrust by n. */
  lemma StageOfCopies(payloadMass: real, s: Thruster, n: nat)
    ensures StageOf(payloadMass, s, n).dryMass == payloadMass + Times(s.dryMass, n as real)
    ensures StageOf(payloadMass, s, n).mass == payloadMass + Times(s.mass, n as real)
    ensures StageOf(payloadMass, s, n).thrust == Times(s.thrust, n as real)
  {
    CopiesReadings(s, n);
    SumOfRepeat(ReadingOf(s), n, DryMass);
    SumOfRepeat(ReadingOf(s), n, Mass);
    SumOfRepeat(ReadingOf(s), n, Thrust);
  }

  lemma CopiesReadings(s: Thruster, n: nat)
    ensures Readings(Duplicate(s, n)) == Repeat(ReadingOf(s), n)
  {
  }

  /** n > 0 copies of a stack with thrust keep its Isp. */
  lemma StageOfCopiesIsp(payloadMass: real, s: Thruster, n: nat)
    requires n > 0 && s.thrust > 0.0 && s.isp != 0.0
    ensures StageOf(payloadMass, s, n).isp == s.isp
  {
    var rs := Repeat(ReadingOf(s), n);
    CopiesReadings(s, n);
    SumOfRepeat(ReadingOf(s), n, Thrust);
    assert Times(s.thrust, n as real) > 0.0;
    UniformHarmonicIsp(rs, s.isp);
  }

  /** An EngineCluster: its BaseThruster fields and the engines it was built from. */
  datatype Cluster = Cluster(body: Thruster, engines: seq<Thruster>)

  /**
   * The EngineCluster constructor: summed masses and thrust, the harmonic-mean Isp of the members'
   * getIsp() at the scaler in force at construction, and the members kept for getEngines.
   */
  function NewCluster(members: seq<Thruster>, scaler: real): (c: Cluster)
    ensures c.engines == members
  {
    var rs := ReadingsAt(members, scaler);
    Cluster(NewThruster(SumOf(rs, DryMass), SumOf(rs, Mass), SumOf(rs, Thrust), HarmonicIsp(rs),
      CombineAll(PropellantLists(members))), members)
  }

  /** A cluster of two engines: summed masses and thrust, Sigma thrust / Sigma (thrust / Isp). */
  lemma ClusterOfTwo(a: Thruster, b: Thruster, scaler: real)
    ensures NewCluster([a, b], scaler).body.dryMass == a.dryMass + b.dryMass
    ensures NewCluster([a, b], scaler).body.mass == a.mass + b.mass
    ensures NewCluster([a, b], scaler).body.thrust == a.thrust + b.thrust
    ensures NewCluster([a, b], scaler).body.isp
         == Div(a.thrust + b.thrust, Div(a.thrust, GetIsp(a, scaler)) + Div(b.thrust, GetIsp(b, scaler)))
  {
    var ra, rb := ReadingAt(a, scaler), ReadingAt(b, scaler);
    assert ReadingsAt([a, b], scaler) == [ra, rb];
    SumOfTwo(ra, rb, DryMass);
    SumOfTwo(ra, rb, Mass);
    SumOfTwo(ra, rb, Thrust);
    SumOfTwo(ra, rb, Flow);
  }

  /**
   * The scaler commutes with the cluster's harmonic mean: a cluster built while the scaler was 1
   * reports, under any scaler, the harmonic mean of its members' scaled Isps.
   */
  lemma ClusterIspFollowsScaler(members: seq<Thruster>, scaler: real)
    ensures GetIsp(NewCluster(members, 1.0).body, scaler) == HarmonicIsp(ReadingsAt(members, scaler))
  {
    var rs := Readings(members);
    ReadingsAtScaled(members, 1.0);
    ScaleIspByOne(rs);
    assert NewCluster(members, 1.0).body.isp == HarmonicIsp(rs);
    ReadingsAtScaled(members, scaler);
    ScaledHarmonicIsp(rs, scaler);
  }

  /** Members that all have the same Isp make a cluster of that Isp. */
  lemma ClusterUniformIsp(members: seq<Thruster>, isp: real)
    requires isp != 0.0
    requires SumOf(Readings(members), Thrust) != 0.0
    requires forall i :: 0 <= i < |members| ==> members[i].isp == isp
    ensures NewCluster(members, 1.0).body.isp == isp
  {
    var rs := ReadingsAt(members, 1.0);
    assert rs == Readings(members);
    UniformHarmonicIsp(rs, isp);
  }
}
