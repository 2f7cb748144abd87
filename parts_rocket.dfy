/**
 * Rocket of the parts package: an array of stages, the index of the stage that is firing, and the
 * Builder that puts each new stage on top of the previous one.
 */
module PartsRocket {
  import opened Wrappers
  import opened Physics
  import opened Propellants
  import opened Aggregates
  import PartsTank
  import opened PartsStage
  import RocketVehicle

  /** The summed dry masses of the stages. */
  function SumDry(ss: seq<RocketStage>): real
  {
    if ss == [] then 0.0 else SumDry(ss[..|ss| - 1]) + ss[|ss| - 1].dryMass
  }

  /** The summed total masses of the stages. */
  function SumTotal(ss: seq<RocketStage>): real
  {
    if ss == [] then 0.0 else SumTotal(ss[..|ss| - 1]) + ss[|ss| - 1].totalMass
  }

  /** The summed current masses of the stages. */
  function SumMass(ss: seq<RocketStage>): real
    reads ss
  {
    if ss == [] then 0.0 else SumMass(ss[..|ss| - 1]) + ss[|ss| - 1].mass
  }

  /** The summed delta-V of the stages. */
  function SumDeltaV(math: MathLib, ss: seq<RocketStage>): real
  {
    if ss == [] then 0.0 else SumDeltaV(math, ss[..|ss| - 1]) + ss[|ss| - 1].DeltaV(math)
  }

  /**
   * The stages' propellant lists one after the other (ListUtils.union appends the second list to
   * the first): a propellant is in it exactly when some stage burns it.
   */
  function AllPropellants(ss: seq<RocketStage>): (ps: seq<Propellant>)
    ensures forall p :: p in ps <==> exists i :: 0 <= i < |ss| && p in ss[i].propellants
  {
    if ss == [] then []
    else
      var init := ss[..|ss| - 1];
      var rest := AllPropellants(init);
      assert forall i :: 0 <= i < |init| ==> init[i] == ss[i];
      rest + ss[|ss| - 1].propellants
  }

  /** A stage full of propellant weighs its total mass, so full stages together weigh their total. */
  lemma {:induction false} FullStagesMass(ss: seq<RocketStage>)
    requires forall i :: 0 <= i < |ss| ==> ss[i].mass == ss[i].totalMass
    ensures SumMass(ss) == SumTotal(ss)
  {
    if ss != [] {
      FullStagesMass(ss[..|ss| - 1]);
    }
  }

  /** stage() as written: the counter advances and is capped at the number of stages. */
  function NextStageAsWritten(current: nat, count: nat): nat
  {
    if current + 1 < count then current + 1 else count
  }

  /** As written, staging from the last stage leaves the counter one past the last index. */
  lemma NextStageAsWrittenLeavesRange(count: nat)
    requires count >= 1
    ensures NextStageAsWritten(count - 1, count) == count
  {
  }

  /** stage() as intended: the counter advances and stays on the last stage once it is reached. */
  function NextStage(current: nat, count: nat): (next: nat)
    requires current < count
    ensures next < count
    ensures current < count - 1 ==> next == current + 1
    ensures current == count - 1 ==> next == current
  {
    if current + 1 < count then current + 1 else count - 1
  }

  class Rocket {
    const stages: seq<RocketStage>
    const dryMass: real
    const totalMass: real
    const propellants: seq<Propellant>
    var currentStage: nat

    /**
     * The private constructor once at least one stage is known: one pass adding the stages' dry
     * and total masses and appending their propellants.  The first stage fires first.
     */
    constructor Init(ss: seq<RocketStage>)
      requires |ss| >= 1
      ensures stages == ss && currentStage == 0
      ensures dryMass == SumDry(ss) && totalMass == SumTotal(ss)
      ensures propellants == AllPropellants(ss)
    {
      var dry, total, ps := 0.0, 0.0, [];
      var i := 0;
      while i < |ss|
        invariant 0 <= i <= |ss|
        invariant dry == SumDry(ss[..i]) && total == SumTotal(ss[..i])
        invariant ps == AllPropellants(ss[..i])
      {
        assert ss[..i + 1][..i] == ss[..i];
        dry := dry + ss[i].dryMass;
        total := total + ss[i].totalMass;
        ps := ps + ss[i].propellants;
        i := i + 1;
      }
      assert ss[..i] == ss;
      stages := ss;
      dryMass := dry;
      totalMass := total;
      propellants := ps;
      currentStage := 0;
    }

    /** The counter names a stage. */
    predicate Valid()
      reads this
    {
      currentStage < |stages|
    }

    /** stage() as written: after the last stage the counter leaves the array. */
    method StageAsWritten()
      modifies this
      ensures currentStage == NextStageAsWritten(old(currentStage), |stages|)
    {
      currentStage := NextStageAsWritten(currentStage, |stages|);
    }

    /** stage() as intended: the counter keeps naming a stage. */
    method Stage()
      requires Valid()
      modifies this
      ensures currentStage == NextStage(old(currentStage), |stages|)
      ensures Valid()
    {
      currentStage := NextStage(currentStage, |stages|);
    }

    /** getStage(): the stage that is firing. */
    function GetStage(): (s: RocketStage)
      requires Valid()
      reads this
      ensures s in stages
    {
      stages[currentStage]
    }

    /** getIsp, getMinTWR, getMaxTWR and getThrust: those of the stage that is firing. */
    function GetIsp(): real
      requires Valid()
      reads this
    {
      GetStage().GetIsp()
    }

    function MinTWR(): real
      requires Valid()
      reads this
    {
      GetStage().MinTWR()
    }

    function MaxTWR(): real
      requires Valid()
      reads this
    {
      GetStage().MaxTWR()
    }

    function Thrust(): real
      requires Valid()
      reads this
    {
      GetStage().thrust
    }

    /** getMass: the loop adding the stages' current masses. */
    method GetMass() returns (m: real)
      ensures m == SumMass(stages)
    {
      m := 0.0;
      var i := 0;
      while i < |stages|
        invariant 0 <= i <= |stages|
        invariant m == SumMass(stages[..i])
      {
        assert stages[..i + 1][..i] == stages[..i];
        m := m + stages[i].mass;
        i := i + 1;
      }
      assert stages[..i] == stages;
    }

    /** getDeltaV: the loop adding the stages' delta-V. */
    method GetDeltaV(math: MathLib) returns (deltaV: real)
      ensures deltaV == SumDeltaV(math, stages)
    {
      deltaV := 0.0;
      var i := 0;
      while i < |stages|
        invariant 0 <= i <= |stages|
        invariant deltaV == SumDeltaV(math, stages[..i])
      {
        assert stages[..i + 1][..i] == stages[..i];
        deltaV := deltaV + stages[i].DeltaV(math);
        i := i + 1;
      }
      assert stages[..i] == stages;
    }

    /** setMass: passed on to the stage that is firing. */
    method SetMass(m: real)
      requires Valid()
      modifies GetStage()
      ensures GetStage().mass == Clamp(m, GetStage().dryMass, GetStage().totalMass)
    {
      stages[currentStage].SetMass(m);
    }

    /** changeMass: passed on to the stage that is firing. */
    method ChangeMass(d: real)
      requires Valid()
      modifies GetStage()
      ensures GetStage().mass == Clamp(old(GetStage().mass) + d, GetStage().dryMass, GetStage().totalMass)
    {
      stages[currentStage].ChangeMass(d);
    }
  }

  /** new Rocket(stages): at least one stage is required. */
  method NewRocket(ss: seq<RocketStage>) returns (r: Result<Rocket>)
    ensures r.Ok? <==> |ss| >= 1
    ensures r.Err? ==> r.failure == NoStages
    ensures r.Ok? ==> fresh(r.value) && r.value.stages == ss && r.value.currentStage == 0
    ensures r.Ok? ==> r.value.dryMass == SumDry(ss) && r.value.totalMass == SumTotal(ss)
    ensures r.Ok? ==> r.value.propellants == AllPropellants(ss)
  {
    if |ss| < 1 {
      return Err(NoStages);
    }
    var rocket := new Rocket.Init(ss);
    r := Ok(rocket);
  }

  /** Rocket.Builder: the payload mass and the stages in the order they were added. */
  class Builder {
    const payload: real
    var stages: seq<RocketStage>

    /** Builder(payloadMass), Builder(payload) and Builder(), the last with no payload mass. */
    constructor (payloadMass: real)
      ensures payload == payloadMass && stages == []
    {
      payload := payloadMass;
      stages := [];
    }

    /** What the next stage carries: the payload first, then the current mass of the stage added last. */
    function NextPayload(): (m: real)
      reads this, stages
      ensures stages == [] ==> m == payload
      ensures stages != [] ==> m == stages[|stages| - 1].mass
    {
      if stages == [] then payload else stages[|stages| - 1].mass
    }

    /** addStage(stage): appended as it is. */
    method AddStage(stage: RocketStage)
      modifies this
      ensures stages == old(stages) + [stage]
    {
      stages := stages + [stage];
    }

    /** addStage(payload, fuelTank, engines): a new stage on the given payload. */
    method AddStageOn(payloadMass: real, tank: PartsTank.Tank, engines: seq<Reading>) returns (s: RocketStage)
      modifies this
      ensures fresh(s) && stages == old(stages) + [s]
      ensures s.dryMass == payloadMass + tank.dryMass + SumOf(engines, DryMass)
      ensures s.totalMass == payloadMass + tank.totalMass + SumOf(engines, Mass)
      ensures s.thrust == SumOf(engines, Thrust) && s.isp == HarmonicIsp(engines)
      ensures s.mass == s.totalMass
    {
      s := new RocketStage(payloadMass, tank, engines);
      AddStage(s);
    }

    /** addStage(fuelTank, engines): a new stage on top of what NextPayload names. */
    method AddStageOnTop(tank: PartsTank.Tank, engines: seq<Reading>) returns (s: RocketStage)
      modifies this
      ensures fresh(s) && stages == old(stages) + [s]
      ensures s.dryMass == old(NextPayload()) + tank.dryMass + SumOf(engines, DryMass)
      ensures s.totalMass == old(NextPayload()) + tank.totalMass + SumOf(engines, Mass)
      ensures s.thrust == SumOf(engines, Thrust) && s.isp == HarmonicIsp(engines)
      ensures s.mass == s.totalMass
    {
      var payloadMass := NextPayload();
      s := AddStageOn(payloadMass, tank, engines);
    }

    /** build: the list reversed in place, so that the stage added last fires first, then the Rocket. */
    method Build() returns (r: Result<Rocket>)
      modifies this
      ensures stages == RocketVehicle.Reverse(old(stages))
      ensures r.Ok? <==> |old(stages)| >= 1
      ensures r.Err? ==> r.failure == NoStages
      ensures r.Ok? ==> fresh(r.value) && r.value.stages == stages && r.value.currentStage == 0
      ensures r.Ok? ==> r.value.dryMass == SumDry(stages) && r.value.totalMass == SumTotal(stages)
      ensures r.Ok? ==> r.value.propellants == AllPropellants(stages)
    {
      stages := RocketVehicle.Reverse(stages);
      r := NewRocket(stages);
    }
  }

  /**
   * Two stages through the builder: the stage added second carries the first one's mass, and it is
   * the one the built rocket fires first.
   */
  method TwoStageExample(tank2: PartsTank.Tank, tank1: PartsTank.Tank, engines: seq<Reading>, payloadMass: real)
    returns (r: Result<Rocket>)
    ensures r.Ok? && |r.value.stages| == 2 && r.value.Valid()
    ensures r.value.stages[1].totalMass == payloadMass + tank2.totalMass + SumOf(engines, Mass)
    ensures r.value.GetStage().totalMass == r.value.stages[1].totalMass + tank1.totalMass + SumOf(engines, Mass)
  {
    var b := new Builder(payloadMass);
    var s2 := b.AddStageOnTop(tank2, engines);
    var s1 := b.AddStageOnTop(tank1, engines);
    r := b.Build();
  }
}
