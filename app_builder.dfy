/**
 * App.Builder, the design search.  For a delta-V target and one to three engines (the first one
 * lifts off) it sweeps the payload mass down from the most the first engine can lift and, for each
 * payload, the procedural tank masses up, printing and keeping each candidate rocket that beats the
 * target with a better payload fraction than the best so far; the first payload mass with any such
 * candidate ends the search.
 */
module AppBuilder {
  import opened Wrappers
  import opened Physics
  import opened Propellants
  import opened RocketThruster
  import opened RocketTank
  import opened RocketAssembly
  import opened RocketVehicle
  import RocketEngine

  const DEFAULT_MASS_INCREMENTS: real := 50.0
  const TARGET_STAGE_1_TWR: real := 1.2
  const TARGET_STAGE_2_TWR: real := 2.0
  const TARGET_STAGE_3_TWR: real := 1.0

  /** An engine the search can put procedural tanks on: its propellants are listed and make a tank type. */
  predicate Stackable(e: Thruster)
  {
    e.propellants != [] && Classify(e.propellants).Ok?
  }

  /** An engine without negative mass or thrust; the searches end only for such engines. */
  predicate Physical(e: Thruster)
  {
    0.0 <= e.mass && 0.0 <= e.thrust
  }

  /**
   * One candidate stage: a procedural tank of the given mass for the engine's propellants, stacked
   * on the engine, n such stacks on top of the payload.  The tank or the stack is refused exactly
   * when the engine is not stackable.
   */
  function CandidateStage(payloadMass: real, engine: Thruster, tankMass: real, n: nat): (r: Result<Thruster>)
    ensures r.Ok? <==> Stackable(engine)
    ensures r.Ok? ==> r.value.mass == payloadMass + Times(tankMass + engine.mass, n as real)
    ensures r.Ok? ==> r.value.thrust == Times(engine.thrust, n as real)
    ensures r.Ok? ==> r.value.minTWR == CalculateTWR(r.value.mass, r.value.thrust)
  {
    var tank := ProceduralTank(tankMass, engine.propellants);
    if tank.Err? then Err(tank.failure)
    else
      var stack := Stack(tank.value, engine);
      if stack.Err? then Err(stack.failure)
      else
        StageOfCopies(payloadMass, stack.value, n);
        Ok(StageOf(payloadMass, stack.value, n))
  }

  /** tank2.getMass() / (tank1.getMass() / stackSize): the upper tank against one lower tank. */
  function SizeRatio(tank2Mass: real, tank1Mass: real, n: nat): real
  {
    Div(tank2Mass, Div(tank1Mass, n as real))
  }

  /** 100 * payload / the rocket's total mass: the payload's share of the lift-off mass, in percent. */
  function PayloadFraction(payloadMass: real, rocket: Rocket): real
    requires |rocket.stages| >= 1
  {
    Div(100.0 * payloadMass, TotalMass(rocket))
  }

  /** The k-th value of a sweep from start by step: the loop variable after k additions of step. */
  function Sweep(start: real, step: real, k: nat): real
  {
    start + (k as real) * step
  }

  /** The next value of a sweep is one step on. */
  lemma SweepNext(start: real, step: real, k: nat)
    ensures Sweep(start, step, k + 1) == Sweep(start, step, k) + step
  {
    assert ((k + 1) as real) * step == (k as real) * step + step;
  }

  /** A step count at which a sweep with a positive step has passed the bound. */
  ghost function SweepEnd(start: real, step: real, bound: real): (n: nat)
    requires step > 0.0
    ensures Sweep(start, step, n) > bound
  {
    if start > bound then 0
    else
      var x := (bound - start) / step;
      var n: nat := x.Floor + 1;
      assert x * step == bound - start;
      assert (n as real - x) * step > 0.0;
      n
  }

  /** With a positive step, a sweep value at most the bound comes before one past it. */
  lemma SweepBefore(start: real, step: real, k: nat, n: nat, bound: real)
    requires step > 0.0 && Sweep(start, step, k) <= bound < Sweep(start, step, n)
    ensures k < n
  {
    assert (n as real - k as real) * step > 0.0;
  }

  /** x is one of the values a sweep from start by step visits. */
  ghost predicate OnSweep(x: real, start: real, step: real)
  {
    exists k: nat :: Sweep(start, step, k) == x
  }

  /** The k-th value of a sweep is one it visits. */
  lemma SweepOn(start: real, step: real, k: nat)
    ensures OnSweep(Sweep(start, step, k), start, step)
  {
  }

  /** The settings a search reads: the target, the engines, the payload ceiling, the increment and the first stage's stack count. */
  datatype Settings = Settings(targetDeltaV: real, engines: seq<Thruster>, maxPayloadMass: real, massIncrements: real,
                               firstStageStackSize: nat)

  /**
   * A candidate the search prints: the rocket, its payload, its tank masses from the first stage
   * up, its delta-V and its payload fraction.
   */
  datatype Design = Design(rocket: Rocket, payloadMass: real, tankMasses: seq<real>, deltaV: real, payloadFraction: real)

  /** What every printed candidate has: a payload on the payload sweep, a delta-V above the target and a positive fraction. */
  ghost predicate Scored(math: MathLib, scaler: real, cfg: Settings, d: Design)
  {
    && |d.rocket.stages| >= 1
    && 0.0 < d.payloadMass && OnSweep(d.payloadMass, cfg.maxPayloadMass, -cfg.massIncrements)
    && d.deltaV == SumDeltaV(math, d.rocket.stages, scaler) && d.deltaV > cfg.targetDeltaV
    && d.payloadFraction == PayloadFraction(d.payloadMass, d.rocket) && d.payloadFraction > 0.0
  }

  /** A one-stage candidate: its tank on the tank sweep, a stage that lifts off at 1.2 and the rocket of that stage. */
  ghost predicate OneStageDesign(math: MathLib, scaler: real, cfg: Settings, d: Design)
    requires |cfg.engines| >= 1
  {
    && Scored(math, scaler, cfg, d)
    && |d.tankMasses| == 1 && OnSweep(d.tankMasses[0], cfg.massIncrements, cfg.massIncrements)
    && var s1 := CandidateStage(d.payloadMass, cfg.engines[0], d.tankMasses[0], cfg.firstStageStackSize);
    && s1.Ok? && s1.value.minTWR >= TARGET_STAGE_1_TWR
    && d.rocket == Rocket([s1.value])
  }

  /**
   * A two-stage candidate: the upper stage (one stack of the second engine) reaches 2.0 and the
   * first stage, carrying it, reaches 1.2; the first tank sweep starts one increment above the
   * upper tank, the tank ratio lies strictly between 0.3 and 1, and the rocket fires the first stage first.
   */
  ghost predicate TwoStageDesign(math: MathLib, scaler: real, cfg: Settings, d: Design)
    requires |cfg.engines| >= 2
  {
    && Scored(math, scaler, cfg, d)
    && TwoStageTanks(cfg, d.tankMasses)
    && TwoStageStages(cfg, d.payloadMass, d.tankMasses, d.rocket)
  }

  /** The two tank masses, first stage first: the upper on its sweep, the first on a sweep one increment above it, their ratio in the window. */
  ghost predicate TwoStageTanks(cfg: Settings, tankMasses: seq<real>)
  {
    && |tankMasses| == 2
    && OnSweep(tankMasses[1], cfg.massIncrements, cfg.massIncrements)
    && OnSweep(tankMasses[0], tankMasses[1] + cfg.massIncrements, cfg.massIncrements)
    && 0.3 < SizeRatio(tankMasses[1], tankMasses[0], cfg.firstStageStackSize) < 1.0
  }

  /** The two stages built on those tanks, the first carrying the upper one, and the rocket of them. */
  ghost predicate TwoStageStages(cfg: Settings, payloadMass: real, tankMasses: seq<real>, rocket: Rocket)
    requires |cfg.engines| >= 2 && |tankMasses| == 2
  {
    && var s2 := CandidateStage(payloadMass, cfg.engines[1], tankMasses[1], 1);
    && s2.Ok? && s2.value.minTWR >= TARGET_STAGE_2_TWR
    && var s1 := CandidateStage(s2.value.mass, cfg.engines[0], tankMasses[0], cfg.firstStageStackSize);
    && s1.Ok? && s1.value.minTWR >= TARGET_STAGE_1_TWR
    && rocket == Rocket([s1.value, s2.value])
  }

  /**
   * A three-stage candidate: the top stage reaches 1.0, the middle one 2.0 and at least the top
   * one's ratio, the first stage 1.2; each tank sweep starts one increment above the one above it,
   * and the rocket holds all three stages, the first stage first.
   */
  ghost predicate ThreeStageDesign(math: MathLib, scaler: real, cfg: Settings, d: Design)
    requires |cfg.engines| >= 3
  {
    && Scored(math, scaler, cfg, d)
    && ThreeStageTanks(cfg, d.tankMasses)
    && ThreeStageStages(cfg, d.payloadMass, d.tankMasses, d.rocket)
  }

  /** The three tank masses, first stage first: each on a sweep starting one increment above the one above it. */
  ghost predicate ThreeStageTanks(cfg: Settings, tankMasses: seq<real>)
  {
    && |tankMasses| == 3
    && OnSweep(tankMasses[2], cfg.massIncrements, cfg.massIncrements)
    && OnSweep(tankMasses[1], tankMasses[2] + cfg.massIncrements, cfg.massIncrements)
    && OnSweep(tankMasses[0], tankMasses[1] + cfg.massIncrements, cfg.massIncrements)
  }

  /** The three stages built on those tanks, each carrying the one above, and the rocket of them. */
  ghost predicate ThreeStageStages(cfg: Settings, payloadMass: real, tankMasses: seq<real>, rocket: Rocket)
    requires |cfg.engines| >= 3 && |tankMasses| == 3
  {
    ThreeStageBuilt(cfg, payloadMass, tankMasses[2], tankMasses[1], tankMasses[0]) == Some(rocket)
  }

  /**
   * The rocket the three-stage search builds on three tanks, when the top stage reaches 1.0, the
   * middle one 2.0 and at least the top one's ratio, and the first stage 1.2.
   */
  function ThreeStageBuilt(cfg: Settings, payloadMass: real, tank3Mass: real, tank2Mass: real, tank1Mass: real): Option<Rocket>
    requires |cfg.engines| >= 3
  {
    var s3 := CandidateStage(payloadMass, cfg.engines[2], tank3Mass, 1);
    if s3.Err? || s3.value.minTWR < TARGET_STAGE_3_TWR then None
    else
      var s2 := CandidateStage(s3.value.mass, cfg.engines[1], tank2Mass, 1);
      if s2.Err? || s2.value.minTWR < TARGET_STAGE_2_TWR || s2.value.minTWR < s3.value.minTWR then None
      else
        var s1 := CandidateStage(s2.value.mass, cfg.engines[0], tank1Mass, cfg.firstStageStackSize);
        if s1.Err? || s1.value.minTWR < TARGET_STAGE_1_TWR then None
        else Some(Rocket([s1.value, s2.value, s3.value]))
  }

  /** Each printed candidate beats the one printed before it, at the same payload mass. */
  predicate Improving(log: seq<Design>)
  {
    && (forall i :: 0 < i < |log| ==> log[i - 1].payloadFraction < log[i].payloadFraction)
    && (forall i :: 0 <= i < |log| ==> log[i].payloadMass == log[0].payloadMass)
  }

  /** The search's answer is its last printed candidate, or none when it printed none. */
  predicate Reported(r: Result<Option<Design>>, log: seq<Design>)
  {
    && Improving(log)
    && (r.Ok? ==> (r.value.Some? <==> log != []))
    && (r.Ok? && r.value.Some? ==> r.value.value == log[|log| - 1])
  }

  /** The best so far and its fraction, as the log of printed candidates determines them. */
  predicate Best(best: Option<Design>, log: seq<Design>, bestFraction: real)
  {
    && (log == [] ==> best == None && bestFraction == 0.0)
    && (log != [] ==> best == Some(log[|log| - 1]) && bestFraction == log[|log| - 1].payloadFraction)
  }

  /** Printed candidates improve strictly, so the last one printed has the best fraction of all. */
  lemma {:induction false} ImprovingSorted(log: seq<Design>)
    requires Improving(log)
    ensures forall i, j :: 0 <= i < j < |log| ==> log[i].payloadFraction < log[j].payloadFraction
  {
    if |log| > 1 {
      var init := log[..|log| - 1];
      assert Improving(init) by {
        assert forall i :: 0 <= i < |init| ==> init[i] == log[i];
      }
      ImprovingSorted(init);
      forall i, j | 0 <= i < j < |log|
        ensures log[i].payloadFraction < log[j].payloadFraction
      {
        assert init[i] == log[i];
        if j < |log| - 1 {
          assert init[j] == log[j];
        } else if i < j - 1 {
          assert init[j - 1] == log[j - 1];
        }
      }
    }
  }

  /** The most payload the first engine could hold up, rounded up to a whole number of default increments. */
  function MaxPayloadMass(thrust: real): (m: real)
    ensures Div(thrust, KERBIN_GRAVITY) <= m < Div(thrust, KERBIN_GRAVITY) + DEFAULT_MASS_INCREMENTS
    ensures (m / DEFAULT_MASS_INCREMENTS).Floor as real == m / DEFAULT_MASS_INCREMENTS
  {
    var c := Ceil(Div(thrust, KERBIN_GRAVITY) / DEFAULT_MASS_INCREMENTS);
    assert (c as real * DEFAULT_MASS_INCREMENTS) / DEFAULT_MASS_INCREMENTS == c as real;
    c as real * DEFAULT_MASS_INCREMENTS
  }

  /** The tank mass past which a stage on the engine cannot reach the target thrust-to-weight ratio. */
  function TankLimit(engine: Thruster, target: real): real
  {
    Div(engine.thrust, KERBIN_GRAVITY * target)
  }

  /** A thrust below target times the weight of a positive mass gives a ratio below target. */
  lemma TWRBelow(mass: real, thrust: real, target: real)
    requires 0.0 < mass && 0.0 < target && thrust < (KERBIN_GRAVITY * target) * mass
    ensures CalculateTWR(mass, thrust) < target
  {
    var x, w := CalculateTWR(mass, thrust), KERBIN_GRAVITY * mass;
    CalculateTWRTimesWeight(mass, thrust);
    assert (x - target) * w == thrust - (KERBIN_GRAVITY * target) * mass;
    assert x - target >= 0.0 ==> (x - target) * w >= 0.0;
  }

  /** k >= 1 stacks whose tank alone outweighs the thrust over c weigh more than their thrust over c. */
  lemma LiftBound(k: real, thrust: real, tankMass: real, engineMass: real, payloadMass: real, c: real)
    requires 1.0 <= k && 0.0 <= thrust < tankMass * c && 0.0 <= engineMass && 0.0 <= payloadMass && 0.0 < c
    ensures 0.0 < payloadMass + Times(tankMass + engineMass, k)
    ensures Times(thrust, k) < c * (payloadMass + Times(tankMass + engineMass, k))
  {
    assert k * thrust < k * (tankMass * c);
    assert c * (payloadMass + k * (tankMass + engineMass)) == c * payloadMass + k * (tankMass * c) + k * engineMass * c;
    assert c * payloadMass >= 0.0 && k * engineMass * c >= 0.0;
    assert tankMass > 0.0;
    assert k * (tankMass + engineMass) > 0.0;
  }

  /**
   * n stacks of a tank past the limit over a payload fall below the target ratio (the arithmetic
   * of a candidate stage, whose mass and thrust CandidateStage states).
   */
  lemma StacksTankLimit(payloadMass: real, engineMass: real, thrust: real, tankMass: real, n: nat, target: real)
    requires 0.0 <= payloadMass && 0.0 <= engineMass && 0.0 <= thrust && 0.0 < target
    ensures tankMass > Div(thrust, KERBIN_GRAVITY * target) ==>
      CalculateTWR(payloadMass + Times(tankMass + engineMass, n as real), Times(thrust, n as real)) < target
  {
    if tankMass > Div(thrust, KERBIN_GRAVITY * target) {
      var c, l := KERBIN_GRAVITY * target, Div(thrust, KERBIN_GRAVITY * target);
      DivMul(thrust, c);
      assert (tankMass - l) * c > 0.0;
      if n == 0 {
        assert Times(thrust, n as real) == 0.0;
      } else {
        LiftBound(n as real, thrust, tankMass, engineMass, payloadMass, c);
        TWRBelow(payloadMass + Times(tankMass + engineMass, n as real), Times(thrust, n as real), target);
      }
    }
  }

  /** A candidate whose tank is past the limit falls below the target ratio: every tank sweep ends. */
  lemma CandidateTankLimit(payloadMass: real, engine: Thruster, tankMass: real, n: nat, target: real)
    requires Stackable(engine) && Physical(engine) && 0.0 <= payloadMass && 0.0 < target
    ensures tankMass > TankLimit(engine, target) ==> CandidateStage(payloadMass, engine, tankMass, n).value.minTWR < target
  {
    StacksTankLimit(payloadMass, engine.mass, engine.thrust, tankMass, n, target);
  }

  /** n copies of a non-negative mass weigh nothing negative, and something once there is a copy of a positive mass. */
  lemma TimesSign(x: real, k: real)
    requires 0.0 <= x && 0.0 <= k
    ensures 0.0 <= Times(x, k)
    ensures 0.0 < x && 1.0 <= k ==> 0.0 < Times(x, k)
  {
  }

  /** A candidate weighs at least its payload, and more once it has a stack and a tank with mass. */
  lemma CandidateHeavier(payloadMass: real, engine: Thruster, tankMass: real, n: nat)
    requires Stackable(engine) && Physical(engine) && 0.0 <= tankMass
    ensures CandidateStage(payloadMass, engine, tankMass, n).value.mass >= payloadMass
    ensures n >= 1 && tankMass > 0.0 ==> CandidateStage(payloadMass, engine, tankMass, n).value.mass > payloadMass
  {
    TimesSign(tankMass + engine.mass, n as real);
  }

  /** A candidate of no stacks has no thrust and so a ratio of 0: a stage that lifts off has a stack. */
  lemma CandidateNeedsStack(payloadMass: real, engine: Thruster, tankMass: real, n: nat)
    requires Stackable(engine)
    ensures n == 0 ==> CandidateStage(payloadMass, engine, tankMass, n).value.minTWR == 0.0
  {
  }

  /** The sign of a product with a positive factor is the sign of the other factor. */
  lemma ProductSign(a: real, b: real)
    requires 0.0 < b
    ensures a <= 0.0 ==> a * b <= 0.0
    ensures 0.0 < a ==> 0.0 < a * b
  {
  }

  /** A positive payload under more mass is less than 100 percent of it. */
  lemma FractionBelow100(payloadMass: real, totalMass: real)
    requires 0.0 < payloadMass < totalMass
    ensures 0.0 < Div(100.0 * payloadMass, totalMass) < 100.0
  {
    var f := Div(100.0 * payloadMass, totalMass);
    DivMul(100.0 * payloadMass, totalMass);
    assert (100.0 - f) * totalMass == 100.0 * (totalMass - payloadMass);
    ProductSign(f, totalMass);
    ProductSign(100.0 - f, totalMass);
  }

  /** The payload of a one-stage candidate is a share of its mass strictly between 0 and 100 percent. */
  lemma OneStageFraction(math: MathLib, scaler: real, cfg: Settings, d: Design)
    requires |cfg.engines| == 1 && Physical(cfg.engines[0]) && OneStageDesign(math, scaler, cfg, d)
    requires cfg.massIncrements > 0.0
    ensures d.payloadFraction < 100.0
  {
    var e, m, n := cfg.engines[0], d.tankMasses[0], cfg.firstStageStackSize;
    var k: nat :| Sweep(cfg.massIncrements, cfg.massIncrements, k) == m;
    TimesSign(cfg.massIncrements, k as real);
    CandidateNeedsStack(d.payloadMass, e, m, n);
    CandidateHeavier(d.payloadMass, e, m, n);
    FractionBelow100(d.payloadMass, TotalMass(d.rocket));
  }

  /** The rocket the three-stage search assembles as written: stage 2 and stage 1 only. */
  function ThreeStageRocketAsWritten(stage3: Thruster, stage2: Thruster, stage1: Thruster): Rocket
  {
    Rocket(Reverse([stage2, stage1]))
  }

  /** The rocket as intended: all three stages added, top stage first. */
  function ThreeStageRocket(stage3: Thruster, stage2: Thruster, stage1: Thruster): Rocket
  {
    Rocket(Reverse([stage3, stage2, stage1]))
  }

  /**
   * As written the top stage is missing from the rocket: its delta-V is never counted toward the
   * target, although its mass is (as stage 2's payload).  As intended the rocket has all three
   * stages, the first one first, and its delta-V is the sum of theirs.
   */
  lemma ThreeStageRocketDropsTop(math: MathLib, stage3: Thruster, stage2: Thruster, stage1: Thruster, scaler: real)
    ensures ThreeStageRocketAsWritten(stage3, stage2, stage1).stages == [stage1, stage2]
    ensures ThreeStageRocket(stage3, stage2, stage1).stages == [stage1, stage2, stage3]
    ensures SumDeltaV(math, ThreeStageRocketAsWritten(stage3, stage2, stage1).stages, scaler) + DeltaV(math, stage3, scaler)
         == SumDeltaV(math, ThreeStageRocket(stage3, stage2, stage1).stages, scaler)
    ensures TotalMass(ThreeStageRocketAsWritten(stage3, stage2, stage1)) == TotalMass(ThreeStageRocket(stage3, stage2, stage1))
  {
    var w, c := [stage1, stage2], [stage1, stage2, stage3];
    assert Reverse([stage2, stage1]) == w;
    assert Reverse([stage3, stage2, stage1]) == c;
    assert c[..2] == w;
  }

  /** App.Builder: the target, the engines (the first lifts off), the payload ceiling and three settings. */
  class Builder {
    const targetDeltaV: real
    const engines: seq<Thruster>
    const maxPayloadMass: real
    var massIncrements: real
    var ispScaler: real
    var firstStageStackSize: nat

    /** The constructor once the engine count is known good; the increment is still the default when the ceiling is rounded. */
    constructor Init(targetDeltaV: real, engines: seq<Thruster>, currentScaler: real)
      requires 1 <= |engines| <= 3
      ensures this.targetDeltaV == targetDeltaV && this.engines == engines && Valid()
      ensures maxPayloadMass == MaxPayloadMass(engines[0].thrust)
      ensures massIncrements == DEFAULT_MASS_INCREMENTS && ispScaler == currentScaler && firstStageStackSize == 1
    {
      this.targetDeltaV := targetDeltaV;
      this.engines := engines;
      massIncrements := DEFAULT_MASS_INCREMENTS;
      ispScaler := currentScaler;
      firstStageStackSize := 1;
      maxPayloadMass := MaxPayloadMass(engines[0].thrust);
    }

    /** One to three engines, one per stage. */
    predicate Valid()
    {
      1 <= |engines| <= 3
    }

    /** The settings the searches read. */
    function Current(): Settings
      reads this
    {
      Settings(targetDeltaV, engines, maxPayloadMass, massIncrements, firstStageStackSize)
    }

    /** setMassIncrements: the step of every sweep; the payload ceiling stays as it was rounded. */
    method SetMassIncrements(inc: real)
      modifies this
      ensures massIncrements == inc && ispScaler == old(ispScaler) && firstStageStackSize == old(firstStageStackSize)
    {
      massIncrements := inc;
    }

    /** setIspScaler: the scaler the searches run under. */
    method SetIspScaler(scaler: real)
      modifies this
      ensures ispScaler == scaler && massIncrements == old(massIncrements) && firstStageStackSize == old(firstStageStackSize)
    {
      ispScaler := scaler;
    }

    /** setFirstStageStackSize: how many stacks the first stage has. */
    method SetFirstStageStackSize(n: nat)
      modifies this
      ensures firstStageStackSize == n && massIncrements == old(massIncrements) && ispScaler == old(ispScaler)
    {
      firstStageStackSize := n;
    }

    /**
     * run: the builder's scaler is installed, the search for the number of engines runs, and the
     * original scaler is put back.  A refused tank or stack ends the run with the builder's scaler
     * still installed, as the exception skips the restore.
     */
    method Run(math: MathLib, isp: RocketEngine.IspScaler) returns (r: Result<Option<Design>>, log: seq<Design>)
      requires Searchable(Current())
      modifies isp
      ensures r.Ok? ==> isp.value == old(isp.value)
      ensures r.Err? ==> isp.value == ispScaler
      ensures r.Err? ==> !AllStackable(Current())
      ensures AllStackable(Current()) ==> r.Ok?
      ensures Reported(r, log)
      ensures forall i :: 0 <= i < |log| ==> Designed(math, ispScaler, Current(), log[i])
      ensures r.Ok? && r.value.Some? ==> NoneAbove(math, ispScaler, Current(), r.value.value.payloadMass)
      ensures r.Ok? && r.value.Some? ==> BestAt(math, ispScaler, Current(), r.value.value.payloadMass, r.value.value.payloadFraction)
      ensures r.Ok? && r.value.None? ==> forall d :: !Designed(math, ispScaler, Current(), d)
    {
      var originalIspScaler := isp.value;
      isp.Set(ispScaler);
      r, log := SearchPayloads(math, isp.value, Current());
      if r.Err? {
        return;
      }
      isp.Set(originalIspScaler);
    }
  }

  /**
   * The Builder constructor: no engine, or more than three, is refused; the builder starts from
   * the engine package's current Isp scaler.
   */
  method NewBuilder(targetDeltaV: real, engines: seq<Thruster>, isp: RocketEngine.IspScaler) returns (r: Result<Builder>)
    ensures r.Ok? <==> 1 <= |engines| <= 3
    ensures |engines| == 0 ==> r == Err(NoEngines)
    ensures |engines| > 3 ==> r == Err(TooManyEngines)
    ensures r.Ok? ==> fresh(r.value) && r.value.Valid() && r.value.engines == engines && r.value.targetDeltaV == targetDeltaV
    ensures r.Ok? ==> r.value.ispScaler == isp.value && r.value.maxPayloadMass == MaxPayloadMass(engines[0].thrust)
    ensures r.Ok? ==> r.value.massIncrements == DEFAULT_MASS_INCREMENTS && r.value.firstStageStackSize == 1
  {
    if |engines| == 0 {
      return Err(NoEngines);
    } else if |engines| > 3 {
      return Err(TooManyEngines);
    }
    var b := new Builder.Init(targetDeltaV, engines, isp.value);
    r := Ok(b);
  }

  /** What a search can run on: one to three engines, a positive increment, no negative mass or thrust. */
  predicate Searchable(cfg: Settings)
  {
    && 1 <= |cfg.engines| <= 3 && cfg.massIncrements > 0.0
    && forall i :: 0 <= i < |cfg.engines| ==> Physical(cfg.engines[i])
  }

  /** Every engine can be stacked on a procedural tank of its propellants. */
  predicate AllStackable(cfg: Settings)
  {
    forall i :: 0 <= i < |cfg.engines| ==> Stackable(cfg.engines[i])
  }

  /** What the search for this many engines prints. */
  ghost predicate Designed(math: MathLib, scaler: real, cfg: Settings, d: Design)
  {
    if |cfg.engines| == 1 then OneStageDesign(math, scaler, cfg, d)
    else if |cfg.engines| == 2 then TwoStageDesign(math, scaler, cfg, d)
    else |cfg.engines| == 3 && ThreeStageDesign(math, scaler, cfg, d)
  }

  /** Every candidate at this payload has at most the fraction best. */
  ghost predicate BestAt(math: MathLib, scaler: real, cfg: Settings, payloadMass: real, best: real)
  {
    forall d :: Designed(math, scaler, cfg, d) && d.payloadMass == payloadMass ==> d.payloadFraction <= best
  }

  /** No candidate has a payload above payloadMass. */
  ghost predicate NoneAbove(math: MathLib, scaler: real, cfg: Settings, payloadMass: real)
  {
    forall d :: Designed(math, scaler, cfg, d) ==> d.payloadMass <= payloadMass
  }

  /** Every candidate carries a payload on the payload sweep and a positive fraction. */
  lemma DesignedScored(math: MathLib, scaler: real, cfg: Settings)
    ensures forall d :: Designed(math, scaler, cfg, d) ==> Scored(math, scaler, cfg, d)
  {
  }

  /** No candidate carries more than the payload ceiling the sweep starts from. */
  lemma PayloadStart(math: MathLib, scaler: real, cfg: Settings)
    requires cfg.massIncrements > 0.0
    ensures NoneAbove(math, scaler, cfg, cfg.maxPayloadMass)
  {
    DesignedScored(math, scaler, cfg);
    forall d | Scored(math, scaler, cfg, d)
      ensures d.payloadMass <= cfg.maxPayloadMass
    {
      SweepFromDown(d.payloadMass, cfg.maxPayloadMass, cfg.massIncrements);
    }
  }

  /**
   * A payload at which nothing is printed, with nothing above it, leaves nothing above the next
   * payload down: every candidate has a positive fraction, so none sits at this payload.
   */
  lemma PayloadNext(math: MathLib, scaler: real, cfg: Settings, payloadMass: real, payloadSteps: nat)
    requires cfg.massIncrements > 0.0 && payloadMass == Sweep(cfg.maxPayloadMass, -cfg.massIncrements, payloadSteps)
    requires NoneAbove(math, scaler, cfg, payloadMass) && BestAt(math, scaler, cfg, payloadMass, 0.0)
    ensures NoneAbove(math, scaler, cfg, payloadMass - cfg.massIncrements)
  {
    SweepNext(cfg.maxPayloadMass, -cfg.massIncrements, payloadSteps);
    DesignedScored(math, scaler, cfg);
    forall d | Scored(math, scaler, cfg, d)
      ensures d.payloadMass > payloadMass - cfg.massIncrements ==> d.payloadMass >= payloadMass
    {
      SweepGapDown(d.payloadMass, cfg.maxPayloadMass, cfg.massIncrements, payloadSteps);
    }
  }

  /** Once the payload sweep is past zero nothing is left: every candidate carries a positive payload. */
  lemma PayloadEnd(math: MathLib, scaler: real, cfg: Settings, payloadMass: real)
    requires NoneAbove(math, scaler, cfg, payloadMass) && payloadMass <= 0.0
    ensures forall d :: !Designed(math, scaler, cfg, d)
  {
    DesignedScored(math, scaler, cfg);
  }

  /**
   * The payload sweep runOneStage, runTwoStage and runThreeStage share: payload masses from the
   * ceiling down while positive, each handed to the tank sweeps for the number of engines; the
   * first payload at which a rocket is printed ends it, with the last one printed.
   */
  method SearchPayloads(math: MathLib, scaler: real, cfg: Settings) returns (r: Result<Option<Design>>, log: seq<Design>)
    requires Searchable(cfg)
    ensures r.Err? ==> !AllStackable(cfg)
    ensures AllStackable(cfg) ==> r.Ok?
    ensures |cfg.engines| == 1 ==> (r.Err? <==> !Stackable(cfg.engines[0]) && cfg.maxPayloadMass > 0.0)
    ensures Reported(r, log)
    ensures forall i :: 0 <= i < |log| ==> Designed(math, scaler, cfg, log[i])
    ensures r.Ok? && r.value.Some? ==> NoneAbove(math, scaler, cfg, r.value.value.payloadMass)
    ensures r.Ok? && r.value.Some? ==> BestAt(math, scaler, cfg, r.value.value.payloadMass, r.value.value.payloadFraction)
    ensures r.Ok? && r.value.None? ==> forall d :: !Designed(math, scaler, cfg, d)
  {
    var inc := cfg.massIncrements;
    var payloadMass := cfg.maxPayloadMass;
    ghost var payloadSteps: nat := 0;
    log := [];
    PayloadStart(math, scaler, cfg);
    while payloadMass > 0.0
      invariant payloadMass == Sweep(cfg.maxPayloadMass, -inc, payloadSteps)
      invariant |cfg.engines| == 1 && payloadMass != cfg.maxPayloadMass ==> Stackable(cfg.engines[0])
      invariant NoneAbove(math, scaler, cfg, payloadMass)
      decreases StepsLeft(0.0 - payloadMass, 0.0, inc)
    {
      var pr := SweepTanks(math, scaler, cfg, payloadMass, payloadSteps);
      if pr.Err? {
        r := Err(pr.failure);
        return;
      }
      if pr.value.best.Some? {
        r, log := Ok(pr.value.best), pr.value.log;
        return;
      }
      PayloadNext(math, scaler, cfg, payloadMass, payloadSteps);
      StepsLeftDecrease(0.0 - payloadMass, 0.0, inc);
      SweepNext(cfg.maxPayloadMass, -inc, payloadSteps);
      payloadMass := payloadMass - inc;
      payloadSteps := payloadSteps + 1;
    }
    PayloadEnd(math, scaler, cfg, payloadMass);
    r := Ok(None);
  }

  /** The tank sweeps at one payload, for the number of engines. */
  method SweepTanks(math: MathLib, scaler: real, cfg: Settings, payloadMass: real, ghost payloadSteps: nat) returns (r: Result<Progress>)
    requires Searchable(cfg)
    requires 0.0 < payloadMass == Sweep(cfg.maxPayloadMass, -cfg.massIncrements, payloadSteps)
    ensures r.Err? ==> !AllStackable(cfg)
    ensures |cfg.engines| == 1 ==> (r.Err? <==> !Stackable(cfg.engines[0]))
    ensures r.Ok? ==> Kept(r.value, payloadMass)
    ensures r.Ok? ==> forall i :: 0 <= i < |r.value.log| ==> Designed(math, scaler, cfg, r.value.log[i])
    ensures r.Ok? ==> BestAt(math, scaler, cfg, payloadMass, r.value.bestFraction)
  {
    if |cfg.engines| == 1 {
      r := SweepOneStage(math, scaler, cfg, payloadMass, payloadSteps);
      if r.Ok? {
        forall i | 0 <= i < |r.value.log|
          ensures Designed(math, scaler, cfg, r.value.log[i])
        {
          AllOneStageAt(math, scaler, cfg, r.value.log, i);
        }
      }
    } else if |cfg.engines| == 2 {
      r := SweepTwoStage(math, scaler, cfg, payloadMass, payloadSteps);
      if r.Ok? {
        forall i | 0 <= i < |r.value.log|
          ensures Designed(math, scaler, cfg, r.value.log[i])
        {
          AllTwoStageAt(math, scaler, cfg, r.value.log, i);
        }
      }
    } else {
      r := SweepThreeStage(math, scaler, cfg, payloadMass, payloadSteps);
      if r.Ok? {
        forall i | 0 <= i < |r.value.log|
          ensures Designed(math, scaler, cfg, r.value.log[i])
        {
          AllThreeStageAt(math, scaler, cfg, r.value.log, i);
        }
      }
    }
  }

  /**
   * runOneStage's tank sweep at one payload: tank masses from one increment up until the stage
   * no longer lifts off at 1.2, printing each rocket that beats the target with a better payload
   * fraction than the best so far.
   */
  method SweepOneStage(math: MathLib, scaler: real, cfg: Settings, payloadMass: real, ghost payloadSteps: nat) returns (r: Result<Progress>)
    requires |cfg.engines| == 1 && cfg.massIncrements > 0.0 && Physical(cfg.engines[0])
    requires 0.0 < payloadMass == Sweep(cfg.maxPayloadMass, -cfg.massIncrements, payloadSteps)
    ensures r.Err? <==> !Stackable(cfg.engines[0])
    ensures r.Ok? ==> Kept(r.value, payloadMass)
    ensures r.Ok? ==> AllOneStage(math, scaler, cfg, r.value.log)
    ensures r.Ok? ==> OneStageBestAt(math, scaler, cfg, payloadMass, r.value.bestFraction)
  {
    var inc := cfg.massIncrements;
    var pr := Progress(None, [], 0.0);
    var tankMass := inc;
    ghost var tankSteps: nat := 0;
    ghost var limit := TankLimit(cfg.engines[0], TARGET_STAGE_1_TWR);
    ghost var stop := SweepEnd(inc, inc, limit);
    OneStageStart(math, scaler, cfg, payloadMass);
    while true
      invariant tankMass == Sweep(inc, inc, tankSteps) && 0.0 < tankMass
      invariant Kept(pr, payloadMass)
      invariant AllOneStage(math, scaler, cfg, pr.log)
      invariant OneStageBefore(math, scaler, cfg, payloadMass, tankMass, pr.bestFraction)
      invariant tankSteps <= stop
      decreases stop - tankSteps
    {
      var step, lifts := TryOneStage(math, scaler, cfg, payloadMass, payloadSteps, tankMass, tankSteps, pr);
      if step.Err? {
        return Err(step.failure);
      }
      pr := step.value;
      if !lifts {
        break;
      }
      SweepBefore(inc, inc, tankSteps, stop, limit);
      SweepNext(inc, inc, tankSteps);
      tankMass := tankMass + inc;
      tankSteps := tankSteps + 1;
    }
    r := Ok(pr);
  }

  /**
   * One tank mass of runOneStage's tank sweep: the stage is built (one that does not lift off at
   * 1.2 ends the sweep), put on a rocket, and printed when it beats the target with a better
   * payload fraction than the best so far.
   */
  method TryOneStage(math: MathLib, scaler: real, cfg: Settings, payloadMass: real, ghost payloadSteps: nat,
                     tankMass: real, ghost tankSteps: nat, pr: Progress)
    returns (r: Result<Progress>, lifts: bool)
    requires |cfg.engines| == 1 && cfg.massIncrements > 0.0 && Physical(cfg.engines[0])
    requires 0.0 < payloadMass == Sweep(cfg.maxPayloadMass, -cfg.massIncrements, payloadSteps)
    requires 0.0 < tankMass == Sweep(cfg.massIncrements, cfg.massIncrements, tankSteps)
    requires Kept(pr, payloadMass)
    requires AllOneStage(math, scaler, cfg, pr.log)
    requires OneStageBefore(math, scaler, cfg, payloadMass, tankMass, pr.bestFraction)
    ensures r.Err? <==> !Stackable(cfg.engines[0])
    ensures r.Ok? ==> r.value == Offer(pr, OneStageAt(math, scaler, cfg, payloadMass, tankMass))
    ensures r.Ok? ==> (lifts <==> CandidateStage(payloadMass, cfg.engines[0], tankMass, cfg.firstStageStackSize).value.minTWR >= TARGET_STAGE_1_TWR)
    ensures r.Ok? ==> Kept(r.value, payloadMass)
    ensures r.Ok? ==> AllOneStage(math, scaler, cfg, r.value.log)
    ensures r.Ok? && lifts ==> tankMass <= TankLimit(cfg.engines[0], TARGET_STAGE_1_TWR)
    ensures r.Ok? && lifts ==> OneStageBefore(math, scaler, cfg, payloadMass, tankMass + cfg.massIncrements, r.value.bestFraction)
    ensures r.Ok? && !lifts ==> OneStageBestAt(math, scaler, cfg, payloadMass, r.value.bestFraction)
  {
    var stage1 := CandidateStage(payloadMass, cfg.engines[0], tankMass, cfg.firstStageStackSize);
    if stage1.Err? {
      return Err(stage1.failure), false;
    }
    if stage1.value.minTWR < TARGET_STAGE_1_TWR {
      OneStageStops(math, scaler, cfg, payloadMass, tankMass, pr.bestFraction);
      return Ok(pr), false;
    }
    OneStageOffered(math, scaler, cfg, payloadMass, tankMass, tankSteps, pr);
    CandidateTankLimit(payloadMass, cfg.engines[0], tankMass, cfg.firstStageStackSize, TARGET_STAGE_1_TWR);
    r, lifts := Ok(pr), true;
    var rocket, deltaV := Launch(math, scaler, tankMass, [stage1.value]);
    assert Reverse([stage1.value]) == [stage1.value];
    if deltaV > cfg.targetDeltaV {
      var fraction := PayloadFraction(payloadMass, rocket);
      if fraction > pr.bestFraction {
        var d := Design(rocket, payloadMass, [tankMass], deltaV, fraction);
        OneStageDesignOf(math, scaler, cfg, payloadMass, payloadSteps, tankMass, tankSteps, stage1.value, rocket, deltaV, fraction);
        RecordKept(pr, d, payloadMass);
        AllOneStageAppend(math, scaler, cfg, pr.log, d);
        r := Ok(Record(pr, d));
      }
    }
  }

  /**
   * runTwoStage's upper tank sweep at one payload: upper tank masses from one increment up until
   * the upper stage no longer lifts off at 2.0, each handed to the first stage's tank sweep.
   */
  method SweepTwoStage(math: MathLib, scaler: real, cfg: Settings, payloadMass: real, ghost payloadSteps: nat) returns (r: Result<Progress>)
    requires |cfg.engines| == 2 && cfg.massIncrements > 0.0 && Physical(cfg.engines[0]) && Physical(cfg.engines[1])
    requires 0.0 < payloadMass == Sweep(cfg.maxPayloadMass, -cfg.massIncrements, payloadSteps)
    ensures r.Err? ==> !Stackable(cfg.engines[0]) || !Stackable(cfg.engines[1])
    ensures r.Ok? ==> Kept(r.value, payloadMass)
    ensures r.Ok? ==> AllTwoStage(math, scaler, cfg, r.value.log)
    ensures r.Ok? ==> TwoStageBestAt(math, scaler, cfg, payloadMass, r.value.bestFraction)
  {
    var inc := cfg.massIncrements;
    var pr := Progress(None, [], 0.0);
    var tank2Mass := inc;
    ghost var tank2Steps: nat := 0;
    ghost var limit := TankLimit(cfg.engines[1], TARGET_STAGE_2_TWR);
    ghost var stop := SweepEnd(inc, inc, limit);
    TwoStageStart(math, scaler, cfg, payloadMass);
    while true
      invariant tank2Mass == Sweep(inc, inc, tank2Steps) && 0.0 < tank2Mass
      invariant Kept(pr, payloadMass)
      invariant AllTwoStage(math, scaler, cfg, pr.log)
      invariant tank2Steps <= stop
      invariant TwoStageBefore(math, scaler, cfg, payloadMass, tank2Mass, pr.bestFraction)
      decreases stop - tank2Steps
    {
      var stage2 := CandidateStage(payloadMass, cfg.engines[1], tank2Mass, 1);
      if stage2.Err? {
        return Err(stage2.failure);
      }
      if stage2.value.minTWR < TARGET_STAGE_2_TWR {
        TwoStageStops(math, scaler, cfg, payloadMass, tank2Mass, pr.bestFraction);
        break;
      }
      CandidateTankLimit(payloadMass, cfg.engines[1], tank2Mass, 1, TARGET_STAGE_2_TWR);
      CandidateHeavier(payloadMass, cfg.engines[1], tank2Mass, 1);
      var step := SweepTwoStageFirst(math, scaler, cfg, payloadMass, payloadSteps, tank2Mass, tank2Steps, stage2.value, pr);
      if step.Err? {
        return Err(step.failure);
      }
      pr := step.value;
      SweepBefore(inc, inc, tank2Steps, stop, limit);
      SweepNext(inc, inc, tank2Steps);
      tank2Mass := tank2Mass + inc;
      tank2Steps := tank2Steps + 1;
    }
    r := Ok(pr);
  }

  /**
   * runTwoStage's first-stage tank sweep under one upper stage: first tank masses from one
   * increment above the upper tank up until the first stage no longer lifts off at 1.2.
   */
  method SweepTwoStageFirst(math: MathLib, scaler: real, cfg: Settings, payloadMass: real, ghost payloadSteps: nat,
                            tank2Mass: real, ghost tank2Steps: nat, stage2: Thruster, pr0: Progress)
    returns (r: Result<Progress>)
    requires |cfg.engines| == 2 && cfg.massIncrements > 0.0 && Physical(cfg.engines[0])
    requires 0.0 < payloadMass == Sweep(cfg.maxPayloadMass, -cfg.massIncrements, payloadSteps)
    requires 0.0 < tank2Mass == Sweep(cfg.massIncrements, cfg.massIncrements, tank2Steps)
    requires CandidateStage(payloadMass, cfg.engines[1], tank2Mass, 1) == Ok(stage2)
    requires stage2.minTWR >= TARGET_STAGE_2_TWR && stage2.mass >= payloadMass
    requires Kept(pr0, payloadMass)
    requires AllTwoStage(math, scaler, cfg, pr0.log)
    requires TwoStageBefore(math, scaler, cfg, payloadMass, tank2Mass, pr0.bestFraction)
    ensures r.Err? <==> !Stackable(cfg.engines[0])
    ensures r.Ok? ==> Kept(r.value, payloadMass)
    ensures r.Ok? ==> AllTwoStage(math, scaler, cfg, r.value.log)
    ensures r.Ok? ==> pr0.log <= r.value.log && pr0.bestFraction <= r.value.bestFraction
    ensures r.Ok? ==> TwoStageBefore(math, scaler, cfg, payloadMass, tank2Mass + cfg.massIncrements, r.value.bestFraction)
  {
    var inc := cfg.massIncrements;
    var pr := pr0;
    var tank1Mass := tank2Mass + inc;
    ghost var tank1Steps: nat := 0;
    ghost var limit := TankLimit(cfg.engines[0], TARGET_STAGE_1_TWR);
    ghost var stop := SweepEnd(tank2Mass + inc, inc, limit);
    TwoStageFirstStart(math, scaler, cfg, payloadMass, tank2Mass, pr0.bestFraction);
    while true
      invariant tank1Mass == Sweep(tank2Mass + inc, inc, tank1Steps)
      invariant Kept(pr, payloadMass)
      invariant AllTwoStage(math, scaler, cfg, pr.log)
      invariant tank1Steps <= stop
      invariant pr0.log <= pr.log && pr0.bestFraction <= pr.bestFraction
      invariant TwoStageFirstBefore(math, scaler, cfg, payloadMass, tank2Mass, tank1Mass, pr.bestFraction)
      decreases stop - tank1Steps
    {
      var step, lifts := TryTwoStage(math, scaler, cfg, payloadMass, payloadSteps, tank2Mass, tank2Steps, stage2,
                                     tank1Mass, tank1Steps, pr);
      if step.Err? {
        return Err(step.failure);
      }
      OfferExtends(pr, TwoStageAt(math, scaler, cfg, payloadMass, tank2Mass, tank1Mass));
      pr := step.value;
      if !lifts {
        break;
      }
      SweepBefore(tank2Mass + inc, inc, tank1Steps, stop, limit);
      SweepNext(tank2Mass + inc, inc, tank1Steps);
      tank1Mass := tank1Mass + inc;
      tank1Steps := tank1Steps + 1;
    }
    TwoStageNext(math, scaler, cfg, payloadMass, tank2Mass, tank2Steps, pr0.bestFraction, pr.bestFraction);
    r := Ok(pr);
  }

  /**
   * One first tank mass of runTwoStage: the first stage is built on the upper one (one that does
   * not lift off at 1.2 ends the sweep); a tank ratio inside the window puts both on a rocket,
   * printed when it beats the target with a better payload fraction than the best so far.
   */
  method TryTwoStage(math: MathLib, scaler: real, cfg: Settings, payloadMass: real, ghost payloadSteps: nat,
                     tank2Mass: real, ghost tank2Steps: nat, stage2: Thruster,
                     tank1Mass: real, ghost tank1Steps: nat, pr: Progress)
    returns (r: Result<Progress>, lifts: bool)
    requires |cfg.engines| == 2 && cfg.massIncrements > 0.0 && Physical(cfg.engines[0])
    requires 0.0 < payloadMass == Sweep(cfg.maxPayloadMass, -cfg.massIncrements, payloadSteps)
    requires tank2Mass == Sweep(cfg.massIncrements, cfg.massIncrements, tank2Steps)
    requires CandidateStage(payloadMass, cfg.engines[1], tank2Mass, 1) == Ok(stage2)
    requires stage2.minTWR >= TARGET_STAGE_2_TWR && stage2.mass >= payloadMass
    requires tank1Mass == Sweep(tank2Mass + cfg.massIncrements, cfg.massIncrements, tank1Steps)
    requires Kept(pr, payloadMass)
    requires AllTwoStage(math, scaler, cfg, pr.log)
    requires TwoStageFirstBefore(math, scaler, cfg, payloadMass, tank2Mass, tank1Mass, pr.bestFraction)
    ensures r.Err? <==> !Stackable(cfg.engines[0])
    ensures r.Ok? ==> r.value == Offer(pr, TwoStageAt(math, scaler, cfg, payloadMass, tank2Mass, tank1Mass))
    ensures r.Ok? ==> (lifts <==> CandidateStage(stage2.mass, cfg.engines[0], tank1Mass, cfg.firstStageStackSize).value.minTWR >= TARGET_STAGE_1_TWR)
    ensures r.Ok? ==> Kept(r.value, payloadMass)
    ensures r.Ok? ==> AllTwoStage(math, scaler, cfg, r.value.log)
    ensures r.Ok? && lifts ==> tank1Mass <= TankLimit(cfg.engines[0], TARGET_STAGE_1_TWR)
    ensures r.Ok? && lifts ==> TwoStageFirstBefore(math, scaler, cfg, payloadMass, tank2Mass, tank1Mass + cfg.massIncrements, r.value.bestFraction)
    ensures r.Ok? && !lifts ==> TwoStageUnder(math, scaler, cfg, payloadMass, tank2Mass, r.value.bestFraction)
  {
    var stage1 := CandidateStage(stage2.mass, cfg.engines[0], tank1Mass, cfg.firstStageStackSize);
    if stage1.Err? {
      return Err(stage1.failure), false;
    }
    if stage1.value.minTWR < TARGET_STAGE_1_TWR {
      TwoStageFirstStops(math, scaler, cfg, payloadMass, tank2Mass, tank2Steps, stage2, tank1Mass, tank1Steps, pr.bestFraction);
      return Ok(pr), false;
    }
    TwoStageFirstOffered(math, scaler, cfg, payloadMass, tank2Mass, tank1Mass, tank1Steps, pr);
    CandidateTankLimit(stage2.mass, cfg.engines[0], tank1Mass, cfg.firstStageStackSize, TARGET_STAGE_1_TWR);
    r, lifts := Ok(pr), true;
    var tankSizeRatio := SizeRatio(tank2Mass, tank1Mass, cfg.firstStageStackSize);
    if 0.3 < tankSizeRatio < 1.0 {
      var rocket, deltaV := Launch(math, scaler, 0.0, [stage2, stage1.value]);
      ReverseTwo(stage2, stage1.value);
      if deltaV > cfg.targetDeltaV {
        var fraction := PayloadFraction(payloadMass, rocket);
        if fraction > pr.bestFraction {
          var d := Design(rocket, payloadMass, [tank1Mass, tank2Mass], deltaV, fraction);
          TwoStageDesignOf(math, scaler, cfg, payloadMass, payloadSteps, tank2Mass, tank2Steps, stage2, tank1Mass, tank1Steps, stage1.value,
                           rocket, deltaV, fraction);
          RecordKept(pr, d, payloadMass);
          AllTwoStageAppend(math, scaler, cfg, pr.log, d);
          r := Ok(Record(pr, d));
        }
      }
    }
  }

  /**
   * runThreeStage's top tank sweep at one payload: top tank masses from one increment up until
   * the top stage no longer lifts off at 1.0, each handed to the middle tank sweep.
   */
  method SweepThreeStage(math: MathLib, scaler: real, cfg: Settings, payloadMass: real, ghost payloadSteps: nat) returns (r: Result<Progress>)
    requires |cfg.engines| == 3 && cfg.massIncrements > 0.0
    requires Physical(cfg.engines[0]) && Physical(cfg.engines[1]) && Physical(cfg.engines[2])
    requires 0.0 < payloadMass == Sweep(cfg.maxPayloadMass, -cfg.massIncrements, payloadSteps)
    ensures r.Err? ==> !Stackable(cfg.engines[0]) || !Stackable(cfg.engines[1]) || !Stackable(cfg.engines[2])
    ensures r.Ok? ==> Kept(r.value, payloadMass)
    ensures r.Ok? ==> AllThreeStage(math, scaler, cfg, r.value.log)
    ensures r.Ok? ==> ThreeStageBestAt(math, scaler, cfg, payloadMass, r.value.bestFraction)
  {
    var inc := cfg.massIncrements;
    var pr := Progress(None, [], 0.0);
    var tank3Mass := inc;
    ghost var tank3Steps: nat := 0;
    ghost var limit := TankLimit(cfg.engines[2], TARGET_STAGE_3_TWR);
    ghost var stop := SweepEnd(inc, inc, limit);
    ThreeStageStart(math, scaler, cfg, payloadMass);
    while true
      invariant tank3Mass == Sweep(inc, inc, tank3Steps) && 0.0 < tank3Mass
      invariant Kept(pr, payloadMass)
      invariant AllThreeStage(math, scaler, cfg, pr.log)
      invariant tank3Steps <= stop
      invariant ThreeStageBefore(math, scaler, cfg, payloadMass, tank3Mass, pr.bestFraction)
      decreases stop - tank3Steps
    {
      var stage3 := CandidateStage(payloadMass, cfg.engines[2], tank3Mass, 1);
      if stage3.Err? {
        return Err(stage3.failure);
      }
      if stage3.value.minTWR < TARGET_STAGE_3_TWR {
        ThreeStageStops(math, scaler, cfg, payloadMass, tank3Mass, pr.bestFraction);
        break;
      }
      CandidateTankLimit(payloadMass, cfg.engines[2], tank3Mass, 1, TARGET_STAGE_3_TWR);
      CandidateHeavier(payloadMass, cfg.engines[2], tank3Mass, 1);
      var step := SweepThreeStageMiddle(math, scaler, cfg, payloadMass, payloadSteps, tank3Mass, tank3Steps, stage3.value, pr);
      if step.Err? {
        return Err(step.failure);
      }
      pr := step.value;
      SweepBefore(inc, inc, tank3Steps, stop, limit);
      SweepNext(inc, inc, tank3Steps);
      tank3Mass := tank3Mass + inc;
      tank3Steps := tank3Steps + 1;
    }
    r := Ok(pr);
  }

  /**
   * runThreeStage's middle tank sweep under one top stage: middle tank masses from one increment
   * above the top tank up until the middle stage no longer lifts off at 2.0 or falls below the
   * top stage's ratio, each handed to the first stage's tank sweep.
   */
  method SweepThreeStageMiddle(math: MathLib, scaler: real, cfg: Settings, payloadMass: real, ghost payloadSteps: nat,
                               tank3Mass: real, ghost tank3Steps: nat, stage3: Thruster, pr0: Progress)
    returns (r: Result<Progress>)
    requires |cfg.engines| == 3 && cfg.massIncrements > 0.0 && Physical(cfg.engines[0]) && Physical(cfg.engines[1])
    requires 0.0 < payloadMass == Sweep(cfg.maxPayloadMass, -cfg.massIncrements, payloadSteps)
    requires 0.0 < tank3Mass == Sweep(cfg.massIncrements, cfg.massIncrements, tank3Steps)
    requires CandidateStage(payloadMass, cfg.engines[2], tank3Mass, 1) == Ok(stage3)
    requires stage3.minTWR >= TARGET_STAGE_3_TWR && stage3.mass >= payloadMass
    requires Kept(pr0, payloadMass)
    requires AllThreeStage(math, scaler, cfg, pr0.log)
    requires ThreeStageBefore(math, scaler, cfg, payloadMass, tank3Mass, pr0.bestFraction)
    ensures r.Err? ==> !Stackable(cfg.engines[0]) || !Stackable(cfg.engines[1])
    ensures r.Ok? ==> Kept(r.value, payloadMass)
    ensures r.Ok? ==> AllThreeStage(math, scaler, cfg, r.value.log)
    ensures r.Ok? ==> pr0.log <= r.value.log && pr0.bestFraction <= r.value.bestFraction
    ensures r.Ok? ==> ThreeStageBefore(math, scaler, cfg, payloadMass, tank3Mass + cfg.massIncrements, r.value.bestFraction)
  {
    var inc := cfg.massIncrements;
    var pr := pr0;
    var tank2Mass := tank3Mass + inc;
    ghost var tank2Steps: nat := 0;
    ghost var limit := TankLimit(cfg.engines[1], TARGET_STAGE_2_TWR);
    ghost var stop := SweepEnd(tank3Mass + inc, inc, limit);
    ThreeStageMiddleStart(math, scaler, cfg, payloadMass, tank3Mass, pr0.bestFraction);
    while true
      invariant tank2Mass == Sweep(tank3Mass + inc, inc, tank2Steps) && 0.0 < tank2Mass
      invariant Kept(pr, payloadMass)
      invariant AllThreeStage(math, scaler, cfg, pr.log)
      invariant tank2Steps <= stop
      invariant pr0.log <= pr.log && pr0.bestFraction <= pr.bestFraction
      invariant ThreeStageMiddleBefore(math, scaler, cfg, payloadMass, tank3Mass, tank2Mass, pr.bestFraction)
      decreases stop - tank2Steps
    {
      var stage2 := CandidateStage(stage3.mass, cfg.engines[1], tank2Mass, 1);
      if stage2.Err? {
        return Err(stage2.failure);
      }
      if stage2.value.minTWR < TARGET_STAGE_2_TWR {
        ThreeStageMiddleStops(math, scaler, cfg, payloadMass, tank3Mass, stage3, tank2Mass, pr.bestFraction);
        break;
      }
      if stage2.value.minTWR < stage3.minTWR {
        ThreeStageMiddleStops(math, scaler, cfg, payloadMass, tank3Mass, stage3, tank2Mass, pr.bestFraction);
        break;
      }
      CandidateTankLimit(stage3.mass, cfg.engines[1], tank2Mass, 1, TARGET_STAGE_2_TWR);
      CandidateHeavier(stage3.mass, cfg.engines[1], tank2Mass, 1);
      var step := SweepThreeStageFirst(math, scaler, cfg, payloadMass, payloadSteps, tank3Mass, tank3Steps, stage3,
                                       tank2Mass, tank2Steps, stage2.value, pr);
      if step.Err? {
        return Err(step.failure);
      }
      pr := step.value;
      SweepBefore(tank3Mass + inc, inc, tank2Steps, stop, limit);
      SweepNext(tank3Mass + inc, inc, tank2Steps);
      tank2Mass := tank2Mass + inc;
      tank2Steps := tank2Steps + 1;
    }
    ThreeStageNext(math, scaler, cfg, payloadMass, tank3Mass, tank3Steps, pr0.bestFraction, pr.bestFraction);
    r := Ok(pr);
  }

  /**
   * runThreeStage's first-stage tank sweep under one middle stage: first tank masses from one
   * increment above the middle tank up until the first stage no longer lifts off at 1.2.
   */
  method SweepThreeStageFirst(math: MathLib, scaler: real, cfg: Settings, payloadMass: real, ghost payloadSteps: nat,
                              tank3Mass: real, ghost tank3Steps: nat, stage3: Thruster,
                              tank2Mass: real, ghost tank2Steps: nat, stage2: Thruster, pr0: Progress)
    returns (r: Result<Progress>)
    requires |cfg.engines| == 3 && cfg.massIncrements > 0.0 && Physical(cfg.engines[0])
    requires 0.0 < payloadMass == Sweep(cfg.maxPayloadMass, -cfg.massIncrements, payloadSteps)
    requires tank3Mass == Sweep(cfg.massIncrements, cfg.massIncrements, tank3Steps)
    requires CandidateStage(payloadMass, cfg.engines[2], tank3Mass, 1) == Ok(stage3)
    requires stage3.minTWR >= TARGET_STAGE_3_TWR
    requires 0.0 < tank2Mass == Sweep(tank3Mass + cfg.massIncrements, cfg.massIncrements, tank2Steps)
    requires CandidateStage(stage3.mass, cfg.engines[1], tank2Mass, 1) == Ok(stage2)
    requires stage2.minTWR >= TARGET_STAGE_2_TWR && stage2.minTWR >= stage3.minTWR && stage2.mass >= 0.0
    requires Kept(pr0, payloadMass)
    requires AllThreeStage(math, scaler, cfg, pr0.log)
    requires ThreeStageMiddleBefore(math, scaler, cfg, payloadMass, tank3Mass, tank2Mass, pr0.bestFraction)
    ensures r.Err? <==> !Stackable(cfg.engines[0])
    ensures r.Ok? ==> Kept(r.value, payloadMass)
    ensures r.Ok? ==> AllThreeStage(math, scaler, cfg, r.value.log)
    ensures r.Ok? ==> pr0.log <= r.value.log && pr0.bestFraction <= r.value.bestFraction
    ensures r.Ok? ==> ThreeStageMiddleBefore(math, scaler, cfg, payloadMass, tank3Mass, tank2Mass + cfg.massIncrements, r.value.bestFraction)
  {
    var inc := cfg.massIncrements;
    var pr := pr0;
    var tank1Mass := tank2Mass + inc;
    ghost var tank1Steps: nat := 0;
    ghost var limit := TankLimit(cfg.engines[0], TARGET_STAGE_1_TWR);
    ghost var stop := SweepEnd(tank2Mass + inc, inc, limit);
    ThreeStageFirstStart(math, scaler, cfg, payloadMass, tank3Mass, tank2Mass, pr0.bestFraction);
    while true
      invariant tank1Mass == Sweep(tank2Mass + inc, inc, tank1Steps)
      invariant Kept(pr, payloadMass)
      invariant AllThreeStage(math, scaler, cfg, pr.log)
      invariant tank1Steps <= stop
      invariant pr0.log <= pr.log && pr0.bestFraction <= pr.bestFraction
      invariant ThreeStageFirstBefore(math, scaler, cfg, payloadMass, tank3Mass, tank2Mass, tank1Mass, pr.bestFraction)
      decreases stop - tank1Steps
    {
      var step, lifts := TryThreeStage(math, scaler, cfg, payloadMass, payloadSteps, tank3Mass, tank3Steps, stage3,
                                       tank2Mass, tank2Steps, stage2, tank1Mass, tank1Steps, pr);
      if step.Err? {
        return Err(step.failure);
      }
      OfferExtends(pr, ThreeStageAt(math, scaler, cfg, payloadMass, tank3Mass, tank2Mass, tank1Mass));
      pr := step.value;
      if !lifts {
        break;
      }
      SweepBefore(tank2Mass + inc, inc, tank1Steps, stop, limit);
      SweepNext(tank2Mass + inc, inc, tank1Steps);
      tank1Mass := tank1Mass + inc;
      tank1Steps := tank1Steps + 1;
    }
    ThreeStageMiddleNext(math, scaler, cfg, payloadMass, tank3Mass, tank2Mass, tank2Steps, pr0.bestFraction, pr.bestFraction);
    r := Ok(pr);
  }

  /**
   * One first tank mass of runThreeStage: the first stage is built on the middle one (one that
   * does not lift off at 1.2 ends the sweep) and the three stages go on a rocket, printed when it
   * beats the target with a better payload fraction than the best so far.
   */
  method TryThreeStage(math: MathLib, scaler: real, cfg: Settings, payloadMass: real, ghost payloadSteps: nat,
                       tank3Mass: real, ghost tank3Steps: nat, stage3: Thruster,
                       tank2Mass: real, ghost tank2Steps: nat, stage2: Thruster,
                       tank1Mass: real, ghost tank1Steps: nat, pr: Progress)
    returns (r: Result<Progress>, lifts: bool)
    requires |cfg.engines| == 3 && cfg.massIncrements > 0.0 && Physical(cfg.engines[0])
    requires 0.0 < payloadMass == Sweep(cfg.maxPayloadMass, -cfg.massIncrements, payloadSteps)
    requires tank3Mass == Sweep(cfg.massIncrements, cfg.massIncrements, tank3Steps)
    requires CandidateStage(payloadMass, cfg.engines[2], tank3Mass, 1) == Ok(stage3)
    requires stage3.minTWR >= TARGET_STAGE_3_TWR
    requires 0.0 < tank2Mass == Sweep(tank3Mass + cfg.massIncrements, cfg.massIncrements, tank2Steps)
    requires CandidateStage(stage3.mass, cfg.engines[1], tank2Mass, 1) == Ok(stage2)
    requires stage2.minTWR >= TARGET_STAGE_2_TWR && stage2.minTWR >= stage3.minTWR && stage2.mass >= 0.0
    requires tank1Mass == Sweep(tank2Mass + cfg.massIncrements, cfg.massIncrements, tank1Steps)
    requires Kept(pr, payloadMass)
    requires AllThreeStage(math, scaler, cfg, pr.log)
    requires ThreeStageFirstBefore(math, scaler, cfg, payloadMass, tank3Mass, tank2Mass, tank1Mass, pr.bestFraction)
    ensures r.Err? <==> !Stackable(cfg.engines[0])
    ensures r.Ok? ==> r.value == Offer(pr, ThreeStageAt(math, scaler, cfg, payloadMass, tank3Mass, tank2Mass, tank1Mass))
    ensures r.Ok? ==> (lifts <==> CandidateStage(stage2.mass, cfg.engines[0], tank1Mass, cfg.firstStageStackSize).value.minTWR >= TARGET_STAGE_1_TWR)
    ensures r.Ok? ==> Kept(r.value, payloadMass)
    ensures r.Ok? ==> AllThreeStage(math, scaler, cfg, r.value.log)
    ensures r.Ok? && lifts ==> tank1Mass <= TankLimit(cfg.engines[0], TARGET_STAGE_1_TWR)
    ensures r.Ok? && lifts ==>
      ThreeStageFirstBefore(math, scaler, cfg, payloadMass, tank3Mass, tank2Mass, tank1Mass + cfg.massIncrements, r.value.bestFraction)
    ensures r.Ok? && !lifts ==> ThreeStageUnderMiddle(math, scaler, cfg, payloadMass, tank3Mass, tank2Mass, r.value.bestFraction)
  {
    var stage1 := CandidateStage(stage2.mass, cfg.engines[0], tank1Mass, cfg.firstStageStackSize);
    if stage1.Err? {
      return Err(stage1.failure), false;
    }
    ThreeStageAtStages(math, scaler, cfg, payloadMass, tank3Mass, stage3, tank2Mass, stage2, tank1Mass);
    if stage1.value.minTWR < TARGET_STAGE_1_TWR {
      ThreeStageFirstStops(math, scaler, cfg, payloadMass, tank3Mass, stage3, tank2Mass, stage2, tank1Mass, tank1Steps, pr.bestFraction);
      return Ok(pr), false;
    }
    ThreeStageFirstOffered(math, scaler, cfg, payloadMass, tank3Mass, tank2Mass, tank1Mass, tank1Steps, pr);
    CandidateTankLimit(stage2.mass, cfg.engines[0], tank1Mass, cfg.firstStageStackSize, TARGET_STAGE_1_TWR);
    r, lifts := Ok(pr), true;
    var rocket, deltaV := Launch(math, scaler, 0.0, [stage3, stage2, stage1.value]);
    ReverseThree(stage3, stage2, stage1.value);
    if deltaV > cfg.targetDeltaV {
      var fraction := PayloadFraction(payloadMass, rocket);
      if fraction > pr.bestFraction {
        var d := Design(rocket, payloadMass, [tank1Mass, tank2Mass, tank3Mass], deltaV, fraction);
        ThreeStageDesignOf(math, scaler, cfg, payloadMass, payloadSteps, tank3Mass, tank3Steps, stage3, tank2Mass, tank2Steps, stage2,
                         tank1Mass, tank1Steps, stage1.value, rocket, deltaV, fraction);
        RecordKept(pr, d, payloadMass);
        AllThreeStageAppend(math, scaler, cfg, pr.log, d);
        r := Ok(Record(pr, d));
      }
    }
  }

  /**
   * A Rocket.Builder on the given payload, the built stages added in order, then built, and the
   * rocket's total delta-V: the rocket fires the stage added last first.
   */
  method Launch(math: MathLib, scaler: real, payloadMass: real, added: seq<Thruster>) returns (rocket: Rocket, deltaV: real)
    requires |added| >= 1
    ensures rocket == Rocket(Reverse(added))
    ensures deltaV == SumDeltaV(math, rocket.stages, scaler)
  {
    var rocketBuilder := new RocketVehicle.Builder(payloadMass);
    var i := 0;
    while i < |added|
      invariant 0 <= i <= |added| && rocketBuilder.stages == added[..i]
    {
      rocketBuilder.AddBuiltStage(added[i]);
      assert added[..i + 1] == added[..i] + [added[i]];
      i := i + 1;
    }
    assert added[..i] == added;
    var built := rocketBuilder.Build();
    rocket := built.value;
    deltaV := TotalDeltaV(math, rocket, scaler);
  }

  /** The search's memory at one payload: the best candidate so far, the printed candidates and the best fraction. */
  datatype Progress = Progress(best: Option<Design>, log: seq<Design>, bestFraction: real)

  /** The progress as the candidates printed at this payload determine it. */
  predicate Kept(pr: Progress, payloadMass: real)
  {
    && Best(pr.best, pr.log, pr.bestFraction) && Improving(pr.log) && 0.0 <= pr.bestFraction
    && (forall i :: 0 <= i < |pr.log| ==> pr.log[i].payloadMass == payloadMass)
  }

  /** Printing a candidate: it becomes the best so far. */
  function Record(pr: Progress, d: Design): Progress
  {
    Progress(Some(d), pr.log + [d], d.payloadFraction)
  }

  /** Printing a better candidate at the same payload keeps the progress as its log determines it. */
  lemma RecordKept(pr: Progress, d: Design, payloadMass: real)
    requires Kept(pr, payloadMass) && d.payloadMass == payloadMass && d.payloadFraction > pr.bestFraction
    ensures Kept(Record(pr, d), payloadMass)
    ensures forall i :: 0 <= i < |pr.log| ==> Record(pr, d).log[i] == pr.log[i]
    ensures Record(pr, d).log[|pr.log|] == d
  {
    var log := pr.log + [d];
    assert forall i :: 0 <= i < |pr.log| ==> log[i] == pr.log[i];
  }

  /** Offering a candidate at one tank mass: it is printed and kept when it beats the best fraction so far. */
  function Offer(pr: Progress, c: Option<Design>): Progress
  {
    if c.Some? && c.value.payloadFraction > pr.bestFraction then Record(pr, c.value) else pr
  }

  /** Offering keeps what was printed before and never lowers the best fraction. */
  lemma OfferExtends(pr: Progress, c: Option<Design>)
    ensures pr.log <= Offer(pr, c).log && pr.bestFraction <= Offer(pr, c).bestFraction
  {
    if c.Some? && c.value.payloadFraction > pr.bestFraction {
      assert (pr.log + [c.value])[..|pr.log|] == pr.log;
    }
  }

  /** A sweep with a positive step never visits a value below its start. */
  lemma SweepFrom(x: real, start: real, step: real)
    requires step > 0.0 && OnSweep(x, start, step)
    ensures start <= x
  {
    var j: nat :| Sweep(start, step, j) == x;
    assert (j as real) * step >= 0.0;
  }

  /** A sweep from a positive start by a positive step stays positive. */
  lemma SweepPositive(start: real, step: real, k: nat)
    requires 0.0 < start && 0.0 < step
    ensures 0.0 < Sweep(start, step, k)
  {
    assert (k as real) * step >= 0.0;
  }

  /** A sweep with a positive step visits nothing strictly between two of its neighbouring values. */
  lemma SweepGap(x: real, start: real, step: real, k: nat)
    requires step > 0.0 && OnSweep(x, start, step)
    ensures x < Sweep(start, step, k + 1) ==> x <= Sweep(start, step, k)
  {
    var j: nat :| Sweep(start, step, j) == x;
    if j <= k {
      SweepMonotone(start, step, j, k);
    } else {
      SweepMonotone(start, step, k + 1, j);
    }
  }

  /** A sweep with a positive step only grows. */
  lemma SweepMonotone(start: real, step: real, i: nat, j: nat)
    requires step > 0.0 && i <= j
    ensures Sweep(start, step, i) <= Sweep(start, step, j)
  {
    var d := (j - i) as real;
    assert (j as real) == (i as real) + d;
    assert d * step >= 0.0;
  }

  /** A sweep downwards by a positive step never visits a value above its start. */
  lemma SweepFromDown(x: real, start: real, step: real)
    requires step > 0.0 && OnSweep(x, start, -step)
    ensures x <= start
  {
    var j: nat :| Sweep(start, -step, j) == x;
    assert (j as real) * step >= 0.0;
  }

  /** A sweep downwards by a positive step visits nothing strictly between two of its neighbouring values. */
  lemma SweepGapDown(x: real, start: real, step: real, k: nat)
    requires step > 0.0 && OnSweep(x, start, -step)
    ensures x > Sweep(start, -step, k + 1) ==> x >= Sweep(start, -step, k)
  {
    var j: nat :| Sweep(start, -step, j) == x;
    if j <= k {
      SweepMonotone(-start, step, j, k);
    } else {
      SweepMonotone(-start, step, k + 1, j);
    }
  }

  /** A stage of k stacks over a tank: the payload plus k stacks' mass, k engines' thrust, and their ratio. */
  predicate StacksShape(s: Thruster, payloadMass: real, engineMass: real, thrust: real, tankMass: real, k: real)
  {
    && s.mass == payloadMass + Times(tankMass + engineMass, k) && s.thrust == Times(thrust, k)
    && s.minTWR == CalculateTWR(s.mass, s.thrust)
  }

  /** A candidate stage has the shape of its stacks. */
  lemma CandidateShape(payloadMass: real, engine: Thruster, tankMass: real, n: nat)
    requires Stackable(engine)
    ensures StacksShape(CandidateStage(payloadMass, engine, tankMass, n).value, payloadMass, engine.mass, engine.thrust, tankMass, n as real)
  {
  }

  /** A stage of n stacks over a heavier tank has no higher ratio: more mass at the same thrust. */
  lemma StacksTWRAntitone(s: Thruster, s': Thruster, payloadMass: real, engineMass: real, thrust: real,
                          tankMass: real, tankMass': real, k: real)
    requires 0.0 <= payloadMass && 0.0 <= engineMass && 0.0 <= thrust && 0.0 < tankMass <= tankMass' && 0.0 <= k
    requires StacksShape(s, payloadMass, engineMass, thrust, tankMass, k) && StacksShape(s', payloadMass, engineMass, thrust, tankMass', k)
    ensures s'.minTWR <= s.minTWR
  {
    if k == 0.0 {
      assert Times(thrust, k) == 0.0;
    } else {
      ProductSign(k, tankMass + engineMass);
      assert s'.mass - s.mass == (tankMass' - tankMass) * k;
      TimesSign(tankMass' - tankMass, k);
      TimesSign(thrust, k);
      CalculateTWRAntitone(s.mass, s'.mass, s.thrust);
    }
  }

  /**
   * A heavier tank never raises a candidate stage's ratio.  So once a tank sweep falls below its
   * floor, every larger tank of that sweep does too.
   */
  lemma CandidateAntitone(payloadMass: real, engine: Thruster, tankMass: real, tankMass': real, n: nat)
    requires Stackable(engine) && Physical(engine) && 0.0 <= payloadMass && 0.0 < tankMass
    ensures tankMass <= tankMass' ==>
      CandidateStage(payloadMass, engine, tankMass', n).value.minTWR <= CandidateStage(payloadMass, engine, tankMass, n).value.minTWR
  {
    if tankMass <= tankMass' {
      CandidateShape(payloadMass, engine, tankMass, n);
      CandidateShape(payloadMass, engine, tankMass', n);
      StacksTWRAntitone(CandidateStage(payloadMass, engine, tankMass, n).value, CandidateStage(payloadMass, engine, tankMass', n).value,
                        payloadMass, engine.mass, engine.thrust, tankMass, tankMass', n as real);
    }
  }

  /** The candidate a search builds from the rocket of its stages, when the rocket's delta-V beats the target. */
  function DesignAt(math: MathLib, scaler: real, cfg: Settings, payloadMass: real, tankMasses: seq<real>, rocket: Rocket): Option<Design>
    requires |rocket.stages| >= 1
  {
    var deltaV := SumDeltaV(math, rocket.stages, scaler);
    if deltaV > cfg.targetDeltaV then Some(Design(rocket, payloadMass, tankMasses, deltaV, PayloadFraction(payloadMass, rocket)))
    else None
  }

  /** A scored design is the candidate built from its own rocket and tanks. */
  lemma ScoredDesignAt(math: MathLib, scaler: real, cfg: Settings, d: Design)
    requires Scored(math, scaler, cfg, d)
    ensures DesignAt(math, scaler, cfg, d.payloadMass, d.tankMasses, d.rocket) == Some(d)
  {
  }

  /** The candidate the one-stage search builds at one payload and tank mass, when it lifts off and beats the target. */
  function OneStageAt(math: MathLib, scaler: real, cfg: Settings, payloadMass: real, tankMass: real): Option<Design>
    requires |cfg.engines| >= 1
  {
    var s1 := CandidateStage(payloadMass, cfg.engines[0], tankMass, cfg.firstStageStackSize);
    if s1.Err? || s1.value.minTWR < TARGET_STAGE_1_TWR then None
    else DesignAt(math, scaler, cfg, payloadMass, [tankMass], Rocket([s1.value]))
  }

  /** A one-stage candidate is the one built at its payload and tank mass. */
  lemma OneStageDesignIsAt(math: MathLib, scaler: real, cfg: Settings, d: Design)
    requires |cfg.engines| >= 1 && OneStageDesign(math, scaler, cfg, d)
    ensures OneStageAt(math, scaler, cfg, d.payloadMass, d.tankMasses[0]) == Some(d)
  {
    assert d.tankMasses == [d.tankMasses[0]];
  }

  /** Every one-stage candidate at this payload with a tank below tankMass has at most the fraction best. */
  ghost predicate OneStageBefore(math: MathLib, scaler: real, cfg: Settings, payloadMass: real, tankMass: real, best: real)
    requires |cfg.engines| >= 1
  {
    forall d :: OneStageDesign(math, scaler, cfg, d) && d.payloadMass == payloadMass && d.tankMasses[0] < tankMass ==>
      d.payloadFraction <= best
  }

  /** Every one-stage candidate at this payload has at most the fraction best. */
  ghost predicate OneStageBestAt(math: MathLib, scaler: real, cfg: Settings, payloadMass: real, best: real)
    requires |cfg.engines| >= 1
  {
    forall d :: OneStageDesign(math, scaler, cfg, d) && d.payloadMass == payloadMass ==> d.payloadFraction <= best
  }

  /** No one-stage candidate has a tank below the first one swept. */
  lemma OneStageStart(math: MathLib, scaler: real, cfg: Settings, payloadMass: real)
    requires |cfg.engines| >= 1 && cfg.massIncrements > 0.0
    ensures OneStageBefore(math, scaler, cfg, payloadMass, cfg.massIncrements, 0.0)
  {
    forall d | OneStageDesign(math, scaler, cfg, d) && d.payloadMass == payloadMass
      ensures cfg.massIncrements <= d.tankMasses[0]
    {
      SweepFrom(d.tankMasses[0], cfg.massIncrements, cfg.massIncrements);
    }
  }

  /** Offering the candidate at one tank mass covers every candidate up to the next tank mass. */
  lemma OneStageOffered(math: MathLib, scaler: real, cfg: Settings, payloadMass: real, tankMass: real, tankSteps: nat, pr: Progress)
    requires |cfg.engines| >= 1 && cfg.massIncrements > 0.0
    requires tankMass == Sweep(cfg.massIncrements, cfg.massIncrements, tankSteps)
    requires OneStageBefore(math, scaler, cfg, payloadMass, tankMass, pr.bestFraction)
    ensures OneStageBefore(math, scaler, cfg, payloadMass, tankMass + cfg.massIncrements,
                           Offer(pr, OneStageAt(math, scaler, cfg, payloadMass, tankMass)).bestFraction)
  {
    var inc := cfg.massIncrements;
    OfferExtends(pr, OneStageAt(math, scaler, cfg, payloadMass, tankMass));
    SweepNext(inc, inc, tankSteps);
    forall d | OneStageDesign(math, scaler, cfg, d) && d.payloadMass == payloadMass && d.tankMasses[0] < tankMass + inc
      ensures d.payloadFraction <= Offer(pr, OneStageAt(math, scaler, cfg, payloadMass, tankMass)).bestFraction
    {
      SweepGap(d.tankMasses[0], inc, inc, tankSteps);
      if d.tankMasses[0] == tankMass {
        OneStageDesignIsAt(math, scaler, cfg, d);
      }
    }
  }

  /** A tank at which the stage falls below 1.2 ends the sweep without losing a candidate. */
  lemma OneStageStops(math: MathLib, scaler: real, cfg: Settings, payloadMass: real, tankMass: real, best: real)
    requires |cfg.engines| >= 1 && Physical(cfg.engines[0]) && 0.0 < payloadMass && 0.0 < tankMass
    requires CandidateStage(payloadMass, cfg.engines[0], tankMass, cfg.firstStageStackSize).Ok?
    requires CandidateStage(payloadMass, cfg.engines[0], tankMass, cfg.firstStageStackSize).value.minTWR < TARGET_STAGE_1_TWR
    requires OneStageBefore(math, scaler, cfg, payloadMass, tankMass, best)
    ensures OneStageBestAt(math, scaler, cfg, payloadMass, best)
  {
    forall d | OneStageDesign(math, scaler, cfg, d) && d.payloadMass == payloadMass
      ensures d.tankMasses[0] < tankMass
    {
      CandidateAntitone(payloadMass, cfg.engines[0], tankMass, d.tankMasses[0], cfg.firstStageStackSize);
    }
  }
  /** The candidate the two-stage search builds at one payload and pair of tank masses, when every check passes. */
  function TwoStageAt(math: MathLib, scaler: real, cfg: Settings, payloadMass: real, tank2Mass: real, tank1Mass: real): Option<Design>
    requires |cfg.engines| >= 2
  {
    var s2 := CandidateStage(payloadMass, cfg.engines[1], tank2Mass, 1);
    if s2.Err? || s2.value.minTWR < TARGET_STAGE_2_TWR then None
    else
      var s1 := CandidateStage(s2.value.mass, cfg.engines[0], tank1Mass, cfg.firstStageStackSize);
      if s1.Err? || s1.value.minTWR < TARGET_STAGE_1_TWR then None
      else if !(0.3 < SizeRatio(tank2Mass, tank1Mass, cfg.firstStageStackSize) < 1.0) then None
      else DesignAt(math, scaler, cfg, payloadMass, [tank1Mass, tank2Mass], Rocket([s1.value, s2.value]))
  }

  /** A two-stage candidate is the one built at its payload and tank masses. */
  lemma TwoStageDesignIsAt(math: MathLib, scaler: real, cfg: Settings, d: Design)
    requires |cfg.engines| >= 2 && TwoStageDesign(math, scaler, cfg, d)
    ensures TwoStageAt(math, scaler, cfg, d.payloadMass, d.tankMasses[1], d.tankMasses[0]) == Some(d)
  {
    assert d.tankMasses == [d.tankMasses[0], d.tankMasses[1]];
  }

  /** Every two-stage candidate at this payload with an upper tank below tank2Mass has at most the fraction best. */
  ghost predicate TwoStageBefore(math: MathLib, scaler: real, cfg: Settings, payloadMass: real, tank2Mass: real, best: real)
    requires |cfg.engines| >= 2
  {
    forall d :: TwoStageDesign(math, scaler, cfg, d) && d.payloadMass == payloadMass && d.tankMasses[1] < tank2Mass ==>
      d.payloadFraction <= best
  }

  /** Every two-stage candidate at this payload on this upper tank has at most the fraction best. */
  ghost predicate TwoStageUnder(math: MathLib, scaler: real, cfg: Settings, payloadMass: real, tank2Mass: real, best: real)
    requires |cfg.engines| >= 2
  {
    forall d :: TwoStageDesign(math, scaler, cfg, d) && d.payloadMass == payloadMass && d.tankMasses[1] == tank2Mass ==>
      d.payloadFraction <= best
  }

  /** Every two-stage candidate at this payload on this upper tank with a first tank below tank1Mass has at most the fraction best. */
  ghost predicate TwoStageFirstBefore(math: MathLib, scaler: real, cfg: Settings, payloadMass: real, tank2Mass: real, tank1Mass: real, best: real)
    requires |cfg.engines| >= 2
  {
    forall d :: TwoStageDesign(math, scaler, cfg, d) && d.payloadMass == payloadMass && d.tankMasses[1] == tank2Mass && d.tankMasses[0] < tank1Mass ==>
      d.payloadFraction <= best
  }

  /** Every two-stage candidate at this payload has at most the fraction best. */
  ghost predicate TwoStageBestAt(math: MathLib, scaler: real, cfg: Settings, payloadMass: real, best: real)
    requires |cfg.engines| >= 2
  {
    forall d :: TwoStageDesign(math, scaler, cfg, d) && d.payloadMass == payloadMass ==> d.payloadFraction <= best
  }

  /** No two-stage candidate has an upper tank below the first one swept. */
  lemma TwoStageStart(math: MathLib, scaler: real, cfg: Settings, payloadMass: real)
    requires |cfg.engines| >= 2 && cfg.massIncrements > 0.0
    ensures TwoStageBefore(math, scaler, cfg, payloadMass, cfg.massIncrements, 0.0)
  {
    forall d | TwoStageDesign(math, scaler, cfg, d) && d.payloadMass == payloadMass
      ensures cfg.massIncrements <= d.tankMasses[1]
    {
      SweepFrom(d.tankMasses[1], cfg.massIncrements, cfg.massIncrements);
    }
  }

  /** No two-stage candidate has a first tank below the first one swept over its upper tank. */
  lemma TwoStageFirstStart(math: MathLib, scaler: real, cfg: Settings, payloadMass: real, tank2Mass: real, best: real)
    requires |cfg.engines| >= 2 && cfg.massIncrements > 0.0
    ensures TwoStageFirstBefore(math, scaler, cfg, payloadMass, tank2Mass, tank2Mass + cfg.massIncrements, best)
  {
    forall d | TwoStageDesign(math, scaler, cfg, d) && d.payloadMass == payloadMass && d.tankMasses[1] == tank2Mass
      ensures tank2Mass + cfg.massIncrements <= d.tankMasses[0]
    {
      TwoStageTanksAbove(cfg, d.tankMasses);
    }
  }

  /** The first tank of a two-stage candidate lies on its sweep: nothing between two neighbouring tank masses. */
  lemma TwoStageFirstGap(cfg: Settings, tankMasses: seq<real>, k: nat)
    requires cfg.massIncrements > 0.0 && TwoStageTanks(cfg, tankMasses)
    ensures tankMasses[0] < Sweep(tankMasses[1] + cfg.massIncrements, cfg.massIncrements, k + 1) ==>
      tankMasses[0] <= Sweep(tankMasses[1] + cfg.massIncrements, cfg.massIncrements, k)
  {
    SweepGap(tankMasses[0], tankMasses[1] + cfg.massIncrements, cfg.massIncrements, k);
  }

  /** The first tank of a two-stage candidate is at least one increment above its upper tank. */
  lemma TwoStageTanksAbove(cfg: Settings, tankMasses: seq<real>)
    requires cfg.massIncrements > 0.0 && TwoStageTanks(cfg, tankMasses)
    ensures tankMasses[1] + cfg.massIncrements <= tankMasses[0]
  {
    SweepFrom(tankMasses[0], tankMasses[1] + cfg.massIncrements, cfg.massIncrements);
  }

  /** Offering the candidate at one first tank mass covers every candidate on this upper tank up to the next first tank mass. */
  lemma TwoStageFirstOffered(math: MathLib, scaler: real, cfg: Settings, payloadMass: real, tank2Mass: real,
                             tank1Mass: real, tank1Steps: nat, pr: Progress)
    requires |cfg.engines| >= 2 && cfg.massIncrements > 0.0
    requires tank1Mass == Sweep(tank2Mass + cfg.massIncrements, cfg.massIncrements, tank1Steps)
    requires TwoStageFirstBefore(math, scaler, cfg, payloadMass, tank2Mass, tank1Mass, pr.bestFraction)
    ensures TwoStageFirstBefore(math, scaler, cfg, payloadMass, tank2Mass, tank1Mass + cfg.massIncrements,
                                Offer(pr, TwoStageAt(math, scaler, cfg, payloadMass, tank2Mass, tank1Mass)).bestFraction)
  {
    var inc := cfg.massIncrements;
    OfferExtends(pr, TwoStageAt(math, scaler, cfg, payloadMass, tank2Mass, tank1Mass));
    SweepNext(tank2Mass + inc, inc, tank1Steps);
    forall d | TwoStageDesign(math, scaler, cfg, d) && d.payloadMass == payloadMass && d.tankMasses[1] == tank2Mass
               && d.tankMasses[0] < tank1Mass + inc
      ensures d.payloadFraction <= Offer(pr, TwoStageAt(math, scaler, cfg, payloadMass, tank2Mass, tank1Mass)).bestFraction
    {
      TwoStageFirstGap(cfg, d.tankMasses, tank1Steps);
      if d.tankMasses[0] == tank1Mass {
        TwoStageDesignIsAt(math, scaler, cfg, d);
      }
    }
  }

  /** A first tank at which the first stage falls below 1.2 ends that sweep without losing a candidate on this upper tank. */
  lemma TwoStageFirstStops(math: MathLib, scaler: real, cfg: Settings, payloadMass: real, tank2Mass: real, tank2Steps: nat,
                           stage2: Thruster, tank1Mass: real, tank1Steps: nat, best: real)
    requires |cfg.engines| >= 2 && cfg.massIncrements > 0.0 && Physical(cfg.engines[0])
    requires tank2Mass == Sweep(cfg.massIncrements, cfg.massIncrements, tank2Steps)
    requires CandidateStage(payloadMass, cfg.engines[1], tank2Mass, 1) == Ok(stage2) && 0.0 <= stage2.mass
    requires tank1Mass == Sweep(tank2Mass + cfg.massIncrements, cfg.massIncrements, tank1Steps)
    requires CandidateStage(stage2.mass, cfg.engines[0], tank1Mass, cfg.firstStageStackSize).Ok?
    requires CandidateStage(stage2.mass, cfg.engines[0], tank1Mass, cfg.firstStageStackSize).value.minTWR < TARGET_STAGE_1_TWR
    requires TwoStageFirstBefore(math, scaler, cfg, payloadMass, tank2Mass, tank1Mass, best)
    ensures TwoStageUnder(math, scaler, cfg, payloadMass, tank2Mass, best)
  {
    SweepPositive(cfg.massIncrements, cfg.massIncrements, tank2Steps);
    SweepPositive(tank2Mass + cfg.massIncrements, cfg.massIncrements, tank1Steps);
    forall d | TwoStageDesign(math, scaler, cfg, d) && d.payloadMass == payloadMass && d.tankMasses[1] == tank2Mass
      ensures d.tankMasses[0] < tank1Mass
    {
      CandidateAntitone(stage2.mass, cfg.engines[0], tank1Mass, d.tankMasses[0], cfg.firstStageStackSize);
    }
  }

  /** Covering every candidate on one upper tank moves the bound on the upper tank sweep one increment on. */
  lemma TwoStageNext(math: MathLib, scaler: real, cfg: Settings, payloadMass: real, tank2Mass: real, tank2Steps: nat,
                     best0: real, best: real)
    requires |cfg.engines| >= 2 && cfg.massIncrements > 0.0
    requires tank2Mass == Sweep(cfg.massIncrements, cfg.massIncrements, tank2Steps)
    requires TwoStageBefore(math, scaler, cfg, payloadMass, tank2Mass, best0) && best0 <= best
    requires TwoStageUnder(math, scaler, cfg, payloadMass, tank2Mass, best)
    ensures TwoStageBefore(math, scaler, cfg, payloadMass, tank2Mass + cfg.massIncrements, best)
  {
    var inc := cfg.massIncrements;
    SweepNext(inc, inc, tank2Steps);
    forall d | TwoStageDesign(math, scaler, cfg, d) && d.payloadMass == payloadMass && d.tankMasses[1] < tank2Mass + inc
      ensures d.tankMasses[1] <= tank2Mass
    {
      SweepGap(d.tankMasses[1], inc, inc, tank2Steps);
    }
  }

  /** An upper tank at which the upper stage falls below 2.0 ends the sweep without losing a candidate. */
  lemma TwoStageStops(math: MathLib, scaler: real, cfg: Settings, payloadMass: real, tank2Mass: real, best: real)
    requires |cfg.engines| >= 2 && Physical(cfg.engines[1]) && 0.0 < payloadMass && 0.0 < tank2Mass
    requires CandidateStage(payloadMass, cfg.engines[1], tank2Mass, 1).Ok?
    requires CandidateStage(payloadMass, cfg.engines[1], tank2Mass, 1).value.minTWR < TARGET_STAGE_2_TWR
    requires TwoStageBefore(math, scaler, cfg, payloadMass, tank2Mass, best)
    ensures TwoStageBestAt(math, scaler, cfg, payloadMass, best)
  {
    forall d | TwoStageDesign(math, scaler, cfg, d) && d.payloadMass == payloadMass
      ensures d.tankMasses[1] < tank2Mass
    {
      CandidateAntitone(payloadMass, cfg.engines[1], tank2Mass, d.tankMasses[1], 1);
    }
  }
  /** The candidate the three-stage search builds at one payload and triple of tank masses, when every check passes. */
  function ThreeStageAt(math: MathLib, scaler: real, cfg: Settings, payloadMass: real, tank3Mass: real, tank2Mass: real, tank1Mass: real): Option<Design>
    requires |cfg.engines| >= 3
  {
    var rocket := ThreeStageBuilt(cfg, payloadMass, tank3Mass, tank2Mass, tank1Mass);
    if rocket.None? then None
    else DesignAt(math, scaler, cfg, payloadMass, [tank1Mass, tank2Mass, tank3Mass], rocket.value)
  }

  /** With the upper two stages built and passing, the candidate at a first tank mass is decided by the first stage alone. */
  lemma ThreeStageAtStages(math: MathLib, scaler: real, cfg: Settings, payloadMass: real, tank3Mass: real, stage3: Thruster,
                           tank2Mass: real, stage2: Thruster, tank1Mass: real)
    requires |cfg.engines| >= 3
    requires CandidateStage(payloadMass, cfg.engines[2], tank3Mass, 1) == Ok(stage3) && stage3.minTWR >= TARGET_STAGE_3_TWR
    requires CandidateStage(stage3.mass, cfg.engines[1], tank2Mass, 1) == Ok(stage2)
    requires stage2.minTWR >= TARGET_STAGE_2_TWR && stage2.minTWR >= stage3.minTWR
    requires CandidateStage(stage2.mass, cfg.engines[0], tank1Mass, cfg.firstStageStackSize).Ok?
    ensures var stage1 := CandidateStage(stage2.mass, cfg.engines[0], tank1Mass, cfg.firstStageStackSize).value;
      && (stage1.minTWR < TARGET_STAGE_1_TWR ==> ThreeStageAt(math, scaler, cfg, payloadMass, tank3Mass, tank2Mass, tank1Mass) == None)
      && (stage1.minTWR >= TARGET_STAGE_1_TWR ==>
            ThreeStageAt(math, scaler, cfg, payloadMass, tank3Mass, tank2Mass, tank1Mass)
              == DesignAt(math, scaler, cfg, payloadMass, [tank1Mass, tank2Mass, tank3Mass], Rocket([stage1, stage2, stage3])))
  {
  }

  /** A three-stage candidate is the one built at its payload and tank masses. */
  lemma ThreeStageDesignIsAt(math: MathLib, scaler: real, cfg: Settings, d: Design)
    requires |cfg.engines| >= 3 && ThreeStageDesign(math, scaler, cfg, d)
    ensures ThreeStageAt(math, scaler, cfg, d.payloadMass, d.tankMasses[2], d.tankMasses[1], d.tankMasses[0]) == Some(d)
  {
    var t := d.tankMasses;
    assert ThreeStageBuilt(cfg, d.payloadMass, t[2], t[1], t[0]) == Some(d.rocket);
    ScoredDesignAt(math, scaler, cfg, d);
    assert t == [t[0], t[1], t[2]];
  }

  /** Each tank of a three-stage candidate is at least one increment above the one above it. */
  lemma ThreeStageTanksAbove(cfg: Settings, tankMasses: seq<real>)
    requires cfg.massIncrements > 0.0 && ThreeStageTanks(cfg, tankMasses)
    ensures cfg.massIncrements <= tankMasses[2]
    ensures tankMasses[2] + cfg.massIncrements <= tankMasses[1]
    ensures tankMasses[1] + cfg.massIncrements <= tankMasses[0]
  {
    SweepFrom(tankMasses[2], cfg.massIncrements, cfg.massIncrements);
    SweepFrom(tankMasses[1], tankMasses[2] + cfg.massIncrements, cfg.massIncrements);
    SweepFrom(tankMasses[0], tankMasses[1] + cfg.massIncrements, cfg.massIncrements);
  }

  /** Each tank of a three-stage candidate lies on its sweep: nothing between two neighbouring tank masses. */
  lemma ThreeStageTanksGap(cfg: Settings, tankMasses: seq<real>, k3: nat, k2: nat, k1: nat)
    requires cfg.massIncrements > 0.0 && ThreeStageTanks(cfg, tankMasses)
    ensures tankMasses[2] < Sweep(cfg.massIncrements, cfg.massIncrements, k3 + 1) ==>
      tankMasses[2] <= Sweep(cfg.massIncrements, cfg.massIncrements, k3)
    ensures tankMasses[1] < Sweep(tankMasses[2] + cfg.massIncrements, cfg.massIncrements, k2 + 1) ==>
      tankMasses[1] <= Sweep(tankMasses[2] + cfg.massIncrements, cfg.massIncrements, k2)
    ensures tankMasses[0] < Sweep(tankMasses[1] + cfg.massIncrements, cfg.massIncrements, k1 + 1) ==>
      tankMasses[0] <= Sweep(tankMasses[1] + cfg.massIncrements, cfg.massIncrements, k1)
  {
    SweepGap(tankMasses[2], cfg.massIncrements, cfg.massIncrements, k3);
    SweepGap(tankMasses[1], tankMasses[2] + cfg.massIncrements, cfg.massIncrements, k2);
    SweepGap(tankMasses[0], tankMasses[1] + cfg.massIncrements, cfg.massIncrements, k1);
  }

  /** Every three-stage candidate at this payload with a top tank below tank3Mass has at most the fraction best. */
  ghost predicate ThreeStageBefore(math: MathLib, scaler: real, cfg: Settings, payloadMass: real, tank3Mass: real, best: real)
    requires |cfg.engines| >= 3
  {
    forall d :: ThreeStageDesign(math, scaler, cfg, d) && d.payloadMass == payloadMass && d.tankMasses[2] < tank3Mass ==>
      d.payloadFraction <= best
  }

  /** Every three-stage candidate at this payload on this top tank has at most the fraction best. */
  ghost predicate ThreeStageUnderTop(math: MathLib, scaler: real, cfg: Settings, payloadMass: real, tank3Mass: real, best: real)
    requires |cfg.engines| >= 3
  {
    forall d :: ThreeStageDesign(math, scaler, cfg, d) && d.payloadMass == payloadMass && d.tankMasses[2] == tank3Mass ==>
      d.payloadFraction <= best
  }

  /** Every three-stage candidate at this payload on this top tank with a middle tank below tank2Mass has at most the fraction best. */
  ghost predicate ThreeStageMiddleBefore(math: MathLib, scaler: real, cfg: Settings, payloadMass: real, tank3Mass: real, tank2Mass: real, best: real)
    requires |cfg.engines| >= 3
  {
    forall d :: ThreeStageDesign(math, scaler, cfg, d) && d.payloadMass == payloadMass && d.tankMasses[2] == tank3Mass && d.tankMasses[1] < tank2Mass ==>
      d.payloadFraction <= best
  }

  /** Every three-stage candidate at this payload on these top and middle tanks has at most the fraction best. */
  ghost predicate ThreeStageUnderMiddle(math: MathLib, scaler: real, cfg: Settings, payloadMass: real, tank3Mass: real, tank2Mass: real, best: real)
    requires |cfg.engines| >= 3
  {
    forall d :: ThreeStageDesign(math, scaler, cfg, d) && d.payloadMass == payloadMass && d.tankMasses[2] == tank3Mass && d.tankMasses[1] == tank2Mass ==>
      d.payloadFraction <= best
  }

  /** Every three-stage candidate at this payload on these top and middle tanks with a first tank below tank1Mass has at most the fraction best. */
  ghost predicate ThreeStageFirstBefore(math: MathLib, scaler: real, cfg: Settings, payloadMass: real, tank3Mass: real, tank2Mass: real,
                                        tank1Mass: real, best: real)
    requires |cfg.engines| >= 3
  {
    forall d :: ThreeStageDesign(math, scaler, cfg, d) && d.payloadMass == payloadMass && d.tankMasses[2] == tank3Mass && d.tankMasses[1] == tank2Mass
                && d.tankMasses[0] < tank1Mass ==>
      d.payloadFraction <= best
  }

  /** Every three-stage candidate at this payload has at most the fraction best. */
  ghost predicate ThreeStageBestAt(math: MathLib, scaler: real, cfg: Settings, payloadMass: real, best: real)
    requires |cfg.engines| >= 3
  {
    forall d :: ThreeStageDesign(math, scaler, cfg, d) && d.payloadMass == payloadMass ==> d.payloadFraction <= best
  }

  /** No three-stage candidate has a top tank below the first one swept. */
  lemma ThreeStageStart(math: MathLib, scaler: real, cfg: Settings, payloadMass: real)
    requires |cfg.engines| >= 3 && cfg.massIncrements > 0.0
    ensures ThreeStageBefore(math, scaler, cfg, payloadMass, cfg.massIncrements, 0.0)
  {
    forall d | ThreeStageDesign(math, scaler, cfg, d) && d.payloadMass == payloadMass
      ensures cfg.massIncrements <= d.tankMasses[2]
    {
      ThreeStageTanksAbove(cfg, d.tankMasses);
    }
  }

  /** No three-stage candidate has a middle tank below the first one swept over its top tank. */
  lemma ThreeStageMiddleStart(math: MathLib, scaler: real, cfg: Settings, payloadMass: real, tank3Mass: real, best: real)
    requires |cfg.engines| >= 3 && cfg.massIncrements > 0.0
    ensures ThreeStageMiddleBefore(math, scaler, cfg, payloadMass, tank3Mass, tank3Mass + cfg.massIncrements, best)
  {
    forall d | ThreeStageDesign(math, scaler, cfg, d) && d.payloadMass == payloadMass && d.tankMasses[2] == tank3Mass
      ensures tank3Mass + cfg.massIncrements <= d.tankMasses[1]
    {
      ThreeStageTanksAbove(cfg, d.tankMasses);
    }
  }

  /** No three-stage candidate has a first tank below the first one swept over its middle tank. */
  lemma ThreeStageFirstStart(math: MathLib, scaler: real, cfg: Settings, payloadMass: real, tank3Mass: real, tank2Mass: real, best: real)
    requires |cfg.engines| >= 3 && cfg.massIncrements > 0.0
    ensures ThreeStageFirstBefore(math, scaler, cfg, payloadMass, tank3Mass, tank2Mass, tank2Mass + cfg.massIncrements, best)
  {
    forall d | ThreeStageDesign(math, scaler, cfg, d) && d.payloadMass == payloadMass && d.tankMasses[2] == tank3Mass && d.tankMasses[1] == tank2Mass
      ensures tank2Mass + cfg.massIncrements <= d.tankMasses[0]
    {
      ThreeStageTanksAbove(cfg, d.tankMasses);
    }
  }

  /** Offering the candidate at one first tank mass covers every candidate on these upper tanks up to the next first tank mass. */
  lemma ThreeStageFirstOffered(math: MathLib, scaler: real, cfg: Settings, payloadMass: real, tank3Mass: real, tank2Mass: real,
                               tank1Mass: real, tank1Steps: nat, pr: Progress)
    requires |cfg.engines| >= 3 && cfg.massIncrements > 0.0
    requires tank1Mass == Sweep(tank2Mass + cfg.massIncrements, cfg.massIncrements, tank1Steps)
    requires ThreeStageFirstBefore(math, scaler, cfg, payloadMass, tank3Mass, tank2Mass, tank1Mass, pr.bestFraction)
    ensures ThreeStageFirstBefore(math, scaler, cfg, payloadMass, tank3Mass, tank2Mass, tank1Mass + cfg.massIncrements,
                                  Offer(pr, ThreeStageAt(math, scaler, cfg, payloadMass, tank3Mass, tank2Mass, tank1Mass)).bestFraction)
  {
    var inc := cfg.massIncrements;
    OfferExtends(pr, ThreeStageAt(math, scaler, cfg, payloadMass, tank3Mass, tank2Mass, tank1Mass));
    SweepNext(tank2Mass + inc, inc, tank1Steps);
    forall d | ThreeStageDesign(math, scaler, cfg, d) && d.payloadMass == payloadMass && d.tankMasses[2] == tank3Mass && d.tankMasses[1] == tank2Mass
               && d.tankMasses[0] < tank1Mass + inc
      ensures d.payloadFraction <= Offer(pr, ThreeStageAt(math, scaler, cfg, payloadMass, tank3Mass, tank2Mass, tank1Mass)).bestFraction
    {
      ThreeStageTanksGap(cfg, d.tankMasses, 0, 0, tank1Steps);
      if d.tankMasses[0] == tank1Mass {
        ThreeStageDesignIsAt(math, scaler, cfg, d);
      }
    }
  }

  /** A first tank at which the first stage falls below 1.2 ends that sweep without losing a candidate on these upper tanks. */
  lemma ThreeStageFirstStops(math: MathLib, scaler: real, cfg: Settings, payloadMass: real, tank3Mass: real, stage3: Thruster,
                             tank2Mass: real, stage2: Thruster, tank1Mass: real, tank1Steps: nat, best: real)
    requires |cfg.engines| >= 3 && cfg.massIncrements > 0.0 && Physical(cfg.engines[0])
    requires CandidateStage(payloadMass, cfg.engines[2], tank3Mass, 1) == Ok(stage3)
    requires 0.0 < tank2Mass && CandidateStage(stage3.mass, cfg.engines[1], tank2Mass, 1) == Ok(stage2) && 0.0 <= stage2.mass
    requires tank1Mass == Sweep(tank2Mass + cfg.massIncrements, cfg.massIncrements, tank1Steps)
    requires CandidateStage(stage2.mass, cfg.engines[0], tank1Mass, cfg.firstStageStackSize).Ok?
    requires CandidateStage(stage2.mass, cfg.engines[0], tank1Mass, cfg.firstStageStackSize).value.minTWR < TARGET_STAGE_1_TWR
    requires ThreeStageFirstBefore(math, scaler, cfg, payloadMass, tank3Mass, tank2Mass, tank1Mass, best)
    ensures ThreeStageUnderMiddle(math, scaler, cfg, payloadMass, tank3Mass, tank2Mass, best)
  {
    SweepPositive(tank2Mass + cfg.massIncrements, cfg.massIncrements, tank1Steps);
    forall d | ThreeStageDesign(math, scaler, cfg, d) && d.payloadMass == payloadMass && d.tankMasses[2] == tank3Mass && d.tankMasses[1] == tank2Mass
      ensures d.tankMasses[0] < tank1Mass
    {
      CandidateAntitone(stage2.mass, cfg.engines[0], tank1Mass, d.tankMasses[0], cfg.firstStageStackSize);
    }
  }

  /** Covering every candidate on one middle tank moves the bound on the middle tank sweep one increment on. */
  lemma ThreeStageMiddleNext(math: MathLib, scaler: real, cfg: Settings, payloadMass: real, tank3Mass: real, tank2Mass: real, tank2Steps: nat,
                             best0: real, best: real)
    requires |cfg.engines| >= 3 && cfg.massIncrements > 0.0
    requires tank2Mass == Sweep(tank3Mass + cfg.massIncrements, cfg.massIncrements, tank2Steps)
    requires ThreeStageMiddleBefore(math, scaler, cfg, payloadMass, tank3Mass, tank2Mass, best0) && best0 <= best
    requires ThreeStageUnderMiddle(math, scaler, cfg, payloadMass, tank3Mass, tank2Mass, best)
    ensures ThreeStageMiddleBefore(math, scaler, cfg, payloadMass, tank3Mass, tank2Mass + cfg.massIncrements, best)
  {
    var inc := cfg.massIncrements;
    SweepNext(tank3Mass + inc, inc, tank2Steps);
    forall d | ThreeStageDesign(math, scaler, cfg, d) && d.payloadMass == payloadMass && d.tankMasses[2] == tank3Mass
               && d.tankMasses[1] < tank2Mass + inc
      ensures d.tankMasses[1] <= tank2Mass
    {
      ThreeStageTanksGap(cfg, d.tankMasses, 0, tank2Steps, 0);
    }
  }

  /** A three-stage candidate's middle stage, built over its top stage, passes both of its checks. */
  lemma ThreeStageMiddleOf(math: MathLib, scaler: real, cfg: Settings, d: Design, stage3: Thruster)
    requires |cfg.engines| >= 3 && ThreeStageDesign(math, scaler, cfg, d)
    requires CandidateStage(d.payloadMass, cfg.engines[2], d.tankMasses[2], 1) == Ok(stage3)
    ensures var s2 := CandidateStage(stage3.mass, cfg.engines[1], d.tankMasses[1], 1);
      s2.Ok? && s2.value.minTWR >= TARGET_STAGE_2_TWR && s2.value.minTWR >= stage3.minTWR
  {
  }

  /**
   * A middle tank at which the middle stage falls below 2.0 or below the top stage's ratio ends
   * that sweep without losing a candidate on this top tank.
   */
  lemma ThreeStageMiddleStops(math: MathLib, scaler: real, cfg: Settings, payloadMass: real, tank3Mass: real, stage3: Thruster,
                              tank2Mass: real, best: real)
    requires |cfg.engines| >= 3 && Physical(cfg.engines[1]) && 0.0 < tank2Mass
    requires CandidateStage(payloadMass, cfg.engines[2], tank3Mass, 1) == Ok(stage3) && 0.0 <= stage3.mass
    requires CandidateStage(stage3.mass, cfg.engines[1], tank2Mass, 1).Ok?
    requires CandidateStage(stage3.mass, cfg.engines[1], tank2Mass, 1).value.minTWR < TARGET_STAGE_2_TWR
          || CandidateStage(stage3.mass, cfg.engines[1], tank2Mass, 1).value.minTWR < stage3.minTWR
    requires ThreeStageMiddleBefore(math, scaler, cfg, payloadMass, tank3Mass, tank2Mass, best)
    ensures ThreeStageUnderTop(math, scaler, cfg, payloadMass, tank3Mass, best)
  {
    forall d | ThreeStageDesign(math, scaler, cfg, d) && d.payloadMass == payloadMass && d.tankMasses[2] == tank3Mass
      ensures d.tankMasses[1] < tank2Mass
    {
      ThreeStageMiddleOf(math, scaler, cfg, d, stage3);
      CandidateAntitone(stage3.mass, cfg.engines[1], tank2Mass, d.tankMasses[1], 1);
    }
  }

  /** Covering every candidate on one top tank moves the bound on the top tank sweep one increment on. */
  lemma ThreeStageNext(math: MathLib, scaler: real, cfg: Settings, payloadMass: real, tank3Mass: real, tank3Steps: nat,
                       best0: real, best: real)
    requires |cfg.engines| >= 3 && cfg.massIncrements > 0.0
    requires tank3Mass == Sweep(cfg.massIncrements, cfg.massIncrements, tank3Steps)
    requires ThreeStageBefore(math, scaler, cfg, payloadMass, tank3Mass, best0) && best0 <= best
    requires ThreeStageUnderTop(math, scaler, cfg, payloadMass, tank3Mass, best)
    ensures ThreeStageBefore(math, scaler, cfg, payloadMass, tank3Mass + cfg.massIncrements, best)
  {
    var inc := cfg.massIncrements;
    SweepNext(inc, inc, tank3Steps);
    forall d | ThreeStageDesign(math, scaler, cfg, d) && d.payloadMass == payloadMass && d.tankMasses[2] < tank3Mass + inc
      ensures d.tankMasses[2] <= tank3Mass
    {
      ThreeStageTanksGap(cfg, d.tankMasses, tank3Steps, 0, 0);
    }
  }

  /** A top tank at which the top stage falls below 1.0 ends the sweep without losing a candidate. */
  lemma ThreeStageStops(math: MathLib, scaler: real, cfg: Settings, payloadMass: real, tank3Mass: real, best: real)
    requires |cfg.engines| >= 3 && Physical(cfg.engines[2]) && 0.0 < payloadMass && 0.0 < tank3Mass
    requires CandidateStage(payloadMass, cfg.engines[2], tank3Mass, 1).Ok?
    requires CandidateStage(payloadMass, cfg.engines[2], tank3Mass, 1).value.minTWR < TARGET_STAGE_3_TWR
    requires ThreeStageBefore(math, scaler, cfg, payloadMass, tank3Mass, best)
    ensures ThreeStageBestAt(math, scaler, cfg, payloadMass, best)
  {
    forall d | ThreeStageDesign(math, scaler, cfg, d) && d.payloadMass == payloadMass
      ensures d.tankMasses[2] < tank3Mass
    {
      CandidateAntitone(payloadMass, cfg.engines[2], tank3Mass, d.tankMasses[2], 1);
    }
  }



  /** Every candidate of the log is a one-stage candidate. */
  ghost predicate AllOneStage(math: MathLib, scaler: real, cfg: Settings, log: seq<Design>)
    requires |cfg.engines| >= 1
    decreases |log|, 2
  {
    log == [] || AllOneStageNonEmpty(math, scaler, cfg, log)
  }

  /**
   * A non-empty log of one-stage candidates, taken apart one level at a time (the log before
   * the last entry, then the last entry) so that a search loop sees only the top level.
   */
  ghost predicate AllOneStageNonEmpty(math: MathLib, scaler: real, cfg: Settings, log: seq<Design>)
    requires |cfg.engines| >= 1 && log != []
    decreases |log|, 1
  {
    AllOneStageSplit(math, scaler, cfg, log)
  }

  /** A non-empty log of one-stage candidates: the ones before the last, and the last. */
  ghost predicate AllOneStageSplit(math: MathLib, scaler: real, cfg: Settings, log: seq<Design>)
    requires |cfg.engines| >= 1 && log != []
    decreases |log|, 0
  {
    AllOneStage(math, scaler, cfg, log[..|log| - 1]) && OneStageDesign(math, scaler, cfg, log[|log| - 1])
  }

  /** Appending a one-stage candidate keeps a log of them one. */
  lemma AllOneStageAppend(math: MathLib, scaler: real, cfg: Settings, log: seq<Design>, d: Design)
    requires |cfg.engines| >= 1
    requires AllOneStage(math, scaler, cfg, log) && OneStageDesign(math, scaler, cfg, d)
    ensures AllOneStage(math, scaler, cfg, log + [d])
  {
    assert (log + [d])[..|log|] == log;
    assert AllOneStageSplit(math, scaler, cfg, log + [d]);
    assert AllOneStageNonEmpty(math, scaler, cfg, log + [d]);
  }

  /** Each entry of a log of one-stage candidates is one, and so is what the one-engine search prints. */
  lemma {:induction false} AllOneStageAt(math: MathLib, scaler: real, cfg: Settings, log: seq<Design>, i: nat)
    requires |cfg.engines| == 1 && AllOneStage(math, scaler, cfg, log) && i < |log|
    ensures OneStageDesign(math, scaler, cfg, log[i]) && Designed(math, scaler, cfg, log[i])
    decreases |log|
  {
    assert AllOneStageNonEmpty(math, scaler, cfg, log);
    assert AllOneStageSplit(math, scaler, cfg, log);
    if i < |log| - 1 {
      var init := log[..|log| - 1];
      AllOneStageAt(math, scaler, cfg, init, i);
      assert init[i] == log[i];
    }
  }

  /** Every candidate of the log is a two-stage candidate. */
  ghost predicate AllTwoStage(math: MathLib, scaler: real, cfg: Settings, log: seq<Design>)
    requires |cfg.engines| >= 2
    decreases |log|, 2
  {
    log == [] || AllTwoStageNonEmpty(math, scaler, cfg, log)
  }

  /**
   * A non-empty log of two-stage candidates, taken apart one level at a time (the log before
   * the last entry, then the last entry) so that a search loop sees only the top level.
   */
  ghost predicate AllTwoStageNonEmpty(math: MathLib, scaler: real, cfg: Settings, log: seq<Design>)
    requires |cfg.engines| >= 2 && log != []
    decreases |log|, 1
  {
    AllTwoStageSplit(math, scaler, cfg, log)
  }

  /** A non-empty log of two-stage candidates: the ones before the last, and the last. */
  ghost predicate AllTwoStageSplit(math: MathLib, scaler: real, cfg: Settings, log: seq<Design>)
    requires |cfg.engines| >= 2 && log != []
    decreases |log|, 0
  {
    AllTwoStage(math, scaler, cfg, log[..|log| - 1]) && TwoStageDesign(math, scaler, cfg, log[|log| - 1])
  }

  /** Appending a two-stage candidate keeps a log of them one. */
  lemma AllTwoStageAppend(math: MathLib, scaler: real, cfg: Settings, log: seq<Design>, d: Design)
    requires |cfg.engines| >= 2
    requires AllTwoStage(math, scaler, cfg, log) && TwoStageDesign(math, scaler, cfg, d)
    ensures AllTwoStage(math, scaler, cfg, log + [d])
  {
    assert (log + [d])[..|log|] == log;
    assert AllTwoStageSplit(math, scaler, cfg, log + [d]);
    assert AllTwoStageNonEmpty(math, scaler, cfg, log + [d]);
  }

  /** Each entry of a log of two-stage candidates is one, and so is what the two-engine search prints. */
  lemma {:induction false} AllTwoStageAt(math: MathLib, scaler: real, cfg: Settings, log: seq<Design>, i: nat)
    requires |cfg.engines| == 2 && AllTwoStage(math, scaler, cfg, log) && i < |log|
    ensures TwoStageDesign(math, scaler, cfg, log[i]) && Designed(math, scaler, cfg, log[i])
    decreases |log|
  {
    assert AllTwoStageNonEmpty(math, scaler, cfg, log);
    assert AllTwoStageSplit(math, scaler, cfg, log);
    if i < |log| - 1 {
      var init := log[..|log| - 1];
      AllTwoStageAt(math, scaler, cfg, init, i);
      assert init[i] == log[i];
    }
  }

  /** Every candidate of the log is a three-stage candidate. */
  ghost predicate AllThreeStage(math: MathLib, scaler: real, cfg: Settings, log: seq<Design>)
    requires |cfg.engines| >= 3
    decreases |log|, 2
  {
    log == [] || AllThreeStageNonEmpty(math, scaler, cfg, log)
  }

  /**
   * A non-empty log of three-stage candidates, taken apart one level at a time (the log before
   * the last entry, then the last entry) so that a search loop sees only the top level.
   */
  ghost predicate AllThreeStageNonEmpty(math: MathLib, scaler: real, cfg: Settings, log: seq<Design>)
    requires |cfg.engines| >= 3 && log != []
    decreases |log|, 1
  {
    AllThreeStageSplit(math, scaler, cfg, log)
  }

  /** A non-empty log of three-stage candidates: the ones before the last, and the last. */
  ghost predicate AllThreeStageSplit(math: MathLib, scaler: real, cfg: Settings, log: seq<Design>)
    requires |cfg.engines| >= 3 && log != []
    decreases |log|, 0
  {
    AllThreeStage(math, scaler, cfg, log[..|log| - 1]) && ThreeStageDesign(math, scaler, cfg, log[|log| - 1])
  }

  /** Appending a three-stage candidate keeps a log of them one. */
  lemma AllThreeStageAppend(math: MathLib, scaler: real, cfg: Settings, log: seq<Design>, d: Design)
    requires |cfg.engines| >= 3
    requires AllThreeStage(math, scaler, cfg, log) && ThreeStageDesign(math, scaler, cfg, d)
    ensures AllThreeStage(math, scaler, cfg, log + [d])
  {
    assert (log + [d])[..|log|] == log;
    assert AllThreeStageSplit(math, scaler, cfg, log + [d]);
    assert AllThreeStageNonEmpty(math, scaler, cfg, log + [d]);
  }

  /** Each entry of a log of three-stage candidates is one, and so is what the three-engine search prints. */
  lemma {:induction false} AllThreeStageAt(math: MathLib, scaler: real, cfg: Settings, log: seq<Design>, i: nat)
    requires |cfg.engines| == 3 && AllThreeStage(math, scaler, cfg, log) && i < |log|
    ensures ThreeStageDesign(math, scaler, cfg, log[i]) && Designed(math, scaler, cfg, log[i])
    decreases |log|
  {
    assert AllThreeStageNonEmpty(math, scaler, cfg, log);
    assert AllThreeStageSplit(math, scaler, cfg, log);
    if i < |log| - 1 {
      var init := log[..|log| - 1];
      AllThreeStageAt(math, scaler, cfg, init, i);
      assert init[i] == log[i];
    }
  }

  /** The facts the one-stage search has at hand when it prints make a one-stage candidate. */
  lemma OneStageDesignOf(math: MathLib, scaler: real, cfg: Settings, payloadMass: real, payloadSteps: nat,
                         tankMass: real, tankSteps: nat, s1: Thruster, rocket: Rocket, deltaV: real, fraction: real)
    requires |cfg.engines| == 1
    requires 0.0 < payloadMass == Sweep(cfg.maxPayloadMass, -cfg.massIncrements, payloadSteps)
    requires tankMass == Sweep(cfg.massIncrements, cfg.massIncrements, tankSteps)
    requires CandidateStage(payloadMass, cfg.engines[0], tankMass, cfg.firstStageStackSize) == Ok(s1)
    requires s1.minTWR >= TARGET_STAGE_1_TWR && rocket == Rocket([s1])
    requires deltaV == SumDeltaV(math, rocket.stages, scaler) && deltaV > cfg.targetDeltaV
    requires fraction == PayloadFraction(payloadMass, rocket) && fraction > 0.0
    ensures OneStageDesign(math, scaler, cfg, Design(rocket, payloadMass, [tankMass], deltaV, fraction))
  {
    SweepOn(cfg.maxPayloadMass, -cfg.massIncrements, payloadSteps);
    SweepOn(cfg.massIncrements, cfg.massIncrements, tankSteps);
  }

  /** The facts the two-stage search has at hand when it prints make a two-stage candidate. */
  lemma TwoStageDesignOf(math: MathLib, scaler: real, cfg: Settings, payloadMass: real, payloadSteps: nat,
                         tank2Mass: real, tank2Steps: nat, s2: Thruster, tank1Mass: real, tank1Steps: nat, s1: Thruster,
                         rocket: Rocket, deltaV: real, fraction: real)
    requires |cfg.engines| == 2
    requires 0.0 < payloadMass == Sweep(cfg.maxPayloadMass, -cfg.massIncrements, payloadSteps)
    requires tank2Mass == Sweep(cfg.massIncrements, cfg.massIncrements, tank2Steps)
    requires tank1Mass == Sweep(tank2Mass + cfg.massIncrements, cfg.massIncrements, tank1Steps)
    requires CandidateStage(payloadMass, cfg.engines[1], tank2Mass, 1) == Ok(s2) && s2.minTWR >= TARGET_STAGE_2_TWR
    requires CandidateStage(s2.mass, cfg.engines[0], tank1Mass, cfg.firstStageStackSize) == Ok(s1) && s1.minTWR >= TARGET_STAGE_1_TWR
    requires 0.3 < SizeRatio(tank2Mass, tank1Mass, cfg.firstStageStackSize) < 1.0
    requires rocket == Rocket([s1, s2])
    requires deltaV == SumDeltaV(math, rocket.stages, scaler) && deltaV > cfg.targetDeltaV
    requires fraction == PayloadFraction(payloadMass, rocket) && fraction > 0.0
    ensures TwoStageDesign(math, scaler, cfg, Design(rocket, payloadMass, [tank1Mass, tank2Mass], deltaV, fraction))
  {
    SweepOn(cfg.maxPayloadMass, -cfg.massIncrements, payloadSteps);
    TwoStageTanksOf(cfg, tank2Mass, tank2Steps, tank1Mass, tank1Steps);
    TwoStageStagesOf(cfg, payloadMass, tank2Mass, s2, tank1Mass, s1);
  }

  /** Tank masses at those steps of their sweeps, in the ratio window, make the tanks of a two-stage candidate. */
  lemma TwoStageTanksOf(cfg: Settings, tank2Mass: real, tank2Steps: nat, tank1Mass: real, tank1Steps: nat)
    requires tank2Mass == Sweep(cfg.massIncrements, cfg.massIncrements, tank2Steps)
    requires tank1Mass == Sweep(tank2Mass + cfg.massIncrements, cfg.massIncrements, tank1Steps)
    requires 0.3 < SizeRatio(tank2Mass, tank1Mass, cfg.firstStageStackSize) < 1.0
    ensures TwoStageTanks(cfg, [tank1Mass, tank2Mass])
  {
    SweepOn(cfg.massIncrements, cfg.massIncrements, tank2Steps);
    SweepOn(tank2Mass + cfg.massIncrements, cfg.massIncrements, tank1Steps);
  }

  /** Two candidate stages that lift off, the first on the upper one, make the stages of a two-stage candidate. */
  lemma TwoStageStagesOf(cfg: Settings, payloadMass: real, tank2Mass: real, s2: Thruster, tank1Mass: real, s1: Thruster)
    requires |cfg.engines| == 2
    requires CandidateStage(payloadMass, cfg.engines[1], tank2Mass, 1) == Ok(s2) && s2.minTWR >= TARGET_STAGE_2_TWR
    requires CandidateStage(s2.mass, cfg.engines[0], tank1Mass, cfg.firstStageStackSize) == Ok(s1) && s1.minTWR >= TARGET_STAGE_1_TWR
    ensures TwoStageStages(cfg, payloadMass, [tank1Mass, tank2Mass], Rocket([s1, s2]))
  {
    var tankMasses := [tank1Mass, tank2Mass];
    assert tankMasses[0] == tank1Mass && tankMasses[1] == tank2Mass;
  }

  /** The facts the three-stage search has at hand when it prints make a three-stage candidate. */
  lemma ThreeStageDesignOf(math: MathLib, scaler: real, cfg: Settings, payloadMass: real, payloadSteps: nat,
                           tank3Mass: real, tank3Steps: nat, s3: Thruster, tank2Mass: real, tank2Steps: nat, s2: Thruster,
                           tank1Mass: real, tank1Steps: nat, s1: Thruster, rocket: Rocket, deltaV: real, fraction: real)
    requires |cfg.engines| == 3
    requires 0.0 < payloadMass == Sweep(cfg.maxPayloadMass, -cfg.massIncrements, payloadSteps)
    requires tank3Mass == Sweep(cfg.massIncrements, cfg.massIncrements, tank3Steps)
    requires tank2Mass == Sweep(tank3Mass + cfg.massIncrements, cfg.massIncrements, tank2Steps)
    requires tank1Mass == Sweep(tank2Mass + cfg.massIncrements, cfg.massIncrements, tank1Steps)
    requires CandidateStage(payloadMass, cfg.engines[2], tank3Mass, 1) == Ok(s3) && s3.minTWR >= TARGET_STAGE_3_TWR
    requires CandidateStage(s3.mass, cfg.engines[1], tank2Mass, 1) == Ok(s2)
    requires s2.minTWR >= TARGET_STAGE_2_TWR && s2.minTWR >= s3.minTWR
    requires CandidateStage(s2.mass, cfg.engines[0], tank1Mass, cfg.firstStageStackSize) == Ok(s1) && s1.minTWR >= TARGET_STAGE_1_TWR
    requires rocket == Rocket([s1, s2, s3])
    requires deltaV == SumDeltaV(math, rocket.stages, scaler) && deltaV > cfg.targetDeltaV
    requires fraction == PayloadFraction(payloadMass, rocket) && fraction > 0.0
    ensures ThreeStageDesign(math, scaler, cfg, Design(rocket, payloadMass, [tank1Mass, tank2Mass, tank3Mass], deltaV, fraction))
  {
    SweepOn(cfg.maxPayloadMass, -cfg.massIncrements, payloadSteps);
    ThreeStageTanksOf(cfg, tank3Mass, tank3Steps, tank2Mass, tank2Steps, tank1Mass, tank1Steps);
    ThreeStageStagesOf(cfg, payloadMass, tank3Mass, s3, tank2Mass, s2, tank1Mass, s1);
  }

  /** Tank masses at those steps of their sweeps make the tanks of a three-stage candidate. */
  lemma ThreeStageTanksOf(cfg: Settings, tank3Mass: real, tank3Steps: nat, tank2Mass: real, tank2Steps: nat,
                          tank1Mass: real, tank1Steps: nat)
    requires tank3Mass == Sweep(cfg.massIncrements, cfg.massIncrements, tank3Steps)
    requires tank2Mass == Sweep(tank3Mass + cfg.massIncrements, cfg.massIncrements, tank2Steps)
    requires tank1Mass == Sweep(tank2Mass + cfg.massIncrements, cfg.massIncrements, tank1Steps)
    ensures ThreeStageTanks(cfg, [tank1Mass, tank2Mass, tank3Mass])
  {
    SweepOn(cfg.massIncrements, cfg.massIncrements, tank3Steps);
    SweepOn(tank3Mass + cfg.massIncrements, cfg.massIncrements, tank2Steps);
    SweepOn(tank2Mass + cfg.massIncrements, cfg.massIncrements, tank1Steps);
  }

  /** Three candidate stages that lift off, each on the one above, make the stages of a three-stage candidate. */
  lemma ThreeStageStagesOf(cfg: Settings, payloadMass: real, tank3Mass: real, s3: Thruster, tank2Mass: real, s2: Thruster,
                           tank1Mass: real, s1: Thruster)
    requires |cfg.engines| == 3
    requires CandidateStage(payloadMass, cfg.engines[2], tank3Mass, 1) == Ok(s3) && s3.minTWR >= TARGET_STAGE_3_TWR
    requires CandidateStage(s3.mass, cfg.engines[1], tank2Mass, 1) == Ok(s2)
    requires s2.minTWR >= TARGET_STAGE_2_TWR && s2.minTWR >= s3.minTWR
    requires CandidateStage(s2.mass, cfg.engines[0], tank1Mass, cfg.firstStageStackSize) == Ok(s1) && s1.minTWR >= TARGET_STAGE_1_TWR
    ensures ThreeStageStages(cfg, payloadMass, [tank1Mass, tank2Mass, tank3Mass], Rocket([s1, s2, s3]))
  {
    var tankMasses := [tank1Mass, tank2Mass, tank3Mass];
    assert tankMasses[0] == tank1Mass && tankMasses[1] == tank2Mass && tankMasses[2] == tank3Mass;
  }
}
