/** Rocket of the rocket package: an ordered list of stages, and the Builder that chains them. */
module RocketVehicle {
  import opened Wrappers
  import opened Physics
  import opened RocketThruster
  import opened RocketTank
  import opened RocketAssembly

  /** A rocket: its stages, index 0 the one that fires first. */
  datatype Rocket = Rocket(stages: seq<Thruster>)

  /** The Rocket constructor: at least one stage is required. */
  function NewRocket(stages: seq<Thruster>): (r: Result<Rocket>)
    ensures r.Ok? <==> |stages| >= 1
    ensures r.Ok? ==> r.value.stages == stages
    ensures r.Err? ==> r.failure == NoStages
  {
    if |stages| < 1 then Err(NoStages) else Ok(Rocket(stages))
  }

  /** getFinalStage: the stage that fires last. */
  function FinalStage(r: Rocket): Thruster
    requires |r.stages| >= 1
  {
    r.stages[|r.stages| - 1]
  }

  /** getTotalMass: the mass of the first stage, which carries all the others. */
  function TotalMass(r: Rocket): real
    requires |r.stages| >= 1
  {
    r.stages[0].mass
  }

  /** getStartingTWR: the first stage's initial thrust-to-weight ratio. */
  function StartingTWR(r: Rocket): real
    requires |r.stages| >= 1
  {
    r.stages[0].minTWR
  }

  /** The sum of the stages' own delta-V, accumulated front to back. */
  function SumDeltaV(math: MathLib, stages: seq<Thruster>, scaler: real): real
  {
    if stages == [] then 0.0
    else SumDeltaV(math, stages[..|stages| - 1], scaler) + DeltaV(math, stages[|stages| - 1], scaler)
  }

  /** getTotalDeltaV: the accumulator loop over the stages. */
  method TotalDeltaV(math: MathLib, r: Rocket, scaler: real) returns (deltaV: real)
    ensures deltaV == SumDeltaV(math, r.stages, scaler)
  {
    deltaV := 0.0;
    var i := 0;
    while i < |r.stages|
      invariant 0 <= i <= |r.stages|
      invariant deltaV == SumDeltaV(math, r.stages[..i], scaler)
    {
      assert r.stages[..i + 1][..i] == r.stages[..i];
      deltaV := deltaV + DeltaV(math, r.stages[i], scaler);
      i := i + 1;
    }
    assert r.stages[..i] == r.stages;
  }

  lemma {:induction false} SumDeltaVAppend(math: MathLib, a: seq<Thruster>, b: seq<Thruster>, scaler: real)
    ensures SumDeltaV(math, a + b, scaler) == SumDeltaV(math, a, scaler) + SumDeltaV(math, b, scaler)
    decreases |b|
  {
    if b == [] {
      assert a + b == a;
    } else {
      var b' := b[..|b| - 1];
      assert (a + b)[..|a + b| - 1] == a + b';
      SumDeltaVAppend(math, a, b', scaler);
    }
  }

  /** The list in the opposite order, as Collections.reverse leaves it. */
  function Reverse<T>(s: seq<T>): (r: seq<T>)
    ensures |r| == |s|
    ensures forall i :: 0 <= i < |s| ==> r[i] == s[|s| - 1 - i]
  {
    if s == [] then [] else [s[|s| - 1]] + Reverse(s[..|s| - 1])
  }

  /** Two stages added, the second fires first. */
  lemma ReverseTwo<T>(a: T, b: T)
    ensures Reverse([a, b]) == [b, a]
  {
  }

  /** Three stages added, the third fires first. */
  lemma ReverseThree<T>(a: T, b: T, c: T)
    ensures Reverse([a, b, c]) == [c, b, a]
  {
  }

  /** The order of the stages does not change the total delta-V. */
  lemma {:induction false} SumDeltaVReverse(math: MathLib, s: seq<Thruster>, scaler: real)
    ensures SumDeltaV(math, Reverse(s), scaler) == SumDeltaV(math, s, scaler)
  {
    if s != [] {
      var last, init := s[|s| - 1], s[..|s| - 1];
      assert Reverse(s) == [last] + Reverse(init);
      SumDeltaVAppend(math, [last], Reverse(init), scaler);
      SumDeltaVReverse(math, init, scaler);
      assert [last][..0] == [];
    }
  }

  /**
   * Rocket.Builder: the payload, and the list of stages added so far in the order they were
   * added (the last stage to fire first).
   */
  class Builder {
    const payload: real
    var stages: seq<Thruster>

    /** Builder(payloadMass); Builder() is Builder(0). */
    constructor (payloadMass: real)
      ensures payload == payloadMass && stages == []
    {
      payload := payloadMass;
      stages := [];
    }

    /** What the next stage carries: the builder's payload first, the stage added last afterwards. */
    function NextPayload(): (m: real)
      reads this
      ensures stages == [] ==> m == payload
      ensures stages != [] ==> m == stages[|stages| - 1].mass
    {
      if stages == [] then payload else stages[|stages| - 1].mass
    }

    /**
     * addStage(fuelTank, engine, n): a stage of n stacks of the tank and engine on top of what
     * NextPayload names; a tank and engine of different types are rejected and nothing is added.
     */
    method AddStage(tank: FuelTank, engine: Thruster, n: nat) returns (r: Result<Thruster>)
      modifies this
      ensures Stack(tank, engine).Err? ==> r == Err(TankEngineTypeMismatch) && stages == old(stages)
      ensures Stack(tank, engine).Ok? ==>
        r == Ok(StageOf(old(NextPayload()), Stack(tank, engine).value, n)) && stages == old(stages) + [r.value]
    {
      var payloadMass := NextPayload();
      var stack := Stack(tank, engine);
      if stack.Err? {
        return Err(stack.failure);
      }
      var stage := StageOf(payloadMass, stack.value, n);
      stages := stages + [stage];
      r := Ok(stage);
    }

    /** addStage(fuelTank, engine): one stack. */
    method AddSingleStage(tank: FuelTank, engine: Thruster) returns (r: Result<Thruster>)
      modifies this
      ensures Stack(tank, engine).Err? ==> r == Err(TankEngineTypeMismatch) && stages == old(stages)
      ensures Stack(tank, engine).Ok? ==>
        r == Ok(StageOf(old(NextPayload()), Stack(tank, engine).value, 1)) && stages == old(stages) + [r.value]
    {
      r := AddStage(tank, engine, 1);
    }

    /** addStage(stage): a stage built elsewhere is appended as it is. */
    method AddBuiltStage(stage: Thruster)
      modifies this
      ensures stages == old(stages) + [stage]
    {
      stages := stages + [stage];
    }

    /**
     * build: reverses the list in place, so that the stage added last fires first, and hands it to
     * the Rocket constructor (which rejects an empty list).
     */
    method Build() returns (r: Result<Rocket>)
      modifies this
      ensures stages == Reverse(old(stages))
      ensures r == NewRocket(Reverse(old(stages)))
    {
      stages := Reverse(stages);
      r := NewRocket(stages);
    }
  }

  /** A built rocket fires the last added stage first, ends with the first added one and keeps the total delta-V. */
  lemma BuiltRocket(math: MathLib, added: seq<Thruster>, scaler: real)
    requires |added| >= 1
    ensures NewRocket(Reverse(added)).Ok?
    ensures TotalMass(NewRocket(Reverse(added)).value) == added[|added| - 1].mass
    ensures StartingTWR(NewRocket(Reverse(added)).value) == added[|added| - 1].minTWR
    ensures FinalStage(NewRocket(Reverse(added)).value) == added[0]
    ensures SumDeltaV(math, NewRocket(Reverse(added)).value.stages, scaler) == SumDeltaV(math, added, scaler)
  {
    SumDeltaVReverse(math, added, scaler);
  }

  /** Two stages added through the builder: the second one added carries the first as its payload. */
  method TwoStageExample(tank2: FuelTank, tank1: FuelTank, engine: Thruster, payloadMass: real) returns (r: Result<Rocket>)
    requires Stack(tank2, engine).Ok? && Stack(tank1, engine).Ok?
    ensures r.Ok? && |r.value.stages| == 2
    ensures r.value.stages[1] == StageOf(payloadMass, Stack(tank2, engine).value, 1)
    ensures r.value.stages[0] == StageOf(r.value.stages[1].mass, Stack(tank1, engine).value, 1)
  {
    var b := new Builder(payloadMass);
    var s2 := b.AddSingleStage(tank2, engine);
    var s1 := b.AddSingleStage(tank1, engine);
    r := b.Build();
  }
}
