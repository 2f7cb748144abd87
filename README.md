# ksp-rocketbuilder in Dafny

This project models the part bookkeeping and the stage-sizing search of ksp-rocketbuilder, a
tool that sizes multi-stage rockets for Kerbal Space Program. Every proof is checked by Dafny's
verifier.

- **`rocket` package.**
  - Thrusters: the BaseThruster fields, Engine with its static Isp scaler and TweakScale resizing,
    and EngineCluster.
  - BaseTank, FuelTank and ProceduralTank.
  - A Stack is one tank on one engine, and must pass the type check. A Stage is a payload carried
    by N stacks.
  - A Rocket is a list of stages. Its Builder chains each stage as the payload of the next one and
    then reverses the list.
- **`parts` package, the older part model.**
  - The tank-type classifier over propellant lists.
  - Current masses clamped to `[dryMass, totalMass]`.
  - The thrust-weighted harmonic-mean Isp of EngineCluster and RocketStage.
  - A Rocket with a staging counter, and its Builder.
  - The catalogue filters of Engine.
  - TweakscaleEngine, from `oldfiles`.
- **`App.Builder`, the optimiser.**
  - It sweeps the payload mass down from a ceiling derived from the first engine's thrust.
  - For each payload it sweeps the procedural tank masses up, stage by stage, until a stage falls
    below its thrust-to-weight floor.
  - It keeps each candidate whose delta-V beats the target with a strictly better payload fraction.
  - It stops at the first payload mass that has any such candidate.

## Modelling conventions

- **Numbers.** Masses, thrust and Isp are `real`.
  - `Math.log` and `Math.pow` are the two fields of `Physics.MathLib`, which the formulas take as a
    parameter.
  - Java division is `Physics.Div`.
  - `KERBIN_GRAVITY` (9.80977664671) and the TweakScale exponents 2.5 and 2.6 are constants.
- **The Isp scaler.** `rocket.Engine.ispScaler` is the one field of the class
  `RocketEngine.IspScaler`, whose `Set` is `setIspScaler`. Every getter that reads the scaler at
  call time takes its value as a `scaler` parameter. So "changing the scaler changes every
  thruster's Isp" is a lemma over that parameter (`RocketThruster.DeltaVScales`).
- **Values and objects.**
  - The `rocket` package builds immutable parts, which are datatypes: `Thruster`, `FuelTank`,
    `Engine`, `Cluster` and `Rocket`. Its two Builders are classes with a `seq` field.
  - The `parts` package's objects keep a mutable current mass, so they are classes. `setMass` and
    `changeMass` are methods with `modifies` clauses.
- **Errors.** An `IllegalArgumentException` is an `Err` of `Wrappers.Result` with a `Failure`
  reason.
- **The optimiser's loops.**
  - `runOneStage`, `runTwoStage` and `runThreeStage` share the same payload loop, `SearchPayloads`.
  - Each tank loop is one `Sweep…` method. Its body, the steps for one tank mass, is the matching
    `Try…` method.
  - The tank loops end because past `TankLimit` no stage lifts off (`CandidateTankLimit`).
  - What a search would print is returned as `log`. Each entry is proved to be a design of the
    right shape (`OneStageDesign`, `TwoStageDesign`, `ThreeStageDesign`: the sweeps, the floors,
    the ratio window, the target and the fraction).
  - The printed candidates improve strictly, and the result is the last one printed.
  - Each break is lossless, because a heavier tank never raises a stage's ratio
    (`CandidateAntitone`). So the result is optimal over every design, not only the visited ones.
    No design has a higher payload, and none at the returned payload has a better fraction.
- **Findings.** Where the source is evidently wrong, both readings are modelled (see
  "## Findings"). The rest of the model builds on the corrected one.

Paths below are relative to the repository root, with `src/main/java/com/stevehead/ksp/rocketbuilder`
written out in full.

## Model

| member | source | states |
|---|---|---|
| Propellants.DeterminePropellants | src/main/java/com/stevehead/ksp/rocketbuilder/rocket/BaseThruster.java:64-70 | An empty list becomes the default liquid fuel and oxidizer, a non-empty list is kept as given, and the result is never empty. |
| Propellants.Combine | src/main/java/com/stevehead/ksp/rocketbuilder/rocket/Stack.java:19 | Combining two propellant lists: a propellant is in the result exactly when it is in either list, and the first list is kept as a prefix. |
| Propellants.CombineAll | src/main/java/com/stevehead/ksp/rocketbuilder/rocket/Stage.java:17 | A stage's propellants: a propellant is in the result exactly when some stack burns it. |
| Propellants.TypeOf | src/main/java/com/stevehead/ksp/rocketbuilder/rocket/Stack.java:21 | The type a part reports is never AUTO; it is the classification of its propellants, or NONE when they do not classify. |
| Propellants.Classify | src/main/java/com/stevehead/ksp/rocketbuilder/parts/Tank.java:129-165 | Defined as determineTankType on a propellant list: an unsupported propellant is `UnsupportedPropellant`; Monopropellant beside liquid fuel or oxidizer, or any other mix, is `InvalidPropellantCombination`; liquid fuel with oxidizer gives the liquid-fuel-and-oxidizer type; Monopropellant alone gives the monopropellant type. Specified by ClassifyLiquidFuelAndOxidizer, ClassifyMonopropellant, ClassifyRejects and ClassifyBySet. |
| Propellants.ClassifyLiquidFuelAndOxidizer | src/main/java/com/stevehead/ksp/rocketbuilder/parts/Tank.java:150-158 | Both directions: a list is a liquid-fuel tank exactly when all its propellants are supported, it holds LF and OX, and it holds no MP. |
| Propellants.ClassifyMonopropellant | src/main/java/com/stevehead/ksp/rocketbuilder/parts/Tank.java:160-162 | Both directions: a list is a monopropellant tank exactly when it holds MP and nothing else. |
| Propellants.ClassifyRejects | src/main/java/com/stevehead/ksp/rocketbuilder/parts/Tank.java:145-164 | The empty list, LF alone, OX alone and MP mixed with LF are invalid combinations; a solid-fuel entry is unsupported; LF with OX classifies. No list classifies as `NoTankType` or `Auto`. |
| Propellants.ClassifyBySet | src/main/java/com/stevehead/ksp/rocketbuilder/parts/Tank.java:129-148 | Classification depends only on which propellants occur, not on their order or repetition. |
| PartsTank.DetermineTankType | src/main/java/com/stevehead/ksp/rocketbuilder/parts/Tank.java:129-165 | The flag-setting loop, with its early rejection of unsupported propellants, returns exactly the classification above. |
| Physics.Clamp | src/main/java/com/stevehead/ksp/rocketbuilder/parts/Tank.java:108-112 | Raising to the lower bound, then capping at the upper one, as every setMass does: the result never exceeds the upper bound and, when the bounds are ordered, never falls below the lower one; a mass inside the bounds is kept, one below is raised to the lower bound, and one above is lowered to the upper bound. |
| PartsTank.Tank.Init | src/main/java/com/stevehead/ksp/rocketbuilder/parts/Tank.java:71-76 | Fields are as given, and the tank starts full (its mass is the total mass). |
| PartsTank.Tank.SetMass | src/main/java/com/stevehead/ksp/rocketbuilder/parts/Tank.java:108-112 | The mass becomes max then min against dry and total mass, so it lies in `[dryMass, totalMass]` whenever dry <= total. |
| PartsTank.Tank.ChangeMass | src/main/java/com/stevehead/ksp/rocketbuilder/parts/Tank.java:117-120 | changeMass(d) leaves the same mass as setMass(old mass + d). |
| PartsTank.NewTank | src/main/java/com/stevehead/ksp/rocketbuilder/parts/Tank.java:71-82 | Type AUTO succeeds exactly when the propellants classify, and fails with the classifier's reason otherwise; any other type is kept. The new tank is full. |
| PartsTank.PublicTankAsWritten | src/main/java/com/stevehead/ksp/rocketbuilder/parts/Tank.java:59-61 | As written, the public constructor rejects every call with an invalid combination, whatever propellants it is given. |
| PartsTank.PublicTank | src/main/java/com/stevehead/ksp/rocketbuilder/parts/Tank.java:59-61 | As intended: it succeeds exactly when the given propellants classify, and then stores them with their type. |
| PartsTank.NewProceduralBuilder | src/main/java/com/stevehead/ksp/rocketbuilder/parts/Tank.java:218-229 | Fails exactly when the propellants do not classify. Otherwise the dry mass is total/9 for LF+OX and total/5 for MP, and lies within `[0, total]` for a non-negative total. |
| PartsTank.Build | src/main/java/com/stevehead/ksp/rocketbuilder/parts/Tank.java:236-238 | The tank built carries the builder's dry mass, total mass, propellants and type, and is full. |
| RocketThruster.CalculateTWR | src/main/java/com/stevehead/ksp/rocketbuilder/rocket/BaseThruster.java:54-56 | Defined as thrust / (g * mass), with `Div` giving 0 at zero mass. Specified by CalculateTWRTimesWeight, CalculateTWRAntitone, CalculateTWRStrictlyAntitone and CalculateTWRScaled. |
| RocketThruster.CalculateTWRTimesWeight | src/main/java/com/stevehead/ksp/rocketbuilder/rocket/BaseThruster.java:54-56 | The ratio times the weight g*m of a non-zero mass gives back the thrust. |
| RocketThruster.CalculateTWRAntitone | src/main/java/com/stevehead/ksp/rocketbuilder/rocket/BaseThruster.java:54-56 | A larger positive mass never has a higher thrust-to-weight ratio, and the ratio is non-negative. |
| RocketThruster.CalculateTWRStrictlyAntitone | src/main/java/com/stevehead/ksp/rocketbuilder/rocket/BaseThruster.java:54-56 | With positive thrust, the ratio strictly falls as the mass grows. |
| RocketThruster.CalculateTWRScaled | src/main/java/com/stevehead/ksp/rocketbuilder/rocket/BaseThruster.java:54-56 | Scaling the mass by p and the thrust by q scales the ratio by q/p. |
| RocketThruster.NewThruster | src/main/java/com/stevehead/ksp/rocketbuilder/rocket/Stack.java:17-19 | The five-argument BaseThruster constructor stores what it is given. minTWR is taken at full mass and maxTWR at dry mass, and an empty propellant list becomes the default. |
| RocketThruster.NewThrusterTWROrder | src/main/java/com/stevehead/ksp/rocketbuilder/rocket/BaseThruster.java:93-100 | For 0 < dry <= mass and non-negative thrust, the stored minTWR never exceeds maxTWR. |
| RocketThruster.NewThrusterScaledTWR | src/main/java/com/stevehead/ksp/rocketbuilder/rocket/BaseThruster.java:54-56 | A thruster built with masses scaled by p and thrust by q has both ratios scaled by q/p. |
| RocketThruster.GetIsp | src/main/java/com/stevehead/ksp/rocketbuilder/rocket/BaseThruster.java:88-90 | Defined as the stored Isp times the current Isp scaler. Specified by DeltaVScales, ClusterIspFollowsScaler and TweakScaleAsWrittenRescalesIsp. |
| RocketThruster.DeltaV | src/main/java/com/stevehead/ksp/rocketbuilder/rocket/BaseThruster.java:83-85 | Defined as the scaled Isp times ln(mass / dry mass) times g. Specified by DeltaVScales, StackDeltaV and TweakScaleKeepsDeltaV. |
| RocketThruster.DeltaVScales | src/main/java/com/stevehead/ksp/rocketbuilder/rocket/BaseThruster.java:83-90 | Delta-V is linear in the scaler read at call time, so changing the scaler rescales every existing thruster. |
| RocketTank.NewFuelTank | src/main/java/com/stevehead/ksp/rocketbuilder/rocket/BaseTank.java:33-37 | Dry mass and mass are as given. The propellants are defaulted only when the list is empty, and the reported type is their classification. |
| RocketTank.NewFuelTankOfMass | src/main/java/com/stevehead/ksp/rocketbuilder/rocket/BaseTank.java:43-45 | The two-argument form has a dry mass equal to its mass. |
| RocketTank.DetermineDryMass | src/main/java/com/stevehead/ksp/rocketbuilder/rocket/ProceduralTank.java:45-54 | LF+OX gives total/9 and MP gives total/5; every other type, AUTO included, is rejected. For a non-negative total the dry mass lies in `[0, total]`. |
| RocketTank.ProceduralTankOfType | src/main/java/com/stevehead/ksp/rocketbuilder/rocket/ProceduralTank.java:19-21 | The private constructor succeeds exactly when its type has a dry-mass ratio, and then builds the tank of that dry mass. |
| RocketTank.ProceduralTankAsWritten | src/main/java/com/stevehead/ksp/rocketbuilder/rocket/ProceduralTank.java:27-36 | Defined as the procedural-tank constructor as written, which passes `Auto` as the tank type. Specified by ProceduralTankAsWrittenRejects: every such tank is refused. |
| RocketTank.ProceduralTankAsWrittenRejects | src/main/java/com/stevehead/ksp/rocketbuilder/rocket/ProceduralTank.java:27-36 | As written, every public ProceduralTank construction is rejected, since AUTO reaches the default branch. |
| RocketTank.ProceduralTank | src/main/java/com/stevehead/ksp/rocketbuilder/rocket/ProceduralTank.java:27-29 | As intended, it succeeds exactly when the defaulted propellants classify. The dry mass is then total/9 or total/5 by type, within `[0, total]`, and the reported type matches the propellants. |
| RocketTank.ProceduralTankOfMass | src/main/java/com/stevehead/ksp/rocketbuilder/rocket/ProceduralTank.java:34-36 | As intended, the total-mass-only constructor builds an LF+OX tank of dry mass total/9 with the default propellants. As written, line 35 passes AUTO and the construction is rejected (see "## Findings"). |
| RocketTank.ProceduralTankMonopropellant | src/main/java/com/stevehead/ksp/rocketbuilder/rocket/ProceduralTank.java:49-50 | A monopropellant procedural tank keeps one fifth of its mass as dry mass. |
| RocketEngine.IspScaler.constructor | src/main/java/com/stevehead/ksp/rocketbuilder/rocket/Engine.java:11 | The Isp scaler starts at 1. |
| RocketEngine.IspScaler.Set | src/main/java/com/stevehead/ksp/rocketbuilder/rocket/Engine.java:101-112 | After setIspScaler(x), getIspScaler returns x. |
| RocketEngine.NewEngineAsWritten | src/main/java/com/stevehead/ksp/rocketbuilder/rocket/Engine.java:37-54 | As written, the fields are stored as given and empty propellants default, but minTWR is computed from the dry mass and maxTWR from the mass. |
| RocketEngine.NewEngineAsWrittenSwapsTWR | src/main/java/com/stevehead/ksp/rocketbuilder/rocket/Engine.java:52-53 | As written, every fuelled engine with thrust reports a "minimum" ratio strictly above its "maximum". |
| RocketEngine.NewEngine | src/main/java/com/stevehead/ksp/rocketbuilder/rocket/Engine.java:37-54 | As intended, the engine's thruster part is exactly the one the BaseThruster constructor builds: initial ratio at full mass, defaulted propellants. |
| RocketEngine.NewEngineTWROrder | src/main/java/com/stevehead/ksp/rocketbuilder/rocket/Engine.java:52-53 | As intended, the initial ratio never exceeds the burnt-out one. |
| RocketEngine.NewEngineOfMass | src/main/java/com/stevehead/ksp/rocketbuilder/rocket/Engine.java:65-67 | The constructor without a dry mass has a dry mass equal to the mass, and so equal ratios. |
| RocketEngine.TweakScaleAsWritten | src/main/java/com/stevehead/ksp/rocketbuilder/rocket/Engine.java:194-205 | Defined as tweakScale as written: a new size gives an engine rescaled by the size ratio that takes the scaled Isp as its Isp; the same size gives the engine back. Specified by TweakScaleSameSize and TweakScaleAsWrittenRescalesIsp. |
| RocketEngine.TweakScale | src/main/java/com/stevehead/ksp/rocketbuilder/rocket/Engine.java:194-205 | Defined as tweakScale as intended: at a new size the masses and thrust are rescaled by powers of the size ratio and the stored Isp is kept; the same size gives the engine back. Specified by TweakScaleSameSize, TweakScaleNewSize, TweakScaleKeepsDeltaV, TweakScaleScalesMinTWR and TweakScaleScalesMaxTWR. |
| RocketEngine.TweakScaleSameSize | src/main/java/com/stevehead/ksp/rocketbuilder/rocket/Engine.java:196-204 | Resizing to the current size returns the engine unchanged, both as intended and as written under every Isp scaler. |
| RocketEngine.TweakScaleNewSize | src/main/java/com/stevehead/ksp/rocketbuilder/rocket/Engine.java:198-202 | Resizing to another size keeps the name, mod, stored Isp and propellants and takes the new size. Masses scale by ratio^2.5 and thrust by ratio^2.6, where ratio = scale/size. |
| RocketEngine.TweakScaleKeepsDeltaV | src/main/java/com/stevehead/ksp/rocketbuilder/rocket/Engine.java:198-202 | Both masses scale by the same factor, so a resized engine's delta-V equals the original's. |
| RocketEngine.TweakScaleScalesMinTWR | src/main/java/com/stevehead/ksp/rocketbuilder/rocket/Engine.java:198-202 | The resized engine's initial ratio is the original's times the thrust factor over the mass factor. |
| RocketEngine.TweakScaleScalesMaxTWR | src/main/java/com/stevehead/ksp/rocketbuilder/rocket/Engine.java:198-202 | The resized engine's burnt-out ratio is the original's times the thrust factor over the mass factor. |
| RocketEngine.TweakScaleAsWrittenRescalesIsp | src/main/java/com/stevehead/ksp/rocketbuilder/rocket/Engine.java:202 | As written, the resized engine's delta-V is the original's multiplied by the scaler once more. |
| Aggregates.Accumulate | src/main/java/com/stevehead/ksp/rocketbuilder/parts/EngineCluster.java:44-54 | The accumulator loop yields the sums of dry mass, total mass, thrust and thrust/Isp over the members. |
| Aggregates.SumOfRepeat | src/main/java/com/stevehead/ksp/rocketbuilder/rocket/Stage.java:26-28 | n identical members contribute n times one member to any summed quantity. |
| Aggregates.ScaledHarmonicIsp | src/main/java/com/stevehead/ksp/rocketbuilder/rocket/EngineCluster.java:16 | Scaling commutes with the harmonic mean: the mean of Isps all scaled by s is s times the mean, for every s, 0 included. |
| Aggregates.UniformHarmonicIsp | src/main/java/com/stevehead/ksp/rocketbuilder/rocket/EngineCluster.java:16 | Members that share one non-zero Isp have that Isp as their harmonic mean, when their thrust sum is non-zero. |
| RocketAssembly.StackAsWritten | src/main/java/com/stevehead/ksp/rocketbuilder/rocket/Stack.java:16-24 | As written, the stack is refused exactly when the types differ; masses add up and thrust is the engine's. Its getIsp under a scaler s is s times the engine's getIsp at construction. |
| RocketAssembly.StackAsWrittenScalesTwice | src/main/java/com/stevehead/ksp/rocketbuilder/rocket/Stack.java:19 | As written, at scaler 0.81 a stack on an Isp-370 engine reports 0.81 * 0.81 * 370, which is not the engine's Isp. |
| RocketAssembly.Stack | src/main/java/com/stevehead/ksp/rocketbuilder/rocket/Stack.java:16-24 | As intended, it is refused exactly when the tank's type is not the engine's. Masses add up; thrust and Isp are the engine's under every scaler; propellants are the union of both; minTWR is at full mass. |
| RocketAssembly.StackDeltaV | src/test/java/com/stevehead/ksp/rocketbuilder/rocket/StackTest.java:34-40 | A stack's delta-V is g times the engine's Isp times ln of the combined mass over the combined dry mass. |
| RocketAssembly.StackTypeCheck | src/main/java/com/stevehead/ksp/rocketbuilder/rocket/Stack.java:21-23 | A monopropellant tank under an LF+OX engine is refused, and the default procedural tank is accepted with mass 1000/9 + engine dry mass. |
| RocketAssembly.Duplicate | src/test/java/com/stevehead/ksp/rocketbuilder/rocket/StackTest.java:42-50 | duplicate(n) gives n entries, each the same stack. |
| RocketAssembly.StageAsWritten | src/main/java/com/stevehead/ksp/rocketbuilder/rocket/Stage.java:11-19 | Defined as the Stage constructor as written: payload plus the stacks' masses, their summed thrust, and that summed thrust again in the Isp slot. Specified by StageAsWrittenIspIsThrust. |
| RocketAssembly.Stage | src/main/java/com/stevehead/ksp/rocketbuilder/rocket/Stage.java:11-19 | Defined as the Stage constructor as intended: the same masses, thrust and propellants, with the thrust-weighted harmonic mean of the stacks' Isp in the Isp slot. Specified by StageOneStack and StageAddStack. |
| RocketAssembly.StageOf | src/main/java/com/stevehead/ksp/rocketbuilder/rocket/Stage.java:26-28 | Defined as the stage of n copies of one stack. Specified by StageOfCopies and StageOfCopiesIsp. |
| RocketAssembly.StageOneStack | src/main/java/com/stevehead/ksp/rocketbuilder/rocket/Stage.java:11-19 | As intended, a one-stack stage has the payload plus the stack's masses and the stack's thrust, Isp and propellants. |
| RocketAssembly.CombineOne | src/main/java/com/stevehead/ksp/rocketbuilder/rocket/Stage.java:17 | Combining one list keeps its members and is empty exactly when the list is. |
| RocketAssembly.StageAsWrittenIspIsThrust | src/main/java/com/stevehead/ksp/rocketbuilder/rocket/Stage.java:16 | As written, a one-stack stage stores its thrust as its Isp, which differs from the stack's Isp whenever the two differ. |
| RocketAssembly.StageAddStack | src/main/java/com/stevehead/ksp/rocketbuilder/rocket/Stage.java:13-15 | Adding a stack adds its dry mass, mass and thrust to the stage. |
| RocketAssembly.StageOfCopies | src/main/java/com/stevehead/ksp/rocketbuilder/rocket/Stage.java:26-28 | A stage of n copies of a stack has the payload plus n times the stack's masses, and n times its thrust. |
| RocketAssembly.StageOfCopiesIsp | src/main/java/com/stevehead/ksp/rocketbuilder/rocket/Stage.java:26-28 | n > 0 copies of a stack with thrust keep the stack's Isp. |
| RocketAssembly.NewCluster | src/main/java/com/stevehead/ksp/rocketbuilder/rocket/EngineCluster.java:14-28 | getEngines returns exactly the members the cluster was built from. |
| RocketAssembly.ClusterOfTwo | src/main/java/com/stevehead/ksp/rocketbuilder/rocket/EngineCluster.java:15-16 | A two-engine cluster sums the masses and thrust, and its Isp is Sigma thrust / Sigma (thrust / getIsp). |
| RocketAssembly.ClusterIspFollowsScaler | src/test/java/com/stevehead/ksp/rocketbuilder/rocket/EngineClusterTest.java:57-62 | A cluster built at scaler 1 reports, under any later scaler, the harmonic mean of its members' scaled Isps. |
| RocketAssembly.ClusterUniformIsp | src/main/java/com/stevehead/ksp/rocketbuilder/rocket/EngineCluster.java:16 | Members of one Isp make a cluster of that Isp. |
| RocketVehicle.NewRocket | src/main/java/com/stevehead/ksp/rocketbuilder/rocket/Rocket.java:13-18 | A rocket is built exactly when there is at least one stage, and keeps the stages; otherwise it is refused. |
| RocketVehicle.TotalDeltaV | src/main/java/com/stevehead/ksp/rocketbuilder/rocket/Rocket.java:36-42 | The accumulator loop returns the sum of the stages' own delta-V. |
| RocketVehicle.Reverse | src/main/java/com/stevehead/ksp/rocketbuilder/rocket/Rocket.java:82 | Collections.reverse keeps the length and puts element i at position n-1-i. |
| RocketVehicle.SumDeltaVReverse | src/main/java/com/stevehead/ksp/rocketbuilder/rocket/Rocket.java:81-85 | Reversing the stage list does not change the total delta-V. |
| RocketVehicle.Builder.constructor | src/main/java/com/stevehead/ksp/rocketbuilder/rocket/Rocket.java:52-62 | A new builder has its payload mass and no stages. |
| RocketVehicle.Builder.NextPayload | src/main/java/com/stevehead/ksp/rocketbuilder/rocket/Rocket.java:65-70 | The next stage carries the builder's payload first, then the stage added last. |
| RocketVehicle.Builder.AddStage | src/main/java/com/stevehead/ksp/rocketbuilder/rocket/Rocket.java:64-75 | A tank and engine of different types add nothing. Otherwise exactly one stage of n stacks on the previous payload is appended. |
| RocketVehicle.Builder.AddSingleStage | src/main/java/com/stevehead/ksp/rocketbuilder/rocket/Rocket.java:77-79 | addStage(tank, engine) is addStage(tank, engine, 1). |
| RocketVehicle.Builder.AddBuiltStage | src/main/java/com/stevehead/ksp/rocketbuilder/App.java:128-130 | A stage built elsewhere is appended as it is. |
| RocketVehicle.Builder.Build | src/main/java/com/stevehead/ksp/rocketbuilder/rocket/Rocket.java:81-85 | The list is reversed in place, and the rocket is built from the reversed list (refused when empty). |
| RocketVehicle.FinalStage | src/main/java/com/stevehead/ksp/rocketbuilder/rocket/Rocket.java:28-30 | Defined as the last stage in the list, the one that fires last. Specified by BuiltRocket. |
| RocketVehicle.TotalMass | src/main/java/com/stevehead/ksp/rocketbuilder/rocket/Rocket.java:32-34 | Defined as the mass of the first stage, which carries every stage above it. Specified by BuiltRocket, OneStageFraction and ThreeStageRocketDropsTop. |
| RocketVehicle.StartingTWR | src/main/java/com/stevehead/ksp/rocketbuilder/rocket/Rocket.java:44-46 | Defined as the first stage's TWR at full mass. Specified by BuiltRocket. |
| RocketVehicle.BuiltRocket | src/main/java/com/stevehead/ksp/rocketbuilder/rocket/Rocket.java:28-46 | In a built rocket, total mass and starting TWR are the last added stage's, the final stage is the first added, and the total delta-V is that of the stages added. |
| RocketVehicle.TwoStageExample | src/test/java/com/stevehead/ksp/rocketbuilder/rocket/RocketTest.java:98-123 | Two stages through the builder: the second added sits on the first and fires first. |
| PartsEngine.Engine.Full | src/main/java/com/stevehead/ksp/rocketbuilder/parts/Engine.java:100-110 | Every characteristic is as given and the engine starts full. The identifier (getName) and the display name (toString) are kept apart. |
| PartsEngine.Engine.OfMass | src/main/java/com/stevehead/ksp/rocketbuilder/parts/Engine.java:119-121 | An engine without a separate dry mass has dry = total = mass. |
| PartsEngine.Engine.Booster | src/main/java/com/stevehead/ksp/rocketbuilder/parts/Engine.java:131-133 | The tank-booster constructor takes its dry mass, total mass and propellants from the tank, and starts full. |
| PartsEngine.Engine.SetMass | src/main/java/com/stevehead/ksp/rocketbuilder/parts/Engine.java:227-231 | The mass is clamped to `[dryMass, totalMass]`. |
| PartsEngine.Engine.ChangeMass | src/main/java/com/stevehead/ksp/rocketbuilder/parts/Engine.java:218-221 | changeMass(d) is setMass(mass + d). |
| PartsEngine.Engine.GetIsp | src/main/java/com/stevehead/ksp/rocketbuilder/parts/Engine.java:214-216 | Defined as the stored Isp times the scaler passed in. Specified by SameAsCatalogueEngine. |
| PartsEngine.Engine.MinTWR | src/main/java/com/stevehead/ksp/rocketbuilder/parts/Engine.java:237-239 | Defined as the TWR at the current total mass. Specified by EngineTWROrder. |
| PartsEngine.Engine.MaxTWR | src/main/java/com/stevehead/ksp/rocketbuilder/parts/Engine.java:233-235 | Defined as the TWR at the dry mass. Specified by EngineTWROrder. |
| PartsEngine.Engine.DeltaV | src/main/java/com/stevehead/ksp/rocketbuilder/parts/Engine.java:206-208 | Defined as the scaled Isp times ln(total / dry mass) times g. SameAsCatalogueEngine states that it equals the Tweakscale engine's. |
| PartsEngine.EngineTWROrder | src/main/java/com/stevehead/ksp/rocketbuilder/parts/Engine.java:233-239 | minTWR (total mass) never exceeds maxTWR (dry mass). |
| PartsEngine.FilterByMod | src/main/java/com/stevehead/ksp/rocketbuilder/parts/Engine.java:176-186 | Keeps exactly the catalogue entries of the mod: every kept entry matches, and every matching entry is kept. |
| PartsEngine.FilterBySize | src/main/java/com/stevehead/ksp/rocketbuilder/parts/Engine.java:194-204 | Keeps exactly the catalogue entries of the diameter, in both directions. |
| PartsEngine.FilterByModAppend | src/main/java/com/stevehead/ksp/rocketbuilder/parts/Engine.java:179-183 | Filtering distributes over concatenation, so the entries stay in catalogue order. |
| PartsEngine.FilterBySizeAppend | src/main/java/com/stevehead/ksp/rocketbuilder/parts/Engine.java:197-201 | Filtering by size distributes over concatenation, keeping catalogue order. |
| PartsEngine.GetEnginesByMod | src/main/java/com/stevehead/ksp/rocketbuilder/parts/Engine.java:176-186 | The loop over the catalogue returns exactly the mod filter of it. |
| PartsEngine.GetEnginesBySize | src/main/java/com/stevehead/ksp/rocketbuilder/parts/Engine.java:194-204 | The loop over the catalogue returns exactly the size filter of it. |
| PartsEngine.KrBooster | src/main/java/com/stevehead/ksp/rocketbuilder/parts/Engine.java:27 | The LFB KR-1x2 entry: 2000 kN of thrust, Isp 380, 2.5 m, with its masses and propellants taken from its tank. |
| PartsEngine.LfbKr1x2AsWritten | src/main/java/com/stevehead/ksp/rocketbuilder/parts/Engine.java:27 | As written, the entry cannot be built, because its tank is refused. |
| PartsEngine.LfbKr1x2 | src/main/java/com/stevehead/ksp/rocketbuilder/parts/Engine.java:27 | With the intended Tank constructor, the entry is a 10 t dry, 42 t full LF+OX booster. |
| PartsCluster.ReportsScaled | src/main/java/com/stevehead/ksp/rocketbuilder/parts/EngineCluster.java:53-60 | The Isp a cluster stores is the scaler in force at construction times the harmonic mean of the stored Isps. |
| PartsCluster.EngineCluster.constructor | src/main/java/com/stevehead/ksp/rocketbuilder/parts/EngineCluster.java:40-61 | Dry mass, total mass and thrust are the sums of what the engines report; the Isp is their harmonic mean; the cluster starts full. |
| PartsCluster.EngineCluster.SetMass | src/main/java/com/stevehead/ksp/rocketbuilder/parts/EngineCluster.java:91-95 | The mass is clamped to `[dryMass, totalMass]`. |
| PartsCluster.EngineCluster.ChangeMass | src/main/java/com/stevehead/ksp/rocketbuilder/parts/EngineCluster.java:82-85 | changeMass(d) is setMass(mass + d). |
| PartsCluster.EngineCluster.GetIsp | src/main/java/com/stevehead/ksp/rocketbuilder/parts/EngineCluster.java:78-80 | Defined as the Isp stored at construction, so a later scaler has no effect. Specified by SameIspCluster; ReportsScaled states how the stored value follows the construction scaler. |
| PartsCluster.EngineCluster.MinTWR | src/main/java/com/stevehead/ksp/rocketbuilder/parts/EngineCluster.java:101-103 | Defined as the TWR at the current total mass. |
| PartsCluster.EngineCluster.MaxTWR | src/main/java/com/stevehead/ksp/rocketbuilder/parts/EngineCluster.java:97-99 | Defined as the TWR at the dry mass. |
| PartsCluster.EngineCluster.DeltaV | src/main/java/com/stevehead/ksp/rocketbuilder/parts/EngineCluster.java:70-72 | Defined as the stored Isp times ln(total / dry mass) times g. |
| PartsCluster.SameIspCluster | src/main/java/com/stevehead/ksp/rocketbuilder/parts/EngineCluster.java:78-80 | Two Isp-350 engines make a cluster whose stored getIsp is 350. |
| PartsStage.RocketStage.constructor | src/main/java/com/stevehead/ksp/rocketbuilder/parts/RocketStage.java:32-52 | Dry mass is payload + tank dry + Sigma engine dry, and total mass is payload + tank total + Sigma engine total. Thrust is Sigma thrust, the stored Isp is the harmonic mean, and the stage starts full. |
| PartsStage.RocketStage.SetMass | src/main/java/com/stevehead/ksp/rocketbuilder/parts/RocketStage.java:64-69 | The mass is clamped to `[dryMass, totalMass]`. |
| PartsStage.RocketStage.ChangeMass | src/main/java/com/stevehead/ksp/rocketbuilder/parts/RocketStage.java:71-75 | changeMass(d) is setMass(mass + d). |
| PartsStage.RocketStage.GetIspAsWritten | src/main/java/com/stevehead/ksp/rocketbuilder/parts/RocketStage.java:88-90 | Defined as getIsp as written: the stored Isp, already scaled at construction, times the scaler once more. Specified by StageIspExample and StageDeltaVAsWritten. |
| PartsStage.RocketStage.GetIsp | src/main/java/com/stevehead/ksp/rocketbuilder/parts/RocketStage.java:88-90 | Defined as the stored Isp, scaled once at construction. Specified by StageIspExample. |
| PartsStage.RocketStage.MinTWRAsWritten | src/main/java/com/stevehead/ksp/rocketbuilder/parts/RocketStage.java:93-95 | Defined as getMinTWR as written: g times thrust over total mass. Specified by StageTWRAsWritten. |
| PartsStage.RocketStage.MaxTWRAsWritten | src/main/java/com/stevehead/ksp/rocketbuilder/parts/RocketStage.java:98-100 | Defined as getMaxTWR as written: g times thrust over dry mass. Specified by StageTWRAsWritten. |
| PartsStage.RocketStage.MinTWR | src/main/java/com/stevehead/ksp/rocketbuilder/parts/RocketStage.java:93-95 | Defined as thrust over g times total mass. Specified by StageTWROrder and StageMatchesThruster. |
| PartsStage.RocketStage.MaxTWR | src/main/java/com/stevehead/ksp/rocketbuilder/parts/RocketStage.java:98-100 | Defined as thrust over g times dry mass. Specified by StageTWROrder and StageMatchesThruster. |
| PartsStage.RocketStage.DeltaVAsWritten | src/main/java/com/stevehead/ksp/rocketbuilder/parts/RocketStage.java:83-85 | Defined as getDeltaV as written: the twice-scaled Isp times ln(total / dry mass), without g. Specified by StageDeltaVAsWritten. |
| PartsStage.RocketStage.DeltaV | src/main/java/com/stevehead/ksp/rocketbuilder/parts/RocketStage.java:83-85 | Defined as the once-scaled Isp times ln(total / dry mass) times g. Specified by StageMatchesThruster. |
| PartsStage.GravityTwice | src/main/java/com/stevehead/ksp/rocketbuilder/parts/RocketStage.java:93-95 | g * thrust / m is g^2 times thrust / (g * m). |
| PartsStage.StageTWRAsWritten | src/main/java/com/stevehead/ksp/rocketbuilder/parts/RocketStage.java:93-100 | As written, both ratios of a stage are g^2 (about 96) times the intended ones. |
| PartsStage.StageTWROrder | src/main/java/com/stevehead/ksp/rocketbuilder/parts/RocketStage.java:97-100 | As intended, a stage's initial ratio never exceeds its burnt-out ratio. |
| PartsStage.StageDeltaVAsWritten | src/main/java/com/stevehead/ksp/rocketbuilder/parts/RocketStage.java:83-85 | As written, delta-V at scaler 1 is the intended rocket-equation value divided by g. |
| PartsStage.StageMatchesThruster | src/main/java/com/stevehead/ksp/rocketbuilder/parts/RocketStage.java:83-100 | As intended, a stage's ratios and delta-V are those of a rocket-package thruster with the same masses, thrust and stored Isp: thrust / (g * m) and g * Isp * ln(total / dry). |
| PartsStage.StageIspExample | src/main/java/com/stevehead/ksp/rocketbuilder/parts/RocketStage.java:88-90 | At scaler 0.81, for an Isp-370 engine, the as-written getIsp gives 0.81 * 0.81 * 370 and the intended one gives 0.81 * 370. |
| PartsRocket.AllPropellants | src/main/java/com/stevehead/ksp/rocketbuilder/parts/Rocket.java:33-39 | A propellant is in the rocket's list exactly when some stage burns it. |
| PartsRocket.FullStagesMass | src/main/java/com/stevehead/ksp/rocketbuilder/parts/Rocket.java:70-76 | Stages that are all full weigh their summed total mass. |
| PartsRocket.NextStageAsWritten | src/main/java/com/stevehead/ksp/rocketbuilder/parts/Rocket.java:42-45 | Defined as stage() as written: the counter steps up and is capped at the number of stages. Specified by NextStageAsWrittenLeavesRange. |
| PartsRocket.NextStageAsWrittenLeavesRange | src/main/java/com/stevehead/ksp/rocketbuilder/parts/Rocket.java:42-45 | As written, staging from the last stage sets the counter to the number of stages, one past the last index. |
| PartsRocket.NextStage | src/main/java/com/stevehead/ksp/rocketbuilder/parts/Rocket.java:42-45 | As intended, the counter advances by one until the last stage and then stays there, always naming a stage. |
| PartsRocket.Rocket.Init | src/main/java/com/stevehead/ksp/rocketbuilder/parts/Rocket.java:20-40 | The constructor loop gives dry and total mass as the sums over the stages. The propellants are the stage lists appended in order, and staging starts at stage 0. |
| PartsRocket.Rocket.StageAsWritten | src/main/java/com/stevehead/ksp/rocketbuilder/parts/Rocket.java:42-45 | stage() as written: the counter is incremented and capped at the stage count. |
| PartsRocket.Rocket.Stage | src/main/java/com/stevehead/ksp/rocketbuilder/parts/Rocket.java:42-45 | stage() as intended keeps the counter on a stage. |
| PartsRocket.Rocket.GetStage | src/main/java/com/stevehead/ksp/rocketbuilder/parts/Rocket.java:51-53 | The current stage is one of the rocket's stages. |
| PartsRocket.Rocket.GetIsp | src/main/java/com/stevehead/ksp/rocketbuilder/parts/Rocket.java:98-100 | Defined as the Isp of the stage that is firing. |
| PartsRocket.Rocket.MinTWR | src/main/java/com/stevehead/ksp/rocketbuilder/parts/Rocket.java:103-105 | Defined as the full-mass TWR of the stage that is firing. |
| PartsRocket.Rocket.MaxTWR | src/main/java/com/stevehead/ksp/rocketbuilder/parts/Rocket.java:108-110 | Defined as the dry-mass TWR of the stage that is firing. |
| PartsRocket.Rocket.Thrust | src/main/java/com/stevehead/ksp/rocketbuilder/parts/Rocket.java:118-120 | Defined as the thrust of the stage that is firing. |
| PartsRocket.Rocket.GetMass | src/main/java/com/stevehead/ksp/rocketbuilder/parts/Rocket.java:70-76 | getMass is the sum of the stages' current masses. |
| PartsRocket.Rocket.GetDeltaV | src/main/java/com/stevehead/ksp/rocketbuilder/parts/Rocket.java:89-95 | getDeltaV is the sum of the stages' delta-V. |
| PartsRocket.Rocket.SetMass | src/main/java/com/stevehead/ksp/rocketbuilder/parts/Rocket.java:79-81 | Only the current stage's mass changes, clamped to its range. |
| PartsRocket.Rocket.ChangeMass | src/main/java/com/stevehead/ksp/rocketbuilder/parts/Rocket.java:84-86 | Only the current stage's mass changes, by setMass(mass + d). |
| PartsRocket.NewRocket | src/main/java/com/stevehead/ksp/rocketbuilder/parts/Rocket.java:25-27 | A rocket is built exactly when there is at least one stage, with the sums and propellants above. |
| PartsRocket.Builder.constructor | src/main/java/com/stevehead/ksp/rocketbuilder/parts/Rocket.java:126-136 | A new builder has its payload and no stages. |
| PartsRocket.Builder.NextPayload | src/main/java/com/stevehead/ksp/rocketbuilder/parts/Rocket.java:149-154 | The next stage carries the builder's payload first, then the stage added last. |
| PartsRocket.Builder.AddStage | src/main/java/com/stevehead/ksp/rocketbuilder/parts/Rocket.java:138-141 | addStage(stage) appends exactly that stage. |
| PartsRocket.Builder.AddStageOn | src/main/java/com/stevehead/ksp/rocketbuilder/parts/Rocket.java:143-146 | A new stage is built on the given payload and appended. |
| PartsRocket.Builder.AddStageOnTop | src/main/java/com/stevehead/ksp/rocketbuilder/parts/Rocket.java:148-156 | The new stage's payload is what NextPayload named before the call. |
| PartsRocket.Builder.Build | src/main/java/com/stevehead/ksp/rocketbuilder/parts/Rocket.java:158-162 | The list is reversed in place, and a rocket is built exactly when it is non-empty, on the reversed list. The built rocket starts at stage 0, with the summed dry and total masses and the stages' propellants appended, as `new Rocket(stages)` computes them. |
| PartsRocket.TwoStageExample | src/main/java/com/stevehead/ksp/rocketbuilder/parts/Rocket.java:148-162 | Two stages through the builder: the second added carries the first, and it is the stage the rocket fires first. |
| TweakscaleEngine.TweakscaleEngine.constructor | oldfiles/parts/TweakscaleEngine.java:50-60 | Every characteristic is as given, and the engine starts full. |
| TweakscaleEngine.TweakscaleEngine.SetMass | oldfiles/parts/TweakscaleEngine.java:104-108 | The mass is clamped to `[dryMass, totalMass]`. |
| TweakscaleEngine.TweakscaleEngine.ChangeMass | oldfiles/parts/TweakscaleEngine.java:95-98 | changeMass(d) is setMass(mass + d). |
| TweakscaleEngine.TweakscaleEngine.GetIsp | oldfiles/parts/TweakscaleEngine.java:91-93 | Defined as the stored Isp times the scaler passed in. Specified by SameAsCatalogueEngine. |
| TweakscaleEngine.TweakscaleEngine.MinTWR | oldfiles/parts/TweakscaleEngine.java:114-116 | Defined as the TWR at the current total mass. Specified by TweakscaleTWROrder and SameAsCatalogueEngine. |
| TweakscaleEngine.TweakscaleEngine.MaxTWR | oldfiles/parts/TweakscaleEngine.java:110-112 | Defined as the TWR at the dry mass. Specified by TweakscaleTWROrder and SameAsCatalogueEngine. |
| TweakscaleEngine.TweakscaleEngine.DeltaV | oldfiles/parts/TweakscaleEngine.java:83-85 | Defined as the scaled Isp times ln(total / dry mass) times g. Specified by TweakscaleDeltaVScales. |
| TweakscaleEngine.TweakscaleTWROrder | oldfiles/parts/TweakscaleEngine.java:110-116 | minTWR (total mass) never exceeds maxTWR (dry mass). |
| TweakscaleEngine.SameAsCatalogueEngine | oldfiles/parts/TweakscaleEngine.java:83-116 | With the same characteristics, a TweakscaleEngine and a parts Engine report the same Isp, ratios and delta-V. |
| TweakscaleEngine.TweakscaleDeltaVScales | oldfiles/parts/TweakscaleEngine.java:83-93 | Multiplying the scaler by k multiplies both the Isp and the delta-V by k. |
| AppBuilder.CandidateStage | src/main/java/com/stevehead/ksp/rocketbuilder/App.java:122-124 | The tank or stack is refused exactly when the engine cannot take a procedural tank. Otherwise the stage weighs the payload plus n stacks, thrusts n engines, and has minTWR at that mass. |
| AppBuilder.MaxPayloadMass | src/main/java/com/stevehead/ksp/rocketbuilder/App.java:73-74 | The ceiling is thrust/g rounded up to a whole multiple of the default increment 50. |
| AppBuilder.CandidateTankLimit | src/main/java/com/stevehead/ksp/rocketbuilder/App.java:126 | Past TankLimit no candidate stage reaches the floor, so every tank sweep reaches its break. |
| AppBuilder.CandidateHeavier | src/main/java/com/stevehead/ksp/rocketbuilder/App.java:124 | A candidate stage weighs at least its payload, and strictly more once it has a stack and a tank with mass. |
| AppBuilder.CandidateNeedsStack | src/main/java/com/stevehead/ksp/rocketbuilder/App.java:124-126 | A stage of zero stacks has ratio 0, so every stage that passes a floor has a stack. |
| AppBuilder.PayloadFraction | src/main/java/com/stevehead/ksp/rocketbuilder/App.java:135 | Defined as 100 times the payload mass over the rocket's total mass. Specified by FractionBelow100 and OneStageFraction. |
| AppBuilder.SizeRatio | src/main/java/com/stevehead/ksp/rocketbuilder/App.java:177 | Defined as the second-stage tank mass over the per-engine share of the first-stage tank mass. TwoStageTanks requires every two-stage design to have this ratio strictly between 0.3 and 1.0, and TryTwoStage offers a design only then. |
| AppBuilder.FractionBelow100 | src/main/java/com/stevehead/ksp/rocketbuilder/App.java:135 | A positive payload under a heavier rocket has a payload fraction strictly between 0 and 100 percent. |
| AppBuilder.OneStageFraction | src/main/java/com/stevehead/ksp/rocketbuilder/App.java:134-135 | Every printed one-stage candidate carries less than 100 percent payload. |
| AppBuilder.ImprovingSorted | src/main/java/com/stevehead/ksp/rocketbuilder/App.java:136-142 | Printed candidates improve strictly, so the last printed has the best payload fraction of all. |
| AppBuilder.RecordKept | src/main/java/com/stevehead/ksp/rocketbuilder/App.java:136-142 | Recording a strictly better candidate keeps the best and the best fraction as the log determines them. |
| AppBuilder.ThreeStageRocketAsWritten | src/main/java/com/stevehead/ksp/rocketbuilder/App.java:242-244 | Defined as the three-stage build as written, which adds only stages 2 and 1. Specified by ThreeStageRocketDropsTop. |
| AppBuilder.ThreeStageRocket | src/main/java/com/stevehead/ksp/rocketbuilder/App.java:242-244 | Defined as the three-stage build as intended, with all three stages. Specified by ThreeStageRocketDropsTop. |
| AppBuilder.ThreeStageRocketDropsTop | src/main/java/com/stevehead/ksp/rocketbuilder/App.java:241-244 | As written, the three-stage rocket holds only stages 1 and 2, so its delta-V lacks the top stage's. As intended, it holds all three, first stage first, with the same total mass. |
| AppBuilder.Builder.Init | src/main/java/com/stevehead/ksp/rocketbuilder/App.java:71-75 | The constructor stores the target and engines; the ceiling is rounded with the default increment; the defaults are 50, the current scaler and one stack. |
| AppBuilder.Builder.SetMassIncrements | src/main/java/com/stevehead/ksp/rocketbuilder/App.java:77-80 | Sets the increment and nothing else; the ceiling stays as it was rounded. |
| AppBuilder.Builder.SetIspScaler | src/main/java/com/stevehead/ksp/rocketbuilder/App.java:82-85 | Sets the scaler the search runs under, and nothing else. |
| AppBuilder.Builder.SetFirstStageStackSize | src/main/java/com/stevehead/ksp/rocketbuilder/App.java:87-90 | Sets the first stage's stack count, and nothing else. |
| AppBuilder.Builder.Run | src/main/java/com/stevehead/ksp/rocketbuilder/App.java:92-111 | A search that finishes restores the original scaler; one ended by a refused tank leaves the builder's scaler. Every printed entry is a design for the engine count under the builder's scaler, and the result is the last one printed. No design has a higher payload than a returned one, and none at its payload has a better fraction. No result means no design exists at all. |
| AppBuilder.NewBuilder | src/main/java/com/stevehead/ksp/rocketbuilder/App.java:65-70 | No engine, or more than three, is refused with its reason; otherwise a builder exists with the defaults above. |
| AppBuilder.SearchPayloads | src/main/java/com/stevehead/ksp/rocketbuilder/App.java:117-151 | The payload sweep fails only through a refused engine. With one engine it fails exactly when that engine cannot take a tank and the ceiling is positive. It returns the last candidate printed at the first payload that has one. No design carries a higher payload (`NoneAbove`), and none at that payload has a better fraction (`BestAt`). It returns none only when no design exists at any payload. |
| AppBuilder.SweepTanks | src/main/java/com/stevehead/ksp/rocketbuilder/App.java:97-107 | Picks the sweep for the number of engines. Every entry it prints is a design of that count, and no design at this payload has a better fraction than the best it reports. |
| AppBuilder.SweepOneStage | src/main/java/com/stevehead/ksp/rocketbuilder/App.java:120-146 | The one-stage tank sweep fails exactly when the engine is refused. Every candidate it prints is a one-stage design, at this payload and in strictly improving order. Its best fraction is at least that of every one-stage design at this payload, over all tank masses and not only those visited. |
| AppBuilder.TryOneStage | src/main/java/com/stevehead/ksp/rocketbuilder/App.java:122-143 | One tank mass: the stage is refused exactly when the engine is. The new progress is the old one with the candidate built at this tank offered (`Offer`, `OneStageAt`): printed exactly when it exists and beats the best fraction so far. The sweep goes on exactly when the stage reaches 1.2, with a tank within TankLimit. Going on, no design with a tank up to this one is better; stopping, no design at this payload is. |
| AppBuilder.SweepTwoStage | src/main/java/com/stevehead/ksp/rocketbuilder/App.java:161-200 | The upper tank sweep fails only through a refused engine, and prints only two-stage designs, in improving order. Its best fraction is at least that of every two-stage design at this payload. |
| AppBuilder.SweepTwoStageFirst | src/main/java/com/stevehead/ksp/rocketbuilder/App.java:169-198 | The first-stage sweep starts one increment above the upper tank and fails exactly when the first engine is refused. It prints only two-stage designs and extends the progress it is given: that log is a prefix, and the best fraction does not drop. Afterwards no design whose upper tank is at most this one is better. |
| AppBuilder.TryTwoStage | src/main/java/com/stevehead/ksp/rocketbuilder/App.java:171-195 | One first tank mass: the new progress is the old one with the candidate built at these tanks offered (`TwoStageAt`). The ratio window is a filter, not a break. The sweep goes on exactly when the first stage reaches 1.2. Going on, no design on this upper tank with a first tank up to this one is better; stopping, no design on this upper tank is. |
| AppBuilder.SweepThreeStage | src/main/java/com/stevehead/ksp/rocketbuilder/App.java:215-261 | The top tank sweep fails only through a refused engine, and prints only three-stage designs, in improving order. Its best fraction is at least that of every three-stage design at this payload. |
| AppBuilder.SweepThreeStageMiddle | src/main/java/com/stevehead/ksp/rocketbuilder/App.java:224-259 | The middle sweep breaks below 2.0 or below the top stage's ratio, and prints only three-stage designs. It extends the progress it is given, and afterwards no design whose top tank is at most this one is better. |
| AppBuilder.SweepThreeStageFirst | src/main/java/com/stevehead/ksp/rocketbuilder/App.java:233-257 | The first-stage sweep fails exactly when the first engine is refused, and prints only three-stage designs. It extends the progress it is given, and afterwards no design on this top tank whose middle tank is at most this one is better. |
| AppBuilder.TryThreeStage | src/main/java/com/stevehead/ksp/rocketbuilder/App.java:235-255 | One first tank mass: the new progress is the old one with the three-stage candidate built at these tanks offered (`ThreeStageAt`). The sweep goes on exactly when the first stage reaches 1.2. Going on, no design on these upper tanks with a first tank up to this one is better; stopping, no design on these upper tanks is. |
| AppBuilder.CandidateAntitone | src/main/java/com/stevehead/ksp/rocketbuilder/App.java:124-126 | A heavier tank never raises a candidate stage's ratio, as the stage gets heavier at the same thrust. So every tank past a break fails the floor too. |
| AppBuilder.StacksTWRAntitone | src/main/java/com/stevehead/ksp/rocketbuilder/App.java:124 | n stacks over a heavier tank and the same payload have no higher ratio. |
| AppBuilder.OfferExtends | src/main/java/com/stevehead/ksp/rocketbuilder/App.java:136-142 | Offering a candidate keeps every line printed before and never lowers the best fraction. |
| AppBuilder.OneStageDesignIsAt | src/main/java/com/stevehead/ksp/rocketbuilder/App.java:122-142 | A one-stage design is exactly the candidate the loop body builds at its payload and tank mass. |
| AppBuilder.OneStageStart | src/main/java/com/stevehead/ksp/rocketbuilder/App.java:119-120 | No one-stage design has a tank below the first increment, so the sweep starts with nothing missed at fraction 0. |
| AppBuilder.OneStageOffered | src/main/java/com/stevehead/ksp/rocketbuilder/App.java:134-145 | After the body at one tank mass, no design with a tank up to that mass beats the best fraction. |
| AppBuilder.OneStageStops | src/main/java/com/stevehead/ksp/rocketbuilder/App.java:126 | The break at 1.2 loses no design: every design at the payload has a smaller tank. |
| AppBuilder.TwoStageDesignIsAt | src/main/java/com/stevehead/ksp/rocketbuilder/App.java:163-195 | A two-stage design is exactly the candidate the loop bodies build at its payload and tank masses. |
| AppBuilder.TwoStageStart | src/main/java/com/stevehead/ksp/rocketbuilder/App.java:160-161 | No two-stage design has an upper tank below the first increment. |
| AppBuilder.TwoStageFirstStart | src/main/java/com/stevehead/ksp/rocketbuilder/App.java:169 | No two-stage design has a first tank below one increment above its upper tank. |
| AppBuilder.TwoStageFirstOffered | src/main/java/com/stevehead/ksp/rocketbuilder/App.java:177-197 | After the body at one first tank mass, no design on this upper tank with a first tank up to that mass beats the best fraction. |
| AppBuilder.TwoStageFirstStops | src/main/java/com/stevehead/ksp/rocketbuilder/App.java:175 | The break at 1.2 loses no design: every design on this upper tank has a smaller first tank. |
| AppBuilder.TwoStageNext | src/main/java/com/stevehead/ksp/rocketbuilder/App.java:169-199 | Covering every design on one upper tank moves the bound on the upper sweep one increment on. |
| AppBuilder.TwoStageStops | src/main/java/com/stevehead/ksp/rocketbuilder/App.java:167 | The break at 2.0 loses no design: every design at the payload has a smaller upper tank. |
| AppBuilder.ThreeStageDesignIsAt | src/main/java/com/stevehead/ksp/rocketbuilder/App.java:218-255 | A three-stage design is exactly the candidate the loop bodies build at its payload and tank masses. |
| AppBuilder.ThreeStageStart | src/main/java/com/stevehead/ksp/rocketbuilder/App.java:214-215 | No three-stage design has a top tank below the first increment. |
| AppBuilder.ThreeStageMiddleStart | src/main/java/com/stevehead/ksp/rocketbuilder/App.java:224 | No three-stage design has a middle tank below one increment above its top tank. |
| AppBuilder.ThreeStageFirstStart | src/main/java/com/stevehead/ksp/rocketbuilder/App.java:233 | No three-stage design has a first tank below one increment above its middle tank. |
| AppBuilder.ThreeStageFirstOffered | src/main/java/com/stevehead/ksp/rocketbuilder/App.java:241-256 | After the body at one first tank mass, no design on these upper tanks with a first tank up to that mass beats the best fraction. |
| AppBuilder.ThreeStageFirstStops | src/main/java/com/stevehead/ksp/rocketbuilder/App.java:239 | The break at 1.2 loses no design: every design on these upper tanks has a smaller first tank. |
| AppBuilder.ThreeStageMiddleNext | src/main/java/com/stevehead/ksp/rocketbuilder/App.java:233-258 | Covering every design on one middle tank moves the bound on the middle sweep one increment on. |
| AppBuilder.ThreeStageMiddleStops | src/main/java/com/stevehead/ksp/rocketbuilder/App.java:230-231 | Either middle break loses no design: every design on this top tank has a smaller middle tank. |
| AppBuilder.ThreeStageNext | src/main/java/com/stevehead/ksp/rocketbuilder/App.java:224-260 | Covering every design on one top tank moves the bound on the top sweep one increment on. |
| AppBuilder.ThreeStageStops | src/main/java/com/stevehead/ksp/rocketbuilder/App.java:222 | The break at 1.0 loses no design: every design at the payload has a smaller top tank. |
| AppBuilder.DesignedScored | src/main/java/com/stevehead/ksp/rocketbuilder/App.java:134-136 | Every design carries a payload on the payload sweep and a positive fraction. |
| AppBuilder.PayloadStart | src/main/java/com/stevehead/ksp/rocketbuilder/App.java:117 | No design carries more than the payload ceiling. |
| AppBuilder.PayloadNext | src/main/java/com/stevehead/ksp/rocketbuilder/App.java:147-148 | A payload with no printed candidate has no design, since every design has a positive fraction. With nothing above it, nothing lies above the next payload down. |
| AppBuilder.PayloadEnd | src/main/java/com/stevehead/ksp/rocketbuilder/App.java:118 | Once the payload sweep passes zero, no design is left: every design carries a positive payload. |
| AppBuilder.Launch | src/main/java/com/stevehead/ksp/rocketbuilder/App.java:180-185 | Adding the built stages to a Rocket.Builder and building it gives the reversed list, and its total delta-V. |

## Left out

- Physics.Div: Java division by zero yields an infinity or NaN. The model has no such values and yields 0 there, so no contract speaks about a zero mass.
- IEEE-754 doubles are exact reals here: no rounding, and no equality tests that fail by an ulp. `Math.log` and `Math.pow` are uninterpreted, so no numeric values from the tests are proved.
- Console output and the `App.main` driver loop are output only. They also rely on a `rocket.Engine.getEngines(double)` that is not part of this model. The printed lines are returned as `log`, and the `logOutput` switch is not modelled.
- Exception messages are reduced to a `Failure` reason.
- AppBuilder.SearchPayloads: requires a positive increment, because without one the Java loops need not end and the model has no non-terminating runs. It also requires engines with non-negative mass and thrust, as every catalogue engine has. The tank bound (`TankLimit`, `CandidateTankLimit`) and the proofs that a loop break loses no design (`CandidateAntitone` and the `*Stops` lemmas) rely on it.
- AppBuilder.Builder.Run: requires the same positive increment, for termination, and the same non-negative engine mass and thrust, for the tank bound and the break proofs (see SearchPayloads above).
- AppBuilder.SearchPayloads: when several designs share the best fraction, the one returned is the first in sweep order. The contract states only that none is better, not which tie is kept.
- AppBuilder.TryOneStage: the second lift-off test of `runOneStage` (App.java line 132) is not repeated. The rocket's starting ratio is the first stage's ratio, which the break just before it has already checked.
- RocketAssembly.Stage: the corrected Stage averages the stacks' stored Isp (`Readings`), while NewCluster averages `getIsp()` at the scaler (`ReadingsAt`). Stage.java calls no Isp helper at all, so the intended reading is a choice. The stored one keeps the stage's `getIsp()` at scaler times the mean, scaled once; reading `getIsp()` would scale twice, the fault of Stack.java line 19. `RocketAssembly.ReadingsAtScaled` states how the two readings relate.
- AppBuilder.Builder.SetFirstStageStackSize: the Java `int` (App.java line 87) is a `nat`, so negative stack counts are not modelled.
- RocketVehicle.Builder.AddStage: the Java `int stackNumber` (rocket/Rocket.java line 64) is a `nat`, so negative stack counts are not modelled. In the source, such a count goes on to `Stack.duplicate`, whose body is not part of this model: `RocketAssembly.Duplicate` states only what StackTest expects of it at a positive count.
- RocketAssembly.StageOf: the Java `int stackNumber` (rocket/Stage.java line 26) is a `nat`, for the same reason.
- The `Engine.PreDefined` catalogue is data; two entries are constants (`LV_909_LIQUID_FUEL_ENGINE`, `LV_T30_LIQUID_FUEL_ENGINE`). A PreDefined entry is the engine value it wraps, so its delegating getters are those of that value.
- Of the `parts.Engine` enum, only LFB_KR_1X2 is built. `Engine.values()` is a parameter of the filters, and the `(Engine[])` cast of `getEngines` is not modelled.
- Some helpers that `rocket` calls are not part of this model. They are specified by what the code and tests require of them:
  - the five-argument BaseThruster constructor (`NewThruster`);
  - `calculateDryMass`, `calculateMass`, `calculateThrust` and `calculateIsp` (`Aggregates.SumOf`, `HarmonicIsp`);
  - `combinePropellants` (`Combine`);
  - `FuelTank.getType` (`TypeOf`);
  - `Stack.duplicate` (`Duplicate`);
  - `Rocket.Builder.addStage(Stage)`, which App uses (`AddBuiltStage`).
- The parts RocketStage declares no propellant list of its own; the model takes its tank's. Its engines are given by what they report (masses, thrust, `getIsp()`).
- Object identity becomes value equality. For example, `tweakScale` "returns this" is `TweakScale(e, e.size) == e`.
- Interfaces (Thrustable, Expendable, Massive, Tweakscalable and others), propellant densities and the Payload classes are folded into constants and plain masses.

## Findings

| source | as written | input that shows it | evidently intended | confidence | as-written member | corrected member |
|---|---|---|---|---|---|---|
| src/main/java/com/stevehead/ksp/rocketbuilder/rocket/Stage.java:16 | the summed thrust is passed in the Isp slot | one stack of thrust 215000 and Isp 370: the stage reports Isp 215000 | the thrust-weighted harmonic mean of the stacks' Isp, which the stage test expects | high, not executed | RocketAssembly.StageAsWrittenIspIsThrust | RocketAssembly.StageOneStack |
| src/main/java/com/stevehead/ksp/rocketbuilder/rocket/Engine.java:52-53 | minTWR from the dry mass, maxTWR from the mass | dry 1000, mass 2000, thrust 50000: minTWR about 5.10 > maxTWR about 2.55 | the initial ratio at full mass, as `BaseThruster` names them | high, not executed | RocketEngine.NewEngineAsWrittenSwapsTWR | RocketEngine.NewEngineTWROrder |
| src/main/java/com/stevehead/ksp/rocketbuilder/rocket/Engine.java:202 | `engine.getIsp()`, already scaled, is stored as the new engine's Isp | scaler 0.81, Isp 370, resize to a new size: getIsp gives 0.81 * 0.81 * 370 | the stored Isp is kept, so that getIsp scales it once | high, not executed | RocketEngine.TweakScaleAsWrittenRescalesIsp | RocketEngine.TweakScaleNewSize |
| src/main/java/com/stevehead/ksp/rocketbuilder/rocket/Stack.java:19 | `engine.getIsp()`, already scaled, is stored as the stack's Isp | scaler 0.81, engine Isp 370: the stack reports 0.81 * 0.81 * 370 | the stack reports the engine's Isp under every scaler | high, not executed | RocketAssembly.StackAsWrittenScalesTwice | RocketAssembly.Stack |
| src/main/java/com/stevehead/ksp/rocketbuilder/rocket/ProceduralTank.java:27-36 | Type.AUTO is handed straight to `determineDryMass`, which rejects it | `new ProceduralTank(1000)`: IllegalArgumentException | AUTO resolved by classifying the propellants first | high, not executed | RocketTank.ProceduralTankAsWrittenRejects | RocketTank.ProceduralTank |
| src/main/java/com/stevehead/ksp/rocketbuilder/parts/Tank.java:59-61 | the public constructor drops its propellants before classification | `new Tank(10000, 42000, LIQUID_FUEL, OXIDIZER)` (the LFB KR-1x2 entry): IllegalArgumentException | the propellants are passed on | high, not executed | PartsEngine.LfbKr1x2AsWritten | PartsEngine.LfbKr1x2 |
| src/main/java/com/stevehead/ksp/rocketbuilder/parts/RocketStage.java:93-100 | `g * thrust / mass` | thrust 215000, mass 1000: about 2109 instead of about 21.9 | `thrust / (g * mass)`, as every other part computes it | high, not executed | PartsStage.StageTWRAsWritten | PartsStage.StageMatchesThruster |
| src/main/java/com/stevehead/ksp/rocketbuilder/parts/RocketStage.java:83-85 | delta-V without the factor g | any stage with a mass ratio above 1: g times too small | `Isp * ln(total / dry) * g` | high, not executed | PartsStage.StageDeltaVAsWritten | PartsStage.StageMatchesThruster |
| src/main/java/com/stevehead/ksp/rocketbuilder/parts/RocketStage.java:88-90 | the stored mean, already built from scaled Isps, is scaled again | one Isp-370 engine at scaler 0.81: 0.81 * 0.81 * 370 | the stored mean, as the parts EngineCluster returns it | medium, not executed | PartsStage.StageIspExample | PartsStage.StageIspExample |
| src/main/java/com/stevehead/ksp/rocketbuilder/parts/Rocket.java:42-45 | the counter is capped at `stages.length` | two stages, `stage()` twice: `currentStage` is 2 and `getStage()` indexes out of range | capped at the last index | high, not executed | PartsRocket.NextStageAsWrittenLeavesRange | PartsRocket.NextStage |
| src/main/java/com/stevehead/ksp/rocketbuilder/App.java:241-244 | the three-stage rocket is built from stage2 and stage1 only | any three-stage candidate: the top stage's delta-V is never counted toward the target | all three stages added, top stage first | medium, not executed | AppBuilder.ThreeStageRocketDropsTop | AppBuilder.TryThreeStage |
