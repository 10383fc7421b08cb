# Disperse: a verified model of the dispersion effect's core

The Disperse effect splits a stereo input into parallel **branches**. Each branch is a chain of delay **stages** in series.

- **Arrangement.** The per-branch stage counts.
- **Delay grid.** `delays[p][s]` is stage `s` of branch `p`; the grid is rebuilt whenever the arrangement changes.
- **Global knobs.** Every stage gets its feedback, time and pan from the knobs (`feedback`, `timeMs`, `spread`, `dispersion`). Each value adds a random draw, scaled by a spread constant and a knob. The draw comes from the seed and the stage's coordinates.
- **Per sample.** The input is threaded through every branch. The branch outputs are summed into the wet signal. That sum is cross-faded with the dry input by `mix`.

## Modules

- `signal.dfy`, module `Signal`: stereo samples, channel-wise sums and the cross-fade `Mix`.
- `randomizer.dfy`, module `Randomizer`: the deterministic draw and the scaled offset.
  - The coordinate hash `simpleParamHash` is the class's own member, declared in `Disperse.hpp`, which is not part of this model. The seeded uniform draw is library code (`std::mt19937` and `std::uniform_real_distribution`). Both are parameters (a `Randomizer` value), and the draw's type promises a value in [-1, 1].
  - The generator seed is `seed * hash` reduced modulo 2^32, which is what `std::mt19937` keeps of its seed. This assumes the product wraps around on overflow (see "## Left out").
- `stage.dfy`, module `DelayStage`: a delay stage as a record.
  - The record holds the parameters last set on the stage and a log of the samples it has processed, each with the settings in force.
  - Its output is an abstract `Response` of that log. `LastInput` is the identity stage.
- `topology.dfy`, module `Topology`: grid shape, `StageCount` and the branch-major, stage-minor enumeration of positions.
- `routing.dfy`, module `Routing`: what one sample does to the grid.
  - `RunChain` handles one branch and `Wet` handles all branches.
  - Beside them are lemmas about branch independence and identity stages.
- `disperse.dfy`, module `DisperseEffect`: the class `Disperse`.
  - Its fields, its object invariant `Valid()` and every operation of the effect.
  - `Valid()` says the grid mirrors the arrangement and every stage carries the settings its coordinates prescribe.
- `scenarios.dfy`, module `Scenarios`: host-level sequences of calls on one effect object.

## Model

| member | source | states |
|---|---|---|
| `Signal.Mix` | Source/Effects/Disperse.cpp:179-180 | the output is `wet*mix + in*(1-mix)` per channel; mix 0 gives exactly the dry input, mix 1 exactly the wet sum, and a mix in [0, 1] lands between them on each channel |
| `Signal.CrossFadeBetween` | Source/Effects/Disperse.cpp:179-180 | one channel of the cross-fade with mix in [0, 1] lies between its wet and dry values |
| `Randomizer.Randomizer.GeneratorSeed` | Source/Effects/Disperse.cpp:26 | the generator is seeded with a 32-bit value derived from seed times coordinate hash; seed 0 seeds every draw with 0 |
| `Randomizer.Randomizer.Draw` | Source/Effects/Disperse.cpp:25-30 | one draw per (seed, branch, stage, kind), a function of those alone (so reproducible), always in [-1, 1] |
| `Randomizer.Randomizer.ZeroSeedSharesOneDraw` | Source/Effects/Disperse.cpp:26 | under seed 0 all stages and all parameter kinds get the same draw |
| `Randomizer.Offset` | Source/Effects/Disperse.cpp:106-109 | the draw scaled by a spread constant and a knob: a zero knob gives no offset, and a draw in [-1, 1] with a non-negative spread moves a value by at most spread times the knob's magnitude |
| `Randomizer.OffsetScales` | Source/Effects/Disperse.cpp:108-109 | the offset is proportional to its knob |
| `DelayStage.NewStage` | Source/Effects/Disperse.cpp:69-79 | a freshly created stage: the sample rate and maximum delay time, feedback 0.5, modulation depth 0.2, mix 1, time and pan not yet set, nothing processed |
| `DelayStage.Stage.SetFeedback` | Source/Effects/Disperse.cpp:74 | sets the stage's feedback and keeps every other setting and its history (also used by the re-derivation at :111) |
| `DelayStage.Stage.SetTimeMs` | Source/Effects/Disperse.cpp:122 | sets the stage's delay time, so it no longer runs on its own default, and keeps every other setting and its history |
| `DelayStage.Stage.SetPan` | Source/Effects/Disperse.cpp:133 | sets the stage's pan, so it no longer runs on its own default, and keeps every other setting and its history |
| `DelayStage.Stage.Process` | Source/Effects/Disperse.cpp:171 | processing a sample never changes a stage's settings; the stage records exactly that one sample and outputs its response to its history |
| `Topology.StageCount` | Source/Effects/Disperse.cpp:36-41 | the inner construction loop makes `n` stages for a positive entry `n` and none for a non-positive one |
| `Topology.Positions` | Source/Effects/Disperse.cpp:49-60 | the order in which the nested loops visit the grid; every position it lists lies inside the grid |
| `Topology.PositionsCover` | Source/Effects/Disperse.cpp:49-60 | the visiting order lists a position exactly when it lies inside the grid |
| `Topology.PositionsOrdered` | Source/Effects/Disperse.cpp:49-60 | the visiting order is strictly increasing, branch-major and stage-minor |
| `Topology.PositionsOnce` | Source/Effects/Disperse.cpp:49-60 | no position is visited twice |
| `Routing.RunChain` | Source/Effects/Disperse.cpp:168-172 | threading a sample through a chain keeps its length and every stage's settings, and each stage processes exactly one sample |
| `Routing.Wet` | Source/Effects/Disperse.cpp:164-176 | running every branch keeps the grid's shape and every stage's settings, and each stage processes exactly one sample |
| `Routing.ChainLogs` | Source/Effects/Disperse.cpp:168-172 | stage `s` of a chain keeps its history and records, under its own settings, the output of stages `0..s-1` (the dry input for the first stage) |
| `Routing.WetLogs` | Source/Effects/Disperse.cpp:164-176 | every stage of the grid keeps its history and records the output of the stages before it in its own branch |
| `Routing.EmptyBranchesWet` | Source/Effects/Disperse.cpp:167-175 | a branch with no stages adds the dry input to the wet sum: `n` empty branches yield the input `n` times over |
| `Routing.BranchesIndependent` | Source/Effects/Disperse.cpp:167-176 | each branch is run from the dry input, not from another branch's output: branch `p` after processing equals that branch run on its own |
| `Routing.IdentityChain` | Source/Effects/Disperse.cpp:170-172 | a chain of identity stages passes the input through unchanged |
| `Routing.IdentityWet` | Source/Effects/Disperse.cpp:164-176 | with identity stages the wet signal is the input summed once per branch (a sum, not an average) |
| `Routing.TwoIdentityBranches` | Source/Effects/Disperse.cpp:163-182 | two identity branches with mix 1 output the input twice over: (1, 0) becomes (2, 0) |
| `Routing.SingleIdentityBranch` | Source/Effects/Disperse.cpp:163-182 | one identity branch with mix 1 returns the input unchanged |
| `DisperseEffect.FeedbackFor` | Source/Effects/Disperse.cpp:105-111 | a stage's feedback: dispersion 0 gives exactly the base feedback; otherwise it lies within feedback spread times the dispersion's magnitude of the base |
| `DisperseEffect.TimeFor` | Source/Effects/Disperse.cpp:116-122 | a stage's delay time: dispersion 0 gives exactly the base time; otherwise it lies within time spread times the dispersion's magnitude of the base |
| `DisperseEffect.PanFor` | Source/Effects/Disperse.cpp:127-133 | a stage's pan has no base term: spread 0 centres it; otherwise it lies within pan spread times the spread knob's magnitude of zero |
| `DisperseEffect.DispersionScalesOffsets` | Source/Effects/Disperse.cpp:104-124 | scaling the dispersion scales every stage's feedback and time offsets by the same factor |
| `DisperseEffect.Disperse.Valid` | Source/Effects/Disperse.cpp:32-66 | the object invariant that construction and every public operation keep: the grid mirrors the arrangement, and every stage carries its derived feedback, time and pan, with time and pan always set |
| `DisperseEffect.Disperse.constructor` | Source/Effects/Disperse.cpp:12 | a new effect holds its initial knob values, an empty arrangement and an empty grid, and satisfies the invariant |
| `DisperseEffect.Disperse.Initialize` | Source/Effects/Disperse.cpp:14-22 | stores sample rate and seed; the arrangement becomes [1]; the grid is one branch holding one freshly configured stage; the invariant holds |
| `DisperseEffect.Disperse.ResetDelays` | Source/Effects/Disperse.cpp:32-47 | the grid is rebuilt with one branch per arrangement entry and `StageCount(entry)` stages each; every stage is fresh and carries its derived feedback, time and pan, with none left at the construction defaults |
| `DisperseEffect.Disperse.UpdateDelays` | Source/Effects/Disperse.cpp:49-60 | every stage is replaced by the callback applied to it and its own coordinates; the shape is unchanged; the coordinates are passed in branch-major, stage-minor order, each position once |
| `DisperseEffect.Disperse.UpdateAllRandomParams` | Source/Effects/Disperse.cpp:62-66 | every stage's feedback, time and pan are re-derived; nothing else changes |
| `DisperseEffect.Disperse.UpdateFeedback` | Source/Effects/Disperse.cpp:104-113 | every stage's feedback becomes base feedback plus its feedback draw times feedback spread times dispersion; nothing else changes |
| `DisperseEffect.Disperse.UpdateTimeMs` | Source/Effects/Disperse.cpp:115-124 | every stage's time becomes base time plus its time draw times time spread times dispersion; nothing else changes |
| `DisperseEffect.Disperse.UpdatePan` | Source/Effects/Disperse.cpp:126-136 | every stage's pan becomes its pan draw times pan spread times spread, with no base term; nothing else changes |
| `DisperseEffect.Disperse.UpdateSpread` | Source/Effects/Disperse.cpp:138-140 | a spread change re-derives pan only |
| `DisperseEffect.Disperse.UpdateDispersion` | Source/Effects/Disperse.cpp:142-146 | a dispersion change re-derives time and feedback, not pan |
| `DisperseEffect.Disperse.SetMix` | Source/Effects/Disperse.cpp:81-83 | stores the mix and touches no stage; the invariant holds |
| `DisperseEffect.Disperse.SetFeedback` | Source/Effects/Disperse.cpp:85-88 | stores the feedback and rewrites only each stage's feedback, never the shape; the invariant holds |
| `DisperseEffect.Disperse.SetTimeMs` | Source/Effects/Disperse.cpp:90-93 | stores the time and rewrites only each stage's time, never the shape; the invariant holds |
| `DisperseEffect.Disperse.SetSpread` | Source/Effects/Disperse.cpp:95-98 | stores the spread and rewrites only each stage's pan, leaving feedback and time; the invariant holds |
| `DisperseEffect.Disperse.SetDispersion` | Source/Effects/Disperse.cpp:99-102 | stores the dispersion and rewrites each stage's time and feedback but not its pan; the invariant holds |
| `DisperseEffect.Disperse.SetRandomSeed` | Source/Effects/Disperse.cpp:148-150 | as written: the argument is not stored, the seed is unchanged, and every stage stays exactly as it was, so the call changes nothing observable |
| `DisperseEffect.Disperse.SetRandomSeedStored` | Source/Effects/Disperse.cpp:148-150 | corrected: stores the seed and re-derives every stage's feedback, time and pan from it; the invariant holds |
| `DisperseEffect.Disperse.SetVoiceArrangement` | Source/Effects/Disperse.cpp:152-156 | stores the arrangement; the grid then has one branch per entry, branch `i` holding `StageCount(A[i])` freshly configured stages (empty for a non-positive entry); the invariant holds |
| `DisperseEffect.Disperse.Process` | Source/Effects/Disperse.cpp:163-182 | the output is the wet sum of all branches cross-faded with the input by mix; the grid becomes the processed grid; settings are untouched, so the invariant holds |
| `DisperseEffect.Disperse.SumBranches` | Source/Effects/Disperse.cpp:164-176 | the outer loop of process: the accumulated wet sum and the grid are those of running every branch on the input |
| `DisperseEffect.Disperse.ThreadBranch` | Source/Effects/Disperse.cpp:168-172 | the inner loop of process: the running sample through branch `p`'s stages in series, only branch `p` changing |
| `Scenarios.SeedArgumentIgnored` | Source/Effects/Disperse.cpp:148-150 | after initialising with seed 1 and setting seed 2, the effect still holds seed 1 |
| `Scenarios.SeedArgumentStored` | Source/Effects/Disperse.cpp:148-150 | the same calls with the corrected setter leave seed 2 stored |
| `Scenarios.DryMixBypasses` | Source/Effects/Disperse.cpp:163-182 | with mix 0 the effect outputs its input, whatever the arrangement and whatever the stages compute |
| `Scenarios.TwoIdentityBranchesSum` | Source/Effects/Disperse.cpp:163-182 | arrangement [1, 1], identity stages and mix 1 output the input twice over |
| `Scenarios.SingleBranchPassesThrough` | Source/Effects/Disperse.cpp:14-22 | after `initialize`, identity stages and mix 1 output the input unchanged |
| `Scenarios.EmptyBranchPassesDry` | Source/Effects/Disperse.cpp:152-156 | arrangement [0] is accepted; with mix 1 the effect outputs its input, whatever the stages compute |

## Left out

- The Mersenne-Twister generator, the uniform distribution and the coordinate hash are not modelled inside. The hash and the seeded draw are parameters of the effect, and the draw is only known to be deterministic and within [-1, 1]. Nothing probabilistic is claimed, such as distinct seeds giving different values. The numeric values of the parameter-kind indices come from `Disperse.hpp`, which is not part of this model; the kinds are a three-valued datatype.
- Randomizer.Randomizer.Draw: states the closed range [-1, 1], where the uniform distribution promises the half-open range [-1, 1). This is because float rounding can reach the upper end.
- The delay stage's internals (buffer, interpolation, modulation) are not modelled, and neither is what its `process` computes. `Delay.hpp` and `Delay.cpp` are not part of this model. A stage's output is an abstract response to its processed history.
- Floating-point rounding is not modelled: all arithmetic is over `real`.
- The constants `MAX_DELAY_TIME`, `MAX_FEEDBACK_SPREAD`, `MAX_TIME_SPREAD` and `MAX_PAN_SPREAD`, and the fields' initial values, live in `Disperse.hpp`, which is not part of this model. They are constructor parameters (`Tuning`, `Defaults`). The model assumes the arrangement and the grid start empty.
- `shared_ptr` ownership and aliasing are not modelled. Each grid slot holds its own stage value, and the source never shares a stage between slots. The stages are updated in place by writing the changed value back into the grid.
- The `std::function` callback is not modelled as a closure. It is a pure function from (stage, branch index, stage index) to the updated stage, which is all the source's callbacks do.
- The static scratch buffers of `process` are not modelled: `Process` returns a fresh sample.
- The nested loops of `process` are split into `SumBranches` (outer) and `ThreadBranch` (inner) so that each proof stays small. The order of the computation is the same.
- Bounds-checked `.at()` failures are not modelled. They cannot occur while the invariant holds: the grid mirrors the arrangement, every public operation keeps that, and `Process` requires it.
- Concurrency between the control thread and the audio thread is not modelled. The source has no synchronisation.
- Arrangement entries below 1 are not rejected. The code builds an empty branch for such an entry (Disperse.cpp:36-43). That branch passes the dry input straight into the wet sum (:168-175), and the model follows the code (`Routing.EmptyBranchesWet`, `Scenarios.EmptyBranchPassesDry`).
- Randomizer.Randomizer.GeneratorSeed: assumes the product `seed * simpleParamHash(...)` at Disperse.cpp:26 wraps around modulo 2^32 when it overflows. If both factors are signed `int`, the overflow is undefined behaviour in C++, and the residue holds only under the two's-complement wrap-around that compilers produce in practice. The factors' types are declared in `Disperse.hpp`, which is not part of this model.

## Findings

| source | as written | input that shows it | evidently intended | confidence | as-written member | corrected member |
|---|---|---|---|---|---|---|
| Source/Effects/Disperse.cpp:148-150 | `setRandomSeed(seed)` never stores its argument; it re-derives every parameter from the seed already held | `initialize(48000, 1)` then `setRandomSeed(2)`: the seed stays 1 and every stage keeps its feedback, time and pan | store the new seed, then re-derive feedback, time and pan from it | medium (not executed) | `DisperseEffect.Disperse.SetRandomSeed` | `DisperseEffect.Disperse.SetRandomSeedStored` |
