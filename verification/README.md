# pbfSim host logic in Dafny

This project models the host side of the `Simulation` class of a Position-Based
Fluids simulator (`sim/apps/myApps/pbfSim/src/Simulation.cpp` and `Simulation.h`).
It covers the host-side simulation logic of that class:

- the constructor defaults;
- the grid-resolution heuristic (`findIdealParticleCount`) and the cell total;
- the particle seeding of `initializeBuffers`;
- the bounds animator (`stepBoundsAnimation`) with its SINE_WAVE, LINEAR_RAMP and
  COMPRESS waveforms;
- `step`, as the ordered trace of device kernels it dispatches;
- `reset` and `resetBounds`;
- the inline accessors and animation-control setters.

The model is functional. A simulation is an immutable record (`SimState.Sim`), and
every host routine is a pure function from state to state. The kernels themselves are
opaque: a step produces a list of `Passes.Event`s. Each event names the kernel, its
size (the work-item count of a kernel launch, or the scan length handed to the
`PrefixSum` helper) and the box it was handed. The step then runs those events in order
through a caller-supplied `KernelEffect` on device memory (`Passes.Device`): the particle
buffer together with the scratch buffers the kernels share (`Passes.Scratch`).

Floating-point values are modelled as reals. `sin` and the value of pi come in as
parameters (`BoundsAnimation.Trig`). `ofDegToRad` is modelled as degrees × pi / 180.
`ofRandom(lo, hi)` is modelled as `lo + (hi - lo) * u` for a caller-supplied draw
`u` in [0, 1], so every value between the two arguments can be reached
(`Seeding.RandomReachesAll`). The two unsigned counters `frameNumber` and
`animFrameNumber` are 32-bit and wrap at 2^32 (`Unsigned.U32`). The constants in
`Constants.h` are not shown, so the default time step, the solver iteration count and
the particles-per-cell targets are inputs (`SimState.Constants`).

Modules, one per concern:

| module | file | covers |
|---|---|---|
| Geometry | geometry.dfy | `ofVec3f`, the AABB record (min/max corners) |
| Unsigned | unsigned.dfy | `unsigned int` counters, wrap-around |
| Grid | grid.dfy | `findIdealParticleCount`, `numCells` |
| Seeding | seeding.dfy | `Particle`, the seeding loop of `initializeBuffers` |
| SimState | state.dfy | fields, constructors, accessors, setters |
| BoundsAnimation | animation.dfy | `stepBoundsAnimation` |
| Passes | passes.dfy | kernel dispatch routines as event traces |
| Lifecycle | lifecycle.dfy | `step`, `reset`, `resetBounds` |

Two behaviours of the code deserve a note:

- COMPRESS moves each animated side 0.25 per frame until it passes `0.33 × width`
  inward of its original position (`BoundsAnimation.LimitMaxX`, `LimitMinX`). With one
  side animated, the box settles near 0.67 of the width. With both sides animated, it
  settles near 0.34.
- The constructors validate none of their arguments: neither the particle count, nor
  the cell counts, nor the box. A negative particle count gives an empty seeding loop
  (`Seeding.LoopCount`).

## Model

| member | source | states |
|---|---|---|
| Unsigned.Inc | sim/apps/myApps/pbfSim/src/Simulation.cpp:655 | `counter++` on an unsigned 32-bit counter: one more, except that the maximum wraps to 0 |
| Unsigned.FromInt | sim/apps/myApps/pbfSim/src/Simulation.h:270 | converting a signed count to `unsigned int` keeps non-negative values and adds 2^32 to negative ones |
| Unsigned.IncAddWrapping | sim/apps/myApps/pbfSim/src/Simulation.h:97 | the inductive step of counting increments: one increment followed by k more equals k + 1 increments, modulo 2^32 |
| Grid.Ceil | sim/apps/myApps/pbfSim/src/Simulation.cpp:128-130 | `ceil` gives the least integer not below its argument |
| Grid.Trunc | sim/apps/myApps/pbfSim/src/Simulation.cpp:189-191 | `static_cast<int>` truncates toward zero, on both signs |
| Grid.FindIdealParticleCount | sim/apps/myApps/pbfSim/src/Simulation.cpp:115-133 | each axis gets a whole number of cells, the least one not below extent / radius / target; with positive extents, radius and targets, every axis gets at least one cell |
| Grid.CellCount | sim/apps/myApps/pbfSim/src/Simulation.cpp:128-130 | the per-axis cell count is the ceiling of extent / radius / target, and it is at least 1 when all three are positive |
| Grid.NumCells | sim/apps/myApps/pbfSim/src/Simulation.cpp:189-191 | the cell total is at least 1, and at least each per-axis count, when every count is at least 1 |
| Grid.IdealGridHasCells | sim/apps/myApps/pbfSim/src/Simulation.cpp:115-133 | for a box with positive extents, the heuristic gives every axis at least one cell, and the cell total is the product of the three ceilings |
| Seeding.Random | sim/apps/myApps/pbfSim/src/Simulation.cpp:270-273 | a random coordinate always lies between the two arguments, in either order |
| Seeding.RandomReachesAll | sim/apps/myApps/pbfSim/src/Simulation.cpp:270-273 | every value between the two arguments, in either order, is reachable by some draw |
| Seeding.SeedTopY | sim/apps/myApps/pbfSim/src/Simulation.cpp:271 | the corrected top of the y range, measured from min.y, lies inside the box whenever the radius fits its height, and equals the written top whenever min.y is 0 |
| Seeding.SeedAsWritten | sim/apps/myApps/pbfSim/src/Simulation.cpp:265-280 | the loop body as written: zero predicted position and zero velocity; x and z drawn from the box inset by the radius, y from min.y + radius up to a quarter of max.y − radius; inside the box when the radius fits and that written top lies within the box's y extent |
| Seeding.SeedAsWrittenEscapesBox | sim/apps/myApps/pbfSim/src/Simulation.cpp:271 | with the written y range, a box with min.y = 50 seeds a particle at y = 24.75, below the box |
| Seeding.SeedAsWrittenInBoxIff | sim/apps/myApps/pbfSim/src/Simulation.cpp:270-279 | with a radius that fits, every draw seeds inside the box if and only if the written top of the y range lies within the box's y extent |
| Seeding.SeedRangeInBox | sim/apps/myApps/pbfSim/src/Simulation.cpp:270-274 | a point of the written seed ranges lies within the box along x and z whenever the radius fits, and wholly inside it when the written top also lies within the box |
| Seeding.Seed | sim/apps/myApps/pbfSim/src/Simulation.cpp:265-280 | the corrected loop body: a seeded particle is at rest, lies inside the box whenever the radius fits every extent, and matches the written loop body when min.y is 0 |
| Seeding.SeedAll | sim/apps/myApps/pbfSim/src/Simulation.cpp:265-280 | the loop seeds one particle per iteration, the i-th from the i-th draw with the written loop body |
| SimState.Initial | sim/apps/myApps/pbfSim/src/Simulation.cpp:40-58 | construction: both counters at 0; particle count, radius, time step, grid and scratch buffers as given; animation off, one-sided, SINE_WAVE, period 1, amplitude 10; current and original box both equal the given box; the cell total matches the grid; one particle per iteration, at rest, within the written seed ranges, and inside the box when the radius fits and the written top of the y range lies within the box |
| SimState.Create | sim/apps/myApps/pbfSim/src/Simulation.cpp:40-66 | the first constructor uses the default time step and the grid from `findIdealParticleCount` |
| SimState.CreateWithGrid | sim/apps/myApps/pbfSim/src/Simulation.cpp:78-102 | the second constructor keeps the given time step and grid |
| SimState.CreateHasCells | sim/apps/myApps/pbfSim/src/Simulation.cpp:60-63 | the first constructor, given positive extents, radius and targets, builds a grid of at least one cell whose total is the product of the per-axis ceilings |
| SimState.GetFrameNumber | sim/apps/myApps/pbfSim/src/Simulation.h:263 | returns the frame counter unchanged |
| SimState.GetNumberOfParticles | sim/apps/myApps/pbfSim/src/Simulation.h:270 | returns the signed particle count converted to `unsigned int` |
| SimState.GetNumberOfCells | sim/apps/myApps/pbfSim/src/Simulation.h:272 | returns the signed cell total converted to `unsigned int` |
| SimState.SetBounds | sim/apps/myApps/pbfSim/src/Simulation.h:266 | replaces the current box, never the original one, and changes nothing else |
| SimState.EnableBoundsAnimation | sim/apps/myApps/pbfSim/src/Simulation.h:283 | sets `animBounds` and changes nothing else |
| SimState.DisableBoundsAnimation | sim/apps/myApps/pbfSim/src/Simulation.h:284 | clears `animBounds` and changes nothing else |
| SimState.EnableBothSidesAnimation | sim/apps/myApps/pbfSim/src/Simulation.h:286 | sets `animBothSides` and changes nothing else |
| SimState.DisableBothSidesAnimation | sim/apps/myApps/pbfSim/src/Simulation.h:287 | clears `animBothSides` and changes nothing else |
| SimState.SetAnimationType | sim/apps/myApps/pbfSim/src/Simulation.h:289 | overwrites the waveform and changes nothing else |
| SimState.SetAnimationPeriod | sim/apps/myApps/pbfSim/src/Simulation.h:290 | overwrites the period and changes nothing else |
| SimState.SetAnimationAmp | sim/apps/myApps/pbfSim/src/Simulation.h:291 | overwrites the amplitude and changes nothing else |
| SimState.AnimationFlagLastWins | sim/apps/myApps/pbfSim/src/Simulation.h:283-287 | for the flag setters, the last call decides the flag, and repeating a call changes nothing |
| SimState.SettersKeepValid | sim/apps/myApps/pbfSim/src/Simulation.h:266-291 | no setter breaks the agreement between the cell total and the grid |
| BoundsAnimation.DegToRad | sim/apps/myApps/pbfSim/src/Simulation.cpp:624 | `ofDegToRad` takes a half turn (180 degrees) to pi and 0 degrees to 0 |
| BoundsAnimation.SineOffset | sim/apps/myApps/pbfSim/src/Simulation.cpp:624-625 | the sine offset `amp * sin(period * pi * theta)` stays within one amplitude of zero when `sin` is bounded by one, and is zero at angle 0 when sin(0) is |
| BoundsAnimation.Phase | sim/apps/myApps/pbfSim/src/Simulation.cpp:624 | the sine waveform reads the counter only modulo 720, so the angle stays below 720 degrees |
| BoundsAnimation.LimitMaxX | sim/apps/myApps/pbfSim/src/Simulation.cpp:614-620 | the right-hand COMPRESS limit lies 0.33 × width inward of the original max.x |
| BoundsAnimation.LimitMinX | sim/apps/myApps/pbfSim/src/Simulation.cpp:614-619 | the left-hand COMPRESS limit lies 0.33 × width inward of the original min.x |
| BoundsAnimation.LimitsLeaveMiddleBand | sim/apps/myApps/pbfSim/src/Simulation.cpp:614-620 | for a box of non-negative width, the two limits lie in order inside the original x extent and leave a band of 0.34 × width between them |
| BoundsAnimation.ShiftFromOriginal | sim/apps/myApps/pbfSim/src/Simulation.cpp:627-631 | SINE_WAVE and LINEAR_RAMP set max.x to the original max.x minus the offset. They set min.x to the original min.x plus the offset only when both sides animate. Y and z are left alone |
| BoundsAnimation.CompressBounds | sim/apps/myApps/pbfSim/src/Simulation.cpp:644-653 | COMPRESS never widens the box. Max.x drops by exactly 0.25 when it is at or above its limit and stays put otherwise. Min.x mirrors this, but only when both sides animate |
| BoundsAnimation.StepBoundsAnimation | sim/apps/myApps/pbfSim/src/Simulation.cpp:609-656 | every waveform advances the animation counter by exactly one (mod 2^32), leaves y and z and every other field unchanged, and leaves min untouched unless both sides animate |
| BoundsAnimation.AbsoluteWaveformsIgnoreCurrentBounds | sim/apps/myApps/pbfSim/src/Simulation.cpp:622-642 | under SINE_WAVE and LINEAR_RAMP, the new x extents depend only on the original box, the settings and the counter. The current box has no influence |
| BoundsAnimation.SineWavePeriodic | sim/apps/myApps/pbfSim/src/Simulation.cpp:622-631 | frames n and n + 720 give the same box, provided the counter does not wrap |
| BoundsAnimation.WrapBreaksPhase | sim/apps/myApps/pbfSim/src/Simulation.cpp:624 | the model's phase jumps from 255 to 0 across the 2^32 wrap rather than advancing to 256, and 720 frames past 2^32 − 1 it differs from the phase at 2^32 − 1, so the 720-frame period of `SineWavePeriodic` holds only without a wrap |
| BoundsAnimation.SineWaveFrameZero | sim/apps/myApps/pbfSim/src/Simulation.cpp:622-631 | given sin(0) = 0, frame 0 restores the original x extents |
| BoundsAnimation.Sawtooth | sim/apps/myApps/pbfSim/src/Simulation.cpp:634-635 | `t - floor(0.5 + t)` lies in [-0.5, 0.5), and what it takes away from `t` is a whole number |
| BoundsAnimation.RampOffset | sim/apps/myApps/pbfSim/src/Simulation.cpp:633-635 | for amplitude ≥ 0, the ramp offset lies in [-amp, amp], and strictly below amp when amp > 0 |
| BoundsAnimation.LinearRampFrameZero | sim/apps/myApps/pbfSim/src/Simulation.cpp:633-642 | frame 0 restores the original x extents |
| BoundsAnimation.LinearRampStaysNearOriginal | sim/apps/myApps/pbfSim/src/Simulation.cpp:633-642 | under LINEAR_RAMP, max.x stays within one amplitude of the original max.x |
| BoundsAnimation.SineWaveStaysNearOriginal | sim/apps/myApps/pbfSim/src/Simulation.cpp:622-631 | under SINE_WAVE with amplitude ≥ 0 and a sine bounded by 1, max.x stays within one amplitude of the original max.x |
| BoundsAnimation.CompressKeepsFloor | sim/apps/myApps/pbfSim/src/Simulation.cpp:614-620 | COMPRESS keeps max.x ≥ limitMaxX − 0.25. When both sides animate, it also keeps min.x ≤ limitMinX + 0.25 |
| BoundsAnimation.CompressFrames | sim/apps/myApps/pbfSim/src/Simulation.cpp:644-653 | repeated COMPRESS frames keep the waveform, the original box and the both-sides flag |
| BoundsAnimation.CompressConverges | sim/apps/myApps/pbfSim/src/Simulation.cpp:646-648 | after k frames, max.x has moved down by 0.25 × min(k, steps to the limit). It then stays fixed |
| BoundsAnimation.CompressSettles | sim/apps/myApps/pbfSim/src/Simulation.cpp:646-648 | once the steps to the limit are done, max.x sits in [limit − 0.25, limit) |
| Passes.ExecuteAppend | sim/apps/myApps/pbfSim/src/Simulation.cpp:686-703 | running two dispatch sequences back to back on device memory is the same as running their concatenation |
| Passes.GridRoutinesConform | sim/apps/myApps/pbfSim/src/Simulation.cpp:883-953 | `resetQuantities`, `predictPositions`, `discretizeParticlePositions`, `sortParticlesByCell` and `findNeighboringParticles` launch the cell reset over `numCells` work items, scan `numCells` entries of the cell histogram, launch the rest over `numParticles`, and hand the current box to discretization only |
| Passes.SolverRoutinesConform | sim/apps/myApps/pbfSim/src/Simulation.cpp:962-995 | `calculateDensity`, `calculatePositionDelta` and `updatePositionDelta`, and one solver iteration, launch every kernel over `numParticles`, handing the current box to density, lambda and position delta but not to the delta update |
| Passes.FinalRoutinesConform | sim/apps/myApps/pbfSim/src/Simulation.cpp:1003-1025 | `handleCollisions` and `updatePosition` launch over `numParticles` and hand the current box to collisions, curl and integration |
| Passes.SolverLoopConforms | sim/apps/myApps/pbfSim/src/Simulation.cpp:692-701 | the whole solver loop keeps that launch discipline, for any iteration count |
| Passes.IterationCount | sim/apps/myApps/pbfSim/src/Simulation.cpp:692-701 | one solver iteration dispatches density, lambda, position delta and the delta update once each and no other kernel |
| Passes.HandleCollisionsTrace | sim/apps/myApps/pbfSim/src/Simulation.cpp:1003-1008 | `handleCollisions` dispatches the collision kernel once |
| Passes.SolverLoop | sim/apps/myApps/pbfSim/src/Simulation.cpp:692-701 | the loop trace has 4·N events, and event j is event j mod 4 of one iteration (density, lambda, position delta, apply delta) |
| Passes.SolverLoopCounts | sim/apps/myApps/pbfSim/src/Simulation.cpp:692-701 | the loop dispatches each of its four kernels exactly N times and no other kernel |
| Lifecycle.StepTrace | sim/apps/myApps/pbfSim/src/Simulation.cpp:666-735 | a step has 10 + 4·N events, plus one when the animation is on |
| Lifecycle.StepTraceShape | sim/apps/myApps/pbfSim/src/Simulation.cpp:666-735 | the step runs: reset particle, reset cell, predict, discretize, scan, count-sort, find-bins. Then come N × (density, lambda, position delta, apply delta). Then curl, update position and the queue drain. The bounds animation is last, and present exactly when enabled |
| Lifecycle.StepConforms | sim/apps/myApps/pbfSim/src/Simulation.cpp:666-735 | every dispatch of a step is sized by the particles, or by the cells for the cell reset and the scan, and is handed the step's box exactly when it takes one |
| Lifecycle.StepKernelsSeePreStepBounds | sim/apps/myApps/pbfSim/src/Simulation.cpp:918-1024 | every box handed to a kernel during a step is the box from before the step, so the animation comes after all physics |
| Lifecycle.ResetAndPredictCount | sim/apps/myApps/pbfSim/src/Simulation.cpp:894-908 | `resetQuantities` and `predictPositions` dispatch the two reset kernels and the prediction once each and no other kernel |
| Lifecycle.NeighbourSearchCount | sim/apps/myApps/pbfSim/src/Simulation.cpp:883-953 | `findNeighboringParticles` dispatches discretization, the prefix scan, the counting sort and the bin search once each and no other kernel |
| Lifecycle.PrologueCount | sim/apps/myApps/pbfSim/src/Simulation.cpp:674-688 | the work before the solver loop dispatches each of its seven kernels once and no other kernel |
| Lifecycle.EpilogueCount | sim/apps/myApps/pbfSim/src/Simulation.cpp:1016-1025 | `updatePosition` dispatches curl and integration once each |
| Lifecycle.StepDispatchCounts | sim/apps/myApps/pbfSim/src/Simulation.cpp:666-735 | a step dispatches each grid-build and integration kernel once, each solver kernel N times, and never `handleCollisions` |
| Lifecycle.Step | sim/apps/myApps/pbfSim/src/Simulation.cpp:666-735 | a step runs its trace on device memory (particles and scratch buffers), increments the frame counter by exactly one (mod 2^32), and animates the bounds exactly when `animBounds` is set. No other field changes |
| Lifecycle.Steps | sim/apps/myApps/pbfSim/src/Simulation.cpp:666-735 | any number of consecutive steps changes only the two counters, the current box and device memory; the configuration and the original box stay as they were |
| Lifecycle.StepPhasesCompose | sim/apps/myApps/pbfSim/src/Simulation.cpp:686-703 | the solver loop acts on the device memory the grid build left, and integration acts on what the loop left |
| Lifecycle.StepsCountFrames | sim/apps/myApps/pbfSim/src/Simulation.cpp:728-734 | after k steps, the frame counter has advanced by k mod 2^32. The animation counter advances the same way when the animation is on, and stays put otherwise |
| Lifecycle.StepKeepsValid | sim/apps/myApps/pbfSim/src/Simulation.cpp:666-735 | a step keeps the cell total in agreement with the grid |
| Lifecycle.ResetBounds | sim/apps/myApps/pbfSim/src/Simulation.cpp:588-592 | the animation counter goes to 0 and the current box to the original. Nothing else changes |
| Lifecycle.ResetBoundsUndoesSetBounds | sim/apps/myApps/pbfSim/src/Simulation.cpp:588-592 | after any `setBounds`, `resetBounds` restores the original box, and repeating it changes nothing |
| Lifecycle.InitializeBuffers | sim/apps/myApps/pbfSim/src/Simulation.cpp:181-280 | recomputes the cell total from the grid, installs fresh scratch buffers and reseeds the particles from the current box with the written loop body. Nothing else changes |
| Lifecycle.Reset | sim/apps/myApps/pbfSim/src/Simulation.cpp:597-604 | both counters go to 0 and the box to the original. Particle count, grid and cell total are kept. Particles are reseeded at rest within the written seed ranges of the box as it was before the reset, and inside that box when the radius fits and the written top lies within it |
| Lifecycle.ResetOfFreshSimulation | sim/apps/myApps/pbfSim/src/Simulation.cpp:597-604 | resetting a just-constructed simulation with the same draws gives back the same state |
| Lifecycle.FrameNumberCountsStepsSinceReset | sim/apps/myApps/pbfSim/src/Simulation.cpp:599 | after a reset and k < 2^32 steps, `getFrameNumber` reports k, and so does the animation counter when the animation is on |

## Findings

| source | as written | input that shows it | evidently intended | confidence | as-written member | corrected member |
|---|---|---|---|---|---|---|
| sim/apps/myApps/pbfSim/src/Simulation.cpp:271 | the y range is `ofRandom(min.y + radius, 0.25 * (max.y - radius))`, and its top is measured from 0, not from min.y | box (0, 50, 0)–(10, 100, 10), radius 1, draw u.y = 1: y = 24.75, below min.y = 50 | seed in the lower quarter of the box: top = min.y + 0.25 × (max.y − radius − min.y), which equals the written top when min.y = 0 | medium; not executed | Seeding.SeedAsWritten, Seeding.SeedAsWrittenEscapesBox | Seeding.Seed, Seeding.SeedTopY |

The constructors, `InitializeBuffers` and `Reset` seed with the written loop body (`Seeding.SeedAsWritten`), so the model keeps the source's behaviour, and their containment promise holds only when the written top lies within the box (`Seeding.SeedAsWrittenInBoxIff`). `Seeding.Seed` is the corrected definition, proved to keep every particle inside the box whenever the radius fits, and to coincide with the written body when min.y is 0.

## Left out

- Kernel bodies (`kernels/Simulation.cl`) and `PrefixSum` are not part of this model. This covers grid mapping, counting sort, scan, neighbour search, density, lambda, position delta, curl, XSPH and clamping. Each kernel is an opaque event, and its effect is the caller-supplied `KernelEffect`.
- Device memory is the particle buffer plus the scratch buffers (`Passes.Scratch`: particle-to-cell map, cell histogram, prefix sums, sorted map, cell offsets, densities, lambdas, curl, external forces, position deltas). Every kernel reads and writes all of it through `KernelEffect`. The contents of freshly allocated scratch buffers are a parameter, since the program does not initialise them; buffer sizes are not modelled.
- GPU plumbing is left out: `readFromGPU`, `writeToGPU`, buffer allocation, kernel loading and argument binding in `setupKernels`, and the parameter-buffer write in `setParameters`. `openCL.finish` appears only as the `Finish` event. Under `DRAW_PARTICLES_AS_SPHERES` the host copy is read back from the device; the model treats host and device particles as one buffer.
- Lifecycle.Step: under `DRAW_PARTICLES_AS_SPHERES`, `readFromGPU` also reloads the simulation parameters from the device's parameter buffer on every step (Simulation.cpp:140). Six kernels receive that buffer. The model assumes the kernels leave it unchanged, so the reload is a no-op, and the particle radius that `Reset` later seeds with stays the one given at construction.
- Rendering and UI are left out: `initializeOpenGL`, `draw`, `drawGrid`, `drawBounds`, `drawParticles`, the draw-grid and visual-debugging toggles, and `operator<<`.
- `getParameters`/`setParameters` are left out. `Parameters.h` is not part of this model, and the only parameter the host reads is the particle radius, which is kept as a field.
- `getBounds` and `getCellsPerAxis` are plain field reads and have no member of their own.
- Floating-point rounding is not modelled: the model treats all arithmetic as exact over reals. The source computes `width * 0.66` in double and rounds the product to float (Simulation.cpp:617), and `static_cast<float>(animFrameNumber)` (Simulation.cpp:613) loses precision above 2^24; the model treats both as exact. NaN and infinity do not exist in the model.
- Integer overflow is not modelled for the `numCells` product or for `static_cast<int>` of huge floats. The fourth (alignment) component of each `float4` is not modelled.
- `ofRandom` is left out as a distribution. It is any value between its two arguments, chosen by a draw in [0, 1].
- BoundsAnimation.StepBoundsAnimation: requires a non-zero period under LINEAR_RAMP, because the source divides by the period and a zero period yields a non-finite bound that reals cannot represent.
- Lifecycle.Step: requires a non-zero period when the animation is on under LINEAR_RAMP, for the same reason.
- Lifecycle.Steps: carries the same non-zero-period requirement for every step in the run.
- Grid.CellCount: requires a non-zero radius and non-zero targets, because the source divides by both and a zero yields an infinite or NaN quotient, and `static_cast<int>` of it is undefined behaviour.
- Grid.FindIdealParticleCount: requires a non-zero radius and non-zero per-cell targets, for the same reason.
- SimState.Create: requires a non-zero radius and non-zero per-cell targets, for the same reason.
- `handleCollisions` is commented out of `step`. It is modelled only as a trace (`Passes.HandleCollisionsTrace`), and the step never emits it.
- The destructor and `initialize` are left out; `initialize` only sequences OpenGL setup, `initializeBuffers`, kernel setup and the GPU write.
