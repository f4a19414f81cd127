/** The simulation's life cycle: `step`, `resetBounds` and `reset`. A step
    is the trace of device work it dispatches, run in order against device
    memory, followed by the frame bookkeeping. */
module Lifecycle {
  import opened Geometry
  import opened Unsigned
  import opened Grid
  import opened Seeding
  import opened SimState
  import opened BoundsAnimation
  import opened Passes

  /** A step can animate the bounds without dividing by zero. */
  predicate Animatable(s: Sim) {
    s.animBounds && s.animType == LinearRamp ==> s.animPeriod != 0.0
  }

  /** The fields the step's routines read. */
  function ContextOf(s: Sim): Context {
    Context(s.numParticles, s.numCells, s.bounds)
  }

  /** The device memory of a simulation. */
  function DeviceOf(s: Sim): Device {
    Device(s.particles, s.scratch)
  }

  /** The grid build: scratch reset, prediction and the neighbour search. */
  function Prologue(s: Sim): seq<Event> {
    var ctx := ContextOf(s);
    ResetQuantitiesTrace(ctx) + PredictPositionsTrace(ctx) + FindNeighboringParticlesTrace(ctx)
  }

  /** Curl and integration, then the queue drain. */
  function Epilogue(s: Sim): seq<Event> {
    UpdatePositionTrace(ContextOf(s)) + [Finish]
  }

  /** The events of one `step`, given the solver iteration count: the scratch
      reset, prediction, the grid build, the solver loop, curl and
      integration, the queue drain, and the bounds animation when enabled. */
  function StepTrace(s: Sim, iterations: int): (t: seq<Event>)
    ensures |t| == 10 + 4 * LoopCount(iterations) + (if s.animBounds then 1 else 0)
  {
    Prologue(s) + SolverLoop(iterations, ContextOf(s)) + Epilogue(s)
    + (if s.animBounds then [AnimateBounds] else [])
  }

  /** The order of the step's events: the seven grid-build events, the
      solver loop's four events per iteration, curl, integration and the
      queue drain, and last the bounds animation exactly when it is on. */
  lemma StepTraceShape(s: Sim, iterations: int)
    ensures var t := StepTrace(s, iterations);
            var n := s.numParticles; var c := s.numCells; var b := s.bounds;
            var N := LoopCount(iterations);
      && t[..7] == [Run(ResetParticleQuantities, n), Run(ResetCellQuantities, c),
                    Run(PredictPosition, n), RunIn(DiscretizeParticlePositions, n, b),
                    Run(PrefixSumScan, c), Run(CountSortParticlesByCell, n),
                    Run(FindParticleBins, n)]
      && (forall j :: 7 <= j < 7 + 4 * N ==>
            t[j] == [RunIn(EstimateDensity, n, b), RunIn(ComputeLambda, n, b),
                     RunIn(ComputePositionDelta, n, b),
                     Run(UpdatePositionDelta, n)][(j - 7) % 4])
      && t[7 + 4 * N .. 10 + 4 * N]
           == [RunIn(ComputeCurl, n, b), RunIn(UpdatePosition, n, b), Finish]
      && (s.animBounds ==> t[|t| - 1] == AnimateBounds)
      && (AnimateBounds in t <==> s.animBounds)
  {
    var ctx := ContextOf(s);
    var loop := SolverLoop(iterations, ctx);
    var anim := if s.animBounds then [AnimateBounds] else [];
    assert StepTrace(s, iterations) == Prologue(s) + loop + Epilogue(s) + anim;
    PrologueShape(s);
    assert SolverIteration(ctx)
      == [RunIn(EstimateDensity, s.numParticles, s.bounds),
          RunIn(ComputeLambda, s.numParticles, s.bounds),
          RunIn(ComputePositionDelta, s.numParticles, s.bounds),
          Run(UpdatePositionDelta, s.numParticles)];
    SplitFour(Prologue(s), loop, Epilogue(s), anim);
    SolverLoopDispatchesOnly(iterations, ctx);
    assert AnimateBounds !in Prologue(s) + loop + Epilogue(s);
  }

  lemma PrologueShape(s: Sim)
    ensures var n := s.numParticles; var c := s.numCells; var b := s.bounds;
      Prologue(s) == [Run(ResetParticleQuantities, n), Run(ResetCellQuantities, c),
                      Run(PredictPosition, n), RunIn(DiscretizeParticlePositions, n, b),
                      Run(PrefixSumScan, c), Run(CountSortParticlesByCell, n),
                      Run(FindParticleBins, n)]
  {
  }

  /** Where the four parts of a concatenation sit in it. */
  lemma SplitFour<T>(p: seq<T>, l: seq<T>, e: seq<T>, a: seq<T>)
    ensures var t := p + l + e + a;
      && t[..|p|] == p
      && (forall j :: |p| <= j < |p| + |l| ==> t[j] == l[j - |p|])
      && t[|p| + |l| .. |p| + |l| + |e|] == e
      && (a != [] ==> t[|t| - 1] == a[|a| - 1])
  {
  }

  /** Every dispatch of a step is sized by the particles, or by the cells
      for the cell reset and the scan, and is handed the step's box exactly
      when it takes one. */
  lemma StepConforms(s: Sim, iterations: int)
    ensures Conforms(StepTrace(s, iterations), ContextOf(s))
  {
    var ctx := ContextOf(s);
    var loop := SolverLoop(iterations, ctx);
    var anim := if s.animBounds then [AnimateBounds] else [];
    GridRoutinesConform(ctx);
    FinalRoutinesConform(ctx);
    SolverLoopConforms(iterations, ctx);
    ConformsAppend(ResetQuantitiesTrace(ctx), PredictPositionsTrace(ctx), ctx);
    ConformsAppend(ResetQuantitiesTrace(ctx) + PredictPositionsTrace(ctx),
                   FindNeighboringParticlesTrace(ctx), ctx);
    ConformsAppend(UpdatePositionTrace(ctx), [Finish], ctx);
    ConformsAppend(Prologue(s), loop, ctx);
    ConformsAppend(Prologue(s) + loop, Epilogue(s), ctx);
    ConformsAppend(Prologue(s) + loop + Epilogue(s), anim, ctx);
    assert StepTrace(s, iterations) == Prologue(s) + loop + Epilogue(s) + anim;
  }

  /** Every box a kernel of the step receives is the box as it stood when
      the step began: the animation runs only after all device work. */
  lemma StepKernelsSeePreStepBounds(s: Sim, iterations: int)
    ensures forall e :: e in StepTrace(s, iterations) && e.Dispatch? && e.arg.Box? ==>
              e.arg.box == s.bounds
  {
    StepConforms(s, iterations);
  }

  /** The kernels the step dispatches exactly once: the grid build before
      the solver loop, and curl and integration after it. */
  predicate IsOncePerStep(k: Kernel) {
    k == ResetParticleQuantities || k == ResetCellQuantities || k == PredictPosition
    || k == DiscretizeParticlePositions || k == PrefixSumScan
    || k == CountSortParticlesByCell || k == FindParticleBins
    || k == ComputeCurl || k == UpdatePosition
  }

  lemma PrologueCount(s: Sim, k: Kernel)
    ensures Count(Prologue(s), k)
      == (if IsOncePerStep(k) && k != ComputeCurl && k != UpdatePosition then 1 else 0)
  {
    var ctx := ContextOf(s);
    var a := ResetQuantitiesTrace(ctx) + PredictPositionsTrace(ctx);
    var b := FindNeighboringParticlesTrace(ctx);
    CountAppend(a, b, k);
    ResetAndPredictCount(ctx, k);
    NeighbourSearchCount(ctx, k);
  }

  /** `resetQuantities` and `predictPositions` dispatch the two reset
      kernels and the prediction once each and no other kernel. */
  lemma ResetAndPredictCount(ctx: Context, k: Kernel)
    ensures Count(ResetQuantitiesTrace(ctx) + PredictPositionsTrace(ctx), k)
      == (if k == ResetParticleQuantities || k == ResetCellQuantities || k == PredictPosition
          then 1 else 0)
  {
    var a := ResetQuantitiesTrace(ctx) + PredictPositionsTrace(ctx);
    assert a == [a[0], a[1], a[2]];
    CountOfTriple(a[0], a[1], a[2], k);
  }

  /** `findNeighboringParticles` dispatches discretization, the prefix scan,
      the counting sort and the bin search once each and no other kernel. */
  lemma NeighbourSearchCount(ctx: Context, k: Kernel)
    ensures Count(FindNeighboringParticlesTrace(ctx), k)
      == (if k == DiscretizeParticlePositions || k == PrefixSumScan
             || k == CountSortParticlesByCell || k == FindParticleBins then 1 else 0)
  {
    var d := DiscretizeParticlePositionsTrace(ctx);
    var t := SortParticlesByCellTrace(ctx);
    CountAppend(d, t, k);
    CountOfSingleton(d[0], k);
    CountOfTriple(t[0], t[1], t[2], k);
  }

  lemma EpilogueCount(s: Sim, k: Kernel)
    ensures Count(Epilogue(s), k) == (if k == ComputeCurl || k == UpdatePosition then 1 else 0)
  {
    var u := UpdatePositionTrace(ContextOf(s));
    assert Epilogue(s) == [u[0], u[1], Finish];
    CountOfTriple(u[0], u[1], Finish, k);
  }

  /** The step dispatches each grid-build and integration kernel once, each
      solver kernel once per iteration, and never the collision kernel. */
  lemma {:induction false} StepDispatchCounts(s: Sim, iterations: int, k: Kernel)
    ensures Count(StepTrace(s, iterations), k)
      == (if IsOncePerStep(k) then 1
          else if IsSolverKernel(k) then LoopCount(iterations)
          else 0)
    ensures Count(StepTrace(s, iterations), ResolveCollisions) == 0
  {
    var loop := SolverLoop(iterations, ContextOf(s));
    var anim := if s.animBounds then [AnimateBounds] else [];
    forall k' | true
      ensures Count(StepTrace(s, iterations), k')
        == (if IsOncePerStep(k') then 1
            else if IsSolverKernel(k') then LoopCount(iterations)
            else 0)
    {
      assert StepTrace(s, iterations) == Prologue(s) + loop + Epilogue(s) + anim;
      CountAppend(Prologue(s) + loop + Epilogue(s), anim, k');
      CountAppend(Prologue(s) + loop, Epilogue(s), k');
      CountAppend(Prologue(s), loop, k');
      PrologueCount(s, k');
      EpilogueCount(s, k');
      SolverLoopCounts(iterations, ContextOf(s), k');
      CountOfSingleton(AnimateBounds, k');
    }
  }

  datatype StepResult = StepResult(sim: Sim, trace: seq<Event>)

  /** `step`: dispatch the trace, run it against device memory, animate the
      bounds when enabled, and count the frame. */
  function Step(s: Sim, consts: Constants, trig: Trig, effect: KernelEffect): (r: StepResult)
    requires Animatable(s)
    ensures r.trace == StepTrace(s, consts.solverIterations)
    ensures DeviceOf(r.sim) == Execute(effect, r.trace, DeviceOf(s))
    ensures r.sim.frameNumber == Inc(s.frameNumber)
    ensures r.sim.animFrameNumber == (if s.animBounds then Inc(s.animFrameNumber) else s.animFrameNumber)
    ensures !s.animBounds ==> r.sim.bounds == s.bounds
    ensures s.animBounds ==> r.sim.bounds == StepBoundsAnimation(s, trig).bounds
    ensures r.sim.(frameNumber := s.frameNumber, animFrameNumber := s.animFrameNumber,
                   bounds := s.bounds, particles := s.particles, scratch := s.scratch) == s
  {
    var trace := StepTrace(s, consts.solverIterations);
    var d := Execute(effect, trace, DeviceOf(s));
    var physics := s.(particles := d.particles, scratch := d.scratch);
    var animated := if s.animBounds then StepBoundsAnimation(physics, trig) else physics;
    StepResult(animated.(frameNumber := Inc(s.frameNumber)), trace)
  }

  /** `k` steps in a row. Steps only advance the counters, move the box and
      change device memory; the configuration stays as it was. */
  function Steps(s: Sim, consts: Constants, trig: Trig, effect: KernelEffect, k: nat): (r: Sim)
    requires Animatable(s)
    ensures Animatable(r)
    ensures r.(frameNumber := s.frameNumber, animFrameNumber := s.animFrameNumber,
               bounds := s.bounds, particles := s.particles, scratch := s.scratch) == s
    decreases k
  {
    if k == 0 then s else Steps(Step(s, consts, trig, effect).sim, consts, trig, effect, k - 1)
  }

  /** After `k` steps the frame counter has advanced by `k`, modulo 2^32, and
      the animation counter likewise when the animation is on. */
  lemma {:induction false} StepsCountFrames(s: Sim, consts: Constants, trig: Trig,
                                            effect: KernelEffect, k: nat)
    requires Animatable(s)
    ensures var r := Steps(s, consts, trig, effect, k);
      && r.frameNumber == AddWrapping(s.frameNumber, k)
      && r.animFrameNumber == (if s.animBounds then AddWrapping(s.animFrameNumber, k)
                               else s.animFrameNumber)
    decreases k
  {
    if k > 0 {
      var s' := Step(s, consts, trig, effect).sim;
      StepCounters(s, consts, trig, effect);
      assert Steps(s, consts, trig, effect, k) == Steps(s', consts, trig, effect, k - 1);
      StepsCountFrames(s', consts, trig, effect, k - 1);
      IncAddWrapping(s.frameNumber, k - 1);
      IncAddWrapping(s.animFrameNumber, k - 1);
    }
  }

  /** One step's effect on the two counters and the flag that governs the
      animation counter. */
  lemma StepCounters(s: Sim, consts: Constants, trig: Trig, effect: KernelEffect)
    requires Animatable(s)
    ensures var r := Step(s, consts, trig, effect).sim;
      && r.frameNumber == Inc(s.frameNumber) && r.animBounds == s.animBounds
      && r.animFrameNumber == (if s.animBounds then Inc(s.animFrameNumber) else s.animFrameNumber)
      && Animatable(r)
  {
  }

  /** The solver loop works on the device memory the grid build left, and
      curl and integration on what the solver loop left. */
  lemma StepPhasesCompose(s: Sim, consts: Constants, trig: Trig, effect: KernelEffect)
    requires Animatable(s)
    ensures var loop := SolverLoop(consts.solverIterations, ContextOf(s));
      DeviceOf(Step(s, consts, trig, effect).sim)
        == Execute(effect, Epilogue(s), Execute(effect, loop, Execute(effect, Prologue(s), DeviceOf(s))))
  {
    var loop := SolverLoop(consts.solverIterations, ContextOf(s));
    var anim := if s.animBounds then [AnimateBounds] else [];
    var d := DeviceOf(s);
    assert StepTrace(s, consts.solverIterations) == Prologue(s) + loop + Epilogue(s) + anim;
    ExecuteAppend(effect, Prologue(s) + loop + Epilogue(s), anim, d);
    ExecuteAppend(effect, Prologue(s) + loop, Epilogue(s), d);
    ExecuteAppend(effect, Prologue(s), loop, d);
    var after := Execute(effect, Prologue(s) + loop + Epilogue(s), d);
    if s.animBounds {
      assert Execute(effect, anim, after) == Execute(effect, [], after);
    }
  }

  /** A step keeps the cell total consistent with the grid. */
  lemma StepKeepsValid(s: Sim, consts: Constants, trig: Trig, effect: KernelEffect)
    requires Animatable(s) && Valid(s)
    ensures Valid(Step(s, consts, trig, effect).sim)
  {
  }

  /** `resetBounds`. */
  function ResetBounds(s: Sim): (r: Sim)
    ensures r.animFrameNumber == 0
    ensures r.bounds == s.originalBounds && r.originalBounds == s.originalBounds
    ensures r.(animFrameNumber := s.animFrameNumber, bounds := s.bounds) == s
  {
    s.(animFrameNumber := 0, bounds := s.originalBounds)
  }

  /** Whatever box `setBounds` installed, `resetBounds` restores the
      original one, and it is idempotent. */
  lemma ResetBoundsUndoesSetBounds(s: Sim, b: AABB)
    ensures ResetBounds(SetBounds(s, b)) == ResetBounds(s)
    ensures ResetBounds(ResetBounds(s)) == ResetBounds(s)
  {
  }

  /** `initializeBuffers` on an existing simulation: recomputes the cell
      total, reallocates the scratch buffers (contents given, as the program
      does not set them) and reseeds the particles from the current box. */
  function InitializeBuffers(s: Sim, scratch: Scratch, draws: seq<Vec3>): (r: Sim)
    requires DrawsFor(s.numParticles, draws)
    ensures Valid(r)
    ensures r.particles == SeedAll(s.bounds, s.particleRadius, draws)
    ensures r.scratch == scratch
    ensures r.(numCells := s.numCells, particles := s.particles, scratch := s.scratch) == s
  {
    s.(numCells := NumCells(s.cellsPerAxis),
       particles := SeedAll(s.bounds, s.particleRadius, draws),
       scratch := scratch)
  }

  /** `reset`: frame counter to zero, buffers reinitialized (seeding from
      the box as it stands before the reset), then `resetBounds`. */
  function Reset(s: Sim, scratch: Scratch, draws: seq<Vec3>): (r: Sim)
    requires DrawsFor(s.numParticles, draws)
    ensures r.frameNumber == 0 && r.animFrameNumber == 0
    ensures r.bounds == s.originalBounds && r.originalBounds == s.originalBounds
    ensures r.numParticles == s.numParticles && r.cellsPerAxis == s.cellsPerAxis
    ensures Valid(r) && (Valid(s) ==> r.numCells == s.numCells)
    ensures |r.particles| == LoopCount(s.numParticles)
    ensures forall i :: 0 <= i < |r.particles| ==>
              r.particles[i].posStar == Zero && r.particles[i].vel == Zero
    ensures forall i :: 0 <= i < |r.particles| ==>
              InSeedRange(s.bounds, s.particleRadius, r.particles[i].pos)
    ensures RadiusFits(s.bounds, s.particleRadius) && WrittenTopInBox(s.bounds, s.particleRadius) ==>
              forall i :: 0 <= i < |r.particles| ==> s.bounds.Contains(r.particles[i].pos)
    ensures r.scratch == scratch
    ensures r.(frameNumber := s.frameNumber, animFrameNumber := s.animFrameNumber,
               bounds := s.bounds, numCells := s.numCells, particles := s.particles,
               scratch := s.scratch) == s
  {
    ResetBounds(InitializeBuffers(s.(frameNumber := 0), scratch, draws))
  }

  /** Resetting a freshly built simulation with the same buffer contents and
      random draws gives back the same simulation. */
  lemma ResetOfFreshSimulation(bounds: AABB, numParticles: int, dt: real, cellsPerAxis: Vec3,
                               radius: real, scratch: Scratch, draws: seq<Vec3>)
    requires DrawsFor(numParticles, draws)
    ensures var s := CreateWithGrid(bounds, numParticles, dt, cellsPerAxis, radius, scratch, draws);
      Reset(s, scratch, draws) == s
  {
  }

  /** After a reset, `getFrameNumber` reports the number of steps taken
      since, as long as the counter has not wrapped. */
  lemma FrameNumberCountsStepsSinceReset(s: Sim, scratch: Scratch, draws: seq<Vec3>,
                                         consts: Constants, trig: Trig, effect: KernelEffect,
                                         k: nat)
    requires DrawsFor(s.numParticles, draws) && Animatable(s) && k < Modulus
    ensures Animatable(Reset(s, scratch, draws))
    ensures GetFrameNumber(Steps(Reset(s, scratch, draws), consts, trig, effect, k)) == k
    ensures s.animBounds ==>
              Steps(Reset(s, scratch, draws), consts, trig, effect, k).animFrameNumber == k
  {
    StepsCountFrames(Reset(s, scratch, draws), consts, trig, effect, k);
  }
}
