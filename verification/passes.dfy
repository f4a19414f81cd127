/** The device work one step dispatches, as a trace of events. Each kernel
    is opaque: an event records which kernel ran, the size the host passed
    with it, and which box it was handed when it takes one. */
module Passes {
  import opened Geometry
  import opened Seeding

  /** The OpenCL kernels the step launches, plus `PrefixSumScan`, which
      stands for the call into the `PrefixSum` helper: the host hands it a
      scan length, and the launches it makes inside are not modelled. */
  datatype Kernel =
    | ResetParticleQuantities
    | ResetCellQuantities
    | PredictPosition
    | DiscretizeParticlePositions
    | PrefixSumScan
    | CountSortParticlesByCell
    | FindParticleBins
    | EstimateDensity
    | ComputeLambda
    | ComputePositionDelta
    | UpdatePositionDelta
    | ResolveCollisions
    | ComputeCurl
    | UpdatePosition

  /** The box argument a kernel receives, if any. */
  datatype BoxArg = NoBox | Box(box: AABB)

  /** `size` is the work-item count of a kernel launch, or the scan length
      of the prefix sum. */
  datatype Event =
    | Dispatch(kernel: Kernel, size: int, arg: BoxArg)
      /** The host waits for the device queue to drain. */
    | Finish
      /** The host advances the bounds animation. */
    | AnimateBounds

  /** The device's scratch buffers, sized by `initializeBuffers` and
      written and read only by kernels. The entry layouts are the kernels'
      business; the model carries the contents from one kernel to the next. */
  datatype Scratch = Scratch(
    particleToCell: seq<(int, int)>,
    cellHistogram: seq<int>,
    cellPrefixSums: seq<int>,
    sortedParticleToCell: seq<(int, int)>,
    gridCellOffsets: seq<(int, int)>,
    density: seq<real>,
    lambda: seq<real>,
    curl: seq<Vec3>,
    extForces: seq<Vec3>,
    posDelta: seq<Vec3>)

  /** Device memory: the particle buffer and the scratch buffers. */
  datatype Device = Device(particles: seq<Particle>, scratch: Scratch)

  /** The opaque effect of one dispatched kernel on device memory. */
  type KernelEffect = (Kernel, int, BoxArg, Device) -> Device

  /** Runs a trace against device memory, in order; host events leave it
      alone. */
  function Execute(effect: KernelEffect, trace: seq<Event>, d: Device): Device
    decreases |trace|
  {
    if trace == [] then d
    else
      var d' := match trace[0]
        case Dispatch(k, n, a) => effect(k, n, a, d)
        case _ => d;
      Execute(effect, trace[1..], d')
  }

  /** Running two traces back to back is running their concatenation. */
  lemma {:induction false} ExecuteAppend(effect: KernelEffect, a: seq<Event>, b: seq<Event>,
                                         d: Device)
    ensures Execute(effect, a + b, d) == Execute(effect, b, Execute(effect, a, d))
    decreases |a|
  {
    if a != [] {
      assert (a + b)[0] == a[0];
      assert (a + b)[1..] == a[1..] + b;
      var d' := match a[0]
        case Dispatch(k, n, x) => effect(k, n, x, d)
        case _ => d;
      ExecuteAppend(effect, a[1..], b, d');
    } else {
      assert a + b == b;
    }
  }

  /** Number of dispatches of kernel `k` in a trace. */
  function Count(trace: seq<Event>, k: Kernel): nat
    decreases |trace|
  {
    if trace == [] then 0
    else Ind(trace[0], k) + Count(trace[1..], k)
  }

  /** 1 when the event dispatches kernel `k`, else 0. */
  function Ind(e: Event, k: Kernel): nat {
    if e.Dispatch? && e.kernel == k then 1 else 0
  }

  lemma CountOfSingleton(x: Event, k: Kernel)
    ensures Count([x], k) == Ind(x, k)
  {
    assert [x][1..] == [];
    assert Count([x], k) == Ind(x, k) + Count([], k);
  }

  lemma CountOfPair(x: Event, y: Event, k: Kernel)
    ensures Count([x, y], k) == Ind(x, k) + Ind(y, k)
  {
    CountOfSingleton(y, k);
    assert [x, y][1..] == [y];
    assert Count([x, y], k) == Ind(x, k) + Count([y], k);
  }

  lemma CountOfTriple(x: Event, y: Event, z: Event, k: Kernel)
    ensures Count([x, y, z], k) == Ind(x, k) + Ind(y, k) + Ind(z, k)
  {
    CountOfPair(y, z, k);
    assert [x, y, z][1..] == [y, z];
    assert Count([x, y, z], k) == Ind(x, k) + Count([y, z], k);
  }

  lemma {:induction false} CountAppend(a: seq<Event>, b: seq<Event>, k: Kernel)
    ensures Count(a + b, k) == Count(a, k) + Count(b, k)
    decreases |a|
  {
    if a != [] {
      assert (a + b)[0] == a[0];
      assert (a + b)[1..] == a[1..] + b;
      CountAppend(a[1..], b, k);
    } else {
      assert a + b == b;
    }
  }

  /** The host fields the step's routines read. */
  datatype Context = Context(numParticles: int, numCells: int, bounds: AABB)

  /** The dispatches sized by the grid cells rather than the particles: the
      cell reset, launched over the cells, and the scan of the cell
      histogram, whose length is the cell count. */
  predicate OverCells(k: Kernel) {
    k == ResetCellQuantities || k == PrefixSumScan
  }

  /** The kernels whose arguments include the current box. */
  predicate TakesBox(k: Kernel) {
    k == DiscretizeParticlePositions || k == EstimateDensity || k == ComputeLambda
    || k == ComputePositionDelta || k == ResolveCollisions || k == ComputeCurl
    || k == UpdatePosition
  }

  /** How the routines dispatch: sized by `numCells` for the cell reset and
      the scan and by `numParticles` for the rest, and with the current box
      exactly for the kernels that take one. */
  predicate Conforms(t: seq<Event>, ctx: Context) {
    forall e :: e in t && e.Dispatch? ==>
      && e.size == (if OverCells(e.kernel) then ctx.numCells else ctx.numParticles)
      && e.arg == (if TakesBox(e.kernel) then Box(ctx.bounds) else NoBox)
  }

  function Run(k: Kernel, n: int): Event { Dispatch(k, n, NoBox) }
  function RunIn(k: Kernel, n: int, b: AABB): Event { Dispatch(k, n, Box(b)) }

  // One function per host routine of the step, in source order.

  /** `resetQuantities`: per-particle then per-cell scratch reset. */
  function ResetQuantitiesTrace(ctx: Context): (t: seq<Event>) {
    [Run(ResetParticleQuantities, ctx.numParticles), Run(ResetCellQuantities, ctx.numCells)]
  }

  /** `predictPositions`. */
  function PredictPositionsTrace(ctx: Context): (t: seq<Event>) {
    [Run(PredictPosition, ctx.numParticles)]
  }

  /** `discretizeParticlePositions`: handed the current box. */
  function DiscretizeParticlePositionsTrace(ctx: Context): (t: seq<Event>) {
    [RunIn(DiscretizeParticlePositions, ctx.numParticles, ctx.bounds)]
  }

  /** `sortParticlesByCell`: scan of the cell histogram, counting sort,
      then the per-cell (start, length) table. */
  function SortParticlesByCellTrace(ctx: Context): (t: seq<Event>) {
    [Run(PrefixSumScan, ctx.numCells), Run(CountSortParticlesByCell, ctx.numParticles),
     Run(FindParticleBins, ctx.numParticles)]
  }

  /** `findNeighboringParticles`. */
  function FindNeighboringParticlesTrace(ctx: Context): (t: seq<Event>) {
    DiscretizeParticlePositionsTrace(ctx) + SortParticlesByCellTrace(ctx)
  }

  /** `calculateDensity`. */
  function CalculateDensityTrace(ctx: Context): (t: seq<Event>) {
    [RunIn(EstimateDensity, ctx.numParticles, ctx.bounds)]
  }

  /** `calculatePositionDelta`: lambda, then the position delta. */
  function CalculatePositionDeltaTrace(ctx: Context): (t: seq<Event>) {
    [RunIn(ComputeLambda, ctx.numParticles, ctx.bounds),
     RunIn(ComputePositionDelta, ctx.numParticles, ctx.bounds)]
  }

  /** `updatePositionDelta`: applies the deltas. */
  function UpdatePositionDeltaTrace(ctx: Context): (t: seq<Event>) {
    [Run(UpdatePositionDelta, ctx.numParticles)]
  }

  /** `handleCollisions`: clamps to the box. The step does not call it. */
  function HandleCollisionsTrace(ctx: Context): (t: seq<Event>)
    ensures Count(t, ResolveCollisions) == 1
  {
    CountOfSingleton(RunIn(ResolveCollisions, ctx.numParticles, ctx.bounds), ResolveCollisions);
    [RunIn(ResolveCollisions, ctx.numParticles, ctx.bounds)]
  }

  /** `updatePosition`: vorticity curl, then the final integration. */
  function UpdatePositionTrace(ctx: Context): (t: seq<Event>) {
    [RunIn(ComputeCurl, ctx.numParticles, ctx.bounds),
     RunIn(UpdatePosition, ctx.numParticles, ctx.bounds)]
  }

  /** The body of the solver loop. */
  function SolverIteration(ctx: Context): (t: seq<Event>) {
    CalculateDensityTrace(ctx) + CalculatePositionDeltaTrace(ctx) + UpdatePositionDeltaTrace(ctx)
  }

  /** `for (int i = 0; i < N; i++)` over the solver iteration: the trace is
      the iteration's four events repeated once per iteration. */
  function SolverLoop(iterations: int, ctx: Context): (t: seq<Event>)
    ensures |t| == 4 * LoopCount(iterations)
    ensures forall j :: 0 <= j < |t| ==> t[j] == SolverIteration(ctx)[j % 4]
    decreases LoopCount(iterations)
  {
    if iterations <= 0 then []
    else
      var prev := SolverLoop(iterations - 1, ctx);
      var it := SolverIteration(ctx);
      assert forall j :: |prev| <= j < |prev| + 4 ==> j % 4 == j - |prev| by {
        forall j | |prev| <= j < |prev| + 4
          ensures j % 4 == j - |prev|
        {
          ModOfShift(j - |prev|, iterations - 1);
        }
      }
      prev + it
  }

  lemma ModOfShift(m: int, q: int)
    requires 0 <= m < 4 && 0 <= q
    ensures (4 * q + m) % 4 == m
  {
  }

  /** The discipline survives concatenation. */
  lemma ConformsAppend(a: seq<Event>, b: seq<Event>, ctx: Context)
    requires Conforms(a, ctx) && Conforms(b, ctx)
    ensures Conforms(a + b, ctx)
  {
  }

  // Every routine of the step dispatches with the right size and hands the
  // current box to exactly the kernels that take one.

  /** The routines of the grid build. */
  lemma GridRoutinesConform(ctx: Context)
    ensures Conforms(ResetQuantitiesTrace(ctx), ctx)
    ensures Conforms(PredictPositionsTrace(ctx), ctx)
    ensures Conforms(DiscretizeParticlePositionsTrace(ctx), ctx)
    ensures Conforms(SortParticlesByCellTrace(ctx), ctx)
    ensures Conforms(FindNeighboringParticlesTrace(ctx), ctx)
  {
    assert Conforms(DiscretizeParticlePositionsTrace(ctx), ctx);
    assert Conforms(SortParticlesByCellTrace(ctx), ctx);
  }

  /** The routines of the solver loop's body, and the body itself. */
  lemma SolverRoutinesConform(ctx: Context)
    ensures Conforms(CalculateDensityTrace(ctx), ctx)
    ensures Conforms(CalculatePositionDeltaTrace(ctx), ctx)
    ensures Conforms(UpdatePositionDeltaTrace(ctx), ctx)
    ensures Conforms(SolverIteration(ctx), ctx)
  {
    assert Conforms(CalculateDensityTrace(ctx), ctx);
    assert Conforms(CalculatePositionDeltaTrace(ctx), ctx);
    assert Conforms(UpdatePositionDeltaTrace(ctx), ctx);
  }

  /** Collision handling and the final integration. */
  lemma FinalRoutinesConform(ctx: Context)
    ensures Conforms(HandleCollisionsTrace(ctx), ctx)
    ensures Conforms(UpdatePositionTrace(ctx), ctx)
  {
  }

  /** The whole solver loop keeps that discipline. */
  lemma {:induction false} SolverLoopConforms(iterations: int, ctx: Context)
    ensures Conforms(SolverLoop(iterations, ctx), ctx)
    decreases LoopCount(iterations)
  {
    if iterations > 0 {
      SolverLoopConforms(iterations - 1, ctx);
      SolverRoutinesConform(ctx);
      assert SolverLoop(iterations, ctx)
        == SolverLoop(iterations - 1, ctx) + SolverIteration(ctx);
    }
  }

  /** The solver loop holds kernel dispatches only, no host events. */
  lemma {:induction false} SolverLoopDispatchesOnly(iterations: int, ctx: Context)
    ensures forall e :: e in SolverLoop(iterations, ctx) ==> e.Dispatch?
    decreases LoopCount(iterations)
  {
    if iterations > 0 {
      SolverLoopDispatchesOnly(iterations - 1, ctx);
      assert SolverLoop(iterations, ctx)
        == SolverLoop(iterations - 1, ctx) + SolverIteration(ctx);
    }
  }

  /** The four kernels of one solver iteration. */
  predicate IsSolverKernel(k: Kernel) {
    k == EstimateDensity || k == ComputeLambda || k == ComputePositionDelta
    || k == UpdatePositionDelta
  }

  /** One solver iteration runs each of its four kernels once and no other. */
  lemma IterationCount(ctx: Context, k: Kernel)
    ensures Count(SolverIteration(ctx), k) == (if IsSolverKernel(k) then 1 else 0)
  {
    var d := CalculateDensityTrace(ctx);
    var p := CalculatePositionDeltaTrace(ctx);
    var u := UpdatePositionDeltaTrace(ctx);
    CountAppend(d + p, u, k);
    CountAppend(d, p, k);
    CountOfSingleton(d[0], k);
    CountOfPair(p[0], p[1], k);
    CountOfSingleton(u[0], k);
  }

  /** The solver loop runs each of its four kernels exactly once per
      iteration. */
  lemma {:induction false} SolverLoopCounts(iterations: int, ctx: Context, k: Kernel)
    ensures Count(SolverLoop(iterations, ctx), k)
      == (if IsSolverKernel(k) then LoopCount(iterations) else 0)
    decreases LoopCount(iterations)
  {
    if iterations > 0 {
      SolverLoopCounts(iterations - 1, ctx, k);
      var prev := SolverLoop(iterations - 1, ctx);
      var it := SolverIteration(ctx);
      assert SolverLoop(iterations, ctx) == prev + it;
      CountAppend(prev, it, k);
      IterationCount(ctx, k);
    }
  }
}
