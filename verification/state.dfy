/** The host-side state of one simulation (the fields of `Simulation`), its
    two constructors, and the inline accessors and animation-control setters. */
module SimState {
  import opened Geometry
  import opened Unsigned
  import opened Grid
  import opened Seeding
  import opened Passes

  datatype AnimationType = SineWave | LinearRamp | Compress

  /** Compile-time constants the constructors read: the default time step,
      the solver iteration count and the per-axis particles-per-cell targets. */
  datatype Constants = Constants(defaultDt: real, solverIterations: int, particlesPerCell: Vec3)

  /** The simulation state. `particles` is the particle buffer and `scratch`
      the device's other buffers (cell tables, densities, lambdas, curl,
      deltas). Of the simulation parameters only the particle radius is
      read by the host. */
  datatype Sim = Sim(
    frameNumber: U32,
    numCells: int,
    animBounds: bool,
    animFrameNumber: U32,
    animType: AnimationType,
    animPeriod: real,
    animAmp: real,
    animBothSides: bool,
    originalBounds: AABB,
    bounds: AABB,
    dt: real,
    cellsPerAxis: Vec3,
    numParticles: int,
    particleRadius: real,
    particles: seq<Particle>,
    scratch: Scratch)

  /** The cell total matches the grid resolution, as `initializeBuffers`
      establishes and nothing else changes. */
  predicate Valid(s: Sim) {
    s.numCells == NumCells(s.cellsPerAxis)
  }

  /** The random draws one seeding consumes: one triple per loop iteration. */
  predicate DrawsFor(numParticles: int, draws: seq<Vec3>) {
    |draws| == LoopCount(numParticles) && AreDraws(draws)
  }

  /** The initializer list shared by both constructors, followed by
      `initializeBuffers`: cell total, freshly allocated scratch buffers
      (whose contents the program does not set, so they are a parameter) and
      a fresh seeding from the ranges the loop writes. */
  function Initial(bounds: AABB, numParticles: int, dt: real, cellsPerAxis: Vec3,
                   radius: real, scratch: Scratch, draws: seq<Vec3>): (s: Sim)
    requires DrawsFor(numParticles, draws)
    ensures Valid(s)
    ensures s.frameNumber == 0 && s.animFrameNumber == 0
    ensures !s.animBounds && !s.animBothSides && s.animType == SineWave
    ensures s.animPeriod == 1.0 && s.animAmp == 10.0
    ensures s.bounds == bounds && s.originalBounds == bounds
    ensures s.numParticles == numParticles && s.particleRadius == radius && s.dt == dt
    ensures s.cellsPerAxis == cellsPerAxis && s.scratch == scratch
    ensures |s.particles| == LoopCount(numParticles)
    ensures forall i :: 0 <= i < |s.particles| ==>
              s.particles[i].posStar == Zero && s.particles[i].vel == Zero
    ensures forall i :: 0 <= i < |s.particles| ==> InSeedRange(bounds, radius, s.particles[i].pos)
    ensures RadiusFits(bounds, radius) && WrittenTopInBox(bounds, radius) ==>
              forall i :: 0 <= i < |s.particles| ==> bounds.Contains(s.particles[i].pos)
  {
    Sim(frameNumber := 0,
        numCells := NumCells(cellsPerAxis),
        animBounds := false,
        animFrameNumber := 0,
        animType := SineWave,
        animPeriod := 1.0,
        animAmp := 10.0,
        animBothSides := false,
        originalBounds := bounds,
        bounds := bounds,
        dt := dt,
        cellsPerAxis := cellsPerAxis,
        numParticles := numParticles,
        particleRadius := radius,
        particles := SeedAll(bounds, radius, draws),
        scratch := scratch)
  }

  /** The first constructor: the default time step and a grid resolution
      chosen by `findIdealParticleCount` from the box and the radius. */
  function Create(bounds: AABB, numParticles: int, radius: real, consts: Constants,
                  scratch: Scratch, draws: seq<Vec3>): (s: Sim)
    requires radius != 0.0
    requires consts.particlesPerCell.x != 0.0 && consts.particlesPerCell.y != 0.0
             && consts.particlesPerCell.z != 0.0
    requires DrawsFor(numParticles, draws)
    ensures Valid(s)
    ensures s.dt == consts.defaultDt
    ensures s.cellsPerAxis == FindIdealParticleCount(bounds, radius, consts.particlesPerCell)
    ensures s == Initial(bounds, numParticles, consts.defaultDt, s.cellsPerAxis, radius,
                         scratch, draws)
  {
    Initial(bounds, numParticles, consts.defaultDt,
            FindIdealParticleCount(bounds, radius, consts.particlesPerCell), radius, scratch, draws)
  }

  /** The second constructor: time step and grid resolution are given. */
  function CreateWithGrid(bounds: AABB, numParticles: int, dt: real, cellsPerAxis: Vec3,
                          radius: real, scratch: Scratch, draws: seq<Vec3>): (s: Sim)
    requires DrawsFor(numParticles, draws)
    ensures Valid(s)
    ensures s.dt == dt && s.cellsPerAxis == cellsPerAxis
    ensures s == Initial(bounds, numParticles, dt, cellsPerAxis, radius, scratch, draws)
  {
    Initial(bounds, numParticles, dt, cellsPerAxis, radius, scratch, draws)
  }

  /** A box with positive extents gets a grid of at least one cell from the
      first constructor, whose cell total is the product of the per-axis
      ceilings of extent / radius / target. */
  lemma CreateHasCells(bounds: AABB, numParticles: int, radius: real, consts: Constants,
                       scratch: Scratch, draws: seq<Vec3>)
    requires 0.0 < radius
    requires 0.0 < consts.particlesPerCell.x && 0.0 < consts.particlesPerCell.y
             && 0.0 < consts.particlesPerCell.z
    requires 0.0 < bounds.Width() && 0.0 < bounds.Height() && 0.0 < bounds.Depth()
    requires DrawsFor(numParticles, draws)
    ensures var s := Create(bounds, numParticles, radius, consts, scratch, draws);
      && 1 <= s.numCells
      && s.numCells == CellCount(bounds.Width(), radius, consts.particlesPerCell.x)
                     * CellCount(bounds.Height(), radius, consts.particlesPerCell.y)
                     * CellCount(bounds.Depth(), radius, consts.particlesPerCell.z)
  {
    IdealGridHasCells(bounds, radius, consts.particlesPerCell);
  }

  // Accessors

  /** `getFrameNumber`. */
  function GetFrameNumber(s: Sim): (n: U32)
    ensures n == s.frameNumber
  {
    s.frameNumber
  }

  /** `getNumberOfParticles`: the signed count read back as `unsigned int`. */
  function GetNumberOfParticles(s: Sim): (n: U32)
    ensures 0 <= s.numParticles < Modulus ==> n == s.numParticles
    ensures -Modulus <= s.numParticles < 0 ==> n == s.numParticles + Modulus
  {
    FromInt(s.numParticles)
  }

  /** `getNumberOfCells`: the signed total read back as `unsigned int`. */
  function GetNumberOfCells(s: Sim): (n: U32)
    ensures 0 <= s.numCells < Modulus ==> n == s.numCells
    ensures -Modulus <= s.numCells < 0 ==> n == s.numCells + Modulus
  {
    FromInt(s.numCells)
  }

  // Setters: each overwrites one field and leaves every other field alone.

  /** `setBounds`: replaces the current box, never the original one. */
  function SetBounds(s: Sim, b: AABB): (r: Sim)
    ensures r.bounds == b && r.originalBounds == s.originalBounds
    ensures r.(bounds := s.bounds) == s
  {
    s.(bounds := b)
  }

  function EnableBoundsAnimation(s: Sim): (r: Sim)
    ensures r.animBounds
    ensures r.(animBounds := s.animBounds) == s
  {
    s.(animBounds := true)
  }

  function DisableBoundsAnimation(s: Sim): (r: Sim)
    ensures !r.animBounds
    ensures r.(animBounds := s.animBounds) == s
  {
    s.(animBounds := false)
  }

  function EnableBothSidesAnimation(s: Sim): (r: Sim)
    ensures r.animBothSides
    ensures r.(animBothSides := s.animBothSides) == s
  {
    s.(animBothSides := true)
  }

  function DisableBothSidesAnimation(s: Sim): (r: Sim)
    ensures !r.animBothSides
    ensures r.(animBothSides := s.animBothSides) == s
  {
    s.(animBothSides := false)
  }

  function SetAnimationType(s: Sim, t: AnimationType): (r: Sim)
    ensures r.animType == t
    ensures r.(animType := s.animType) == s
  {
    s.(animType := t)
  }

  function SetAnimationPeriod(s: Sim, period: real): (r: Sim)
    ensures r.animPeriod == period
    ensures r.(animPeriod := s.animPeriod) == s
  {
    s.(animPeriod := period)
  }

  function SetAnimationAmp(s: Sim, amp: real): (r: Sim)
    ensures r.animAmp == amp
    ensures r.(animAmp := s.animAmp) == s
  {
    s.(animAmp := amp)
  }

  /** Enabling then disabling the animation (or the reverse) leaves only the
      last call's effect: the flag toggles are idempotent overwrites. */
  lemma AnimationFlagLastWins(s: Sim)
    ensures DisableBoundsAnimation(EnableBoundsAnimation(s)) == DisableBoundsAnimation(s)
    ensures EnableBoundsAnimation(DisableBoundsAnimation(s)) == EnableBoundsAnimation(s)
    ensures EnableBoundsAnimation(EnableBoundsAnimation(s)) == EnableBoundsAnimation(s)
    ensures DisableBothSidesAnimation(EnableBothSidesAnimation(s)) == DisableBothSidesAnimation(s)
    ensures EnableBothSidesAnimation(DisableBothSidesAnimation(s)) == EnableBothSidesAnimation(s)
  {
  }

  /** Every setter keeps the cell total consistent with the grid. */
  lemma SettersKeepValid(s: Sim, b: AABB, t: AnimationType, x: real)
    requires Valid(s)
    ensures Valid(SetBounds(s, b)) && Valid(SetAnimationType(s, t))
    ensures Valid(SetAnimationPeriod(s, x)) && Valid(SetAnimationAmp(s, x))
    ensures Valid(EnableBoundsAnimation(s)) && Valid(DisableBoundsAnimation(s))
    ensures Valid(EnableBothSidesAnimation(s)) && Valid(DisableBothSidesAnimation(s))
  {
  }
}
