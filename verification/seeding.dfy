/** The particle records and the seeding loop of `initializeBuffers`: every
    particle gets a random position drawn from the box inset by the particle
    radius along x and z, and from `min.y + radius` to a quarter of
    `max.y - radius` along y, a zero predicted position and a zero velocity. */
module Seeding {
  import opened Geometry

  /** One particle: current position, predicted position, velocity. The
      fourth (alignment) component of each float4 is not modelled. */
  datatype Particle = Particle(pos: Vec3, posStar: Vec3, vel: Vec3)

  /** `ofRandom(lo, hi)` as a choice driven by a draw `u` in [0, 1]: every
      value between the two arguments, in either order, is reachable. */
  function Random(lo: real, hi: real, u: real): (r: real)
    requires 0.0 <= u <= 1.0
    ensures lo <= hi ==> lo <= r <= hi
    ensures hi <= lo ==> hi <= r <= lo
  {
    var d := hi - lo;
    var s := d * u;
    ScaleWithin(d, u);
    lo + s
  }

  lemma ScaleWithin(d: real, u: real)
    requires 0.0 <= u <= 1.0
    ensures 0.0 <= d ==> 0.0 <= d * u <= d
    ensures d <= 0.0 ==> d <= d * u <= 0.0
  {
    if 0.0 <= d {
      assert d * u <= d * 1.0;
    } else {
      assert d * 1.0 <= d * u;
    }
  }

  lemma RandomReachesAll(lo: real, hi: real, v: real)
    requires lo <= v <= hi || hi <= v <= lo
    ensures exists u :: 0.0 <= u <= 1.0 && Random(lo, hi, u) == v
  {
    if lo == hi {
      assert Random(lo, hi, 0.0) == v;
      return;
    }
    var d := hi - lo;
    var u := (v - lo) / d;
    assert u * d == v - lo;
    assert (1.0 - u) * d == hi - v;
    if lo < hi {
      NonNegativeFactor(u, d);
      NonNegativeFactor(1.0 - u, d);
    } else {
      assert u * (-d) == lo - v;
      assert (1.0 - u) * (-d) == v - hi;
      NonNegativeFactor(u, -d);
      NonNegativeFactor(1.0 - u, -d);
    }
    assert Random(lo, hi, u) == v;
  }

  lemma NonNegativeFactor(a: real, d: real)
    requires 0.0 < d && 0.0 <= a * d
    ensures 0.0 <= a
  {
  }

  predicate IsDraw(u: Vec3) {
    0.0 <= u.x <= 1.0 && 0.0 <= u.y <= 1.0 && 0.0 <= u.z <= 1.0
  }

  predicate AreDraws(draws: seq<Vec3>) {
    forall i :: 0 <= i < |draws| ==> IsDraw(draws[i])
  }

  /** The number of iterations of `for (int i = 0; i < n; i++)`. */
  function LoopCount(n: int): nat { if n < 0 then 0 else n }

  /** `v` lies between `a` and `b`, in whichever order they come. */
  predicate Between(v: real, a: real, b: real) {
    (a <= b ==> a <= v <= b) && (b <= a ==> b <= v <= a)
  }

  /** The radius is non-negative and no larger than any extent of the box. */
  predicate RadiusFits(bounds: AABB, radius: real) {
    0.0 <= radius && radius <= bounds.Width() && radius <= bounds.Height()
    && radius <= bounds.Depth()
  }

  /** Upper end of the y range as the loop writes it: a quarter of
      `max.y - radius`, measured from zero rather than from `min.y`. */
  function SeedTopYAsWritten(bounds: AABB, radius: real): real {
    0.25 * (bounds.max.y - radius)
  }

  /** The written top of the y range lies within the box's y extent. */
  predicate WrittenTopInBox(bounds: AABB, radius: real) {
    bounds.min.y <= SeedTopYAsWritten(bounds, radius) <= bounds.max.y
  }

  /** The ranges the loop body draws from: the box inset by the radius
      along x and z, and from `min.y + radius` to the written top along y. */
  predicate InSeedRange(bounds: AABB, radius: real, pos: Vec3) {
    && Between(pos.x, bounds.min.x + radius, bounds.max.x - radius)
    && Between(pos.y, bounds.min.y + radius, SeedTopYAsWritten(bounds, radius))
    && Between(pos.z, bounds.min.z + radius, bounds.max.z - radius)
  }

  /** A point of the seed ranges lies within the box along x and z when the
      radius fits, and wholly inside it when the written top also does. */
  lemma SeedRangeInBox(bounds: AABB, radius: real, pos: Vec3)
    requires RadiusFits(bounds, radius) && InSeedRange(bounds, radius, pos)
    ensures bounds.min.x <= pos.x <= bounds.max.x && bounds.min.z <= pos.z <= bounds.max.z
    ensures WrittenTopInBox(bounds, radius) ==> bounds.Contains(pos)
  {
  }

  /** Upper end of the y range measured from `min.y`; it coincides with the
      written one whenever `min.y` is zero. */
  function SeedTopY(bounds: AABB, radius: real): (top: real)
    ensures bounds.min.y == 0.0 ==> top == SeedTopYAsWritten(bounds, radius)
    ensures 0.0 <= radius <= bounds.Height() ==> bounds.min.y <= top <= bounds.max.y
  {
    bounds.min.y + 0.25 * (bounds.max.y - radius - bounds.min.y)
  }

  /** One seeded particle as the loop body writes it. */
  function SeedAsWritten(bounds: AABB, radius: real, u: Vec3): (p: Particle)
    requires IsDraw(u)
    ensures p.posStar == Zero && p.vel == Zero
    ensures InSeedRange(bounds, radius, p.pos)
    ensures RadiusFits(bounds, radius) && WrittenTopInBox(bounds, radius) ==>
              bounds.Contains(p.pos)
  {
    Particle(
      Vec3(Random(bounds.min.x + radius, bounds.max.x - radius, u.x),
           Random(bounds.min.y + radius, SeedTopYAsWritten(bounds, radius), u.y),
           Random(bounds.min.z + radius, bounds.max.z - radius, u.z)),
      Zero, Zero)
  }

  /** One seeded particle, with the y range measured from `min.y`. */
  function Seed(bounds: AABB, radius: real, u: Vec3): (p: Particle)
    requires IsDraw(u)
    ensures p.posStar == Zero && p.vel == Zero
    ensures RadiusFits(bounds, radius) ==> bounds.Contains(p.pos)
    ensures bounds.min.y == 0.0 ==> p == SeedAsWritten(bounds, radius, u)
  {
    Particle(
      Vec3(Random(bounds.min.x + radius, bounds.max.x - radius, u.x),
           Random(bounds.min.y + radius, SeedTopY(bounds, radius), u.y),
           Random(bounds.min.z + radius, bounds.max.z - radius, u.z)),
      Zero, Zero)
  }

  /** The written y range lets a particle start below the box: for the box
      from (0, 50, 0) to (10, 100, 10) and radius 1 the range is
      [24.75, 51], and the draw u.y = 1 puts the particle at y = 24.75. */
  lemma SeedAsWrittenEscapesBox()
    ensures var b := AABB(Vec3(0.0, 50.0, 0.0), Vec3(10.0, 100.0, 10.0));
      && 1.0 <= b.Width() && 1.0 <= b.Height() && 1.0 <= b.Depth()
      && SeedAsWritten(b, 1.0, Vec3(0.5, 1.0, 0.5)).pos.y == 24.75
      && !b.Contains(SeedAsWritten(b, 1.0, Vec3(0.5, 1.0, 0.5)).pos)
  {
  }

  /** With a radius that fits, the written loop body keeps every particle
      inside the box, whatever the draw, exactly when the written top of the
      y range lies within the box's y extent. */
  lemma SeedAsWrittenInBoxIff(bounds: AABB, radius: real)
    requires RadiusFits(bounds, radius)
    ensures (forall u :: IsDraw(u) ==> bounds.Contains(SeedAsWritten(bounds, radius, u).pos))
            <==> WrittenTopInBox(bounds, radius)
  {
    if !WrittenTopInBox(bounds, radius) {
      var u := Vec3(0.0, 1.0, 0.0);
      assert SeedAsWritten(bounds, radius, u).pos.y == SeedTopYAsWritten(bounds, radius);
      assert !bounds.Contains(SeedAsWritten(bounds, radius, u).pos);
    }
  }

  /** The seeding loop: one particle per draw for `n` iterations. */
  function SeedAll(bounds: AABB, radius: real, draws: seq<Vec3>): (ps: seq<Particle>)
    requires AreDraws(draws)
    ensures |ps| == |draws|
    ensures forall i :: 0 <= i < |ps| ==> ps[i] == SeedAsWritten(bounds, radius, draws[i])
  {
    if draws == [] then []
    else SeedAll(bounds, radius, draws[..|draws| - 1])
           + [SeedAsWritten(bounds, radius, draws[|draws| - 1])]
  }
}
