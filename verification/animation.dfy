/** `stepBoundsAnimation`: one frame of the bounds animation. Only the x
    extents of the current box move; the frame counter advances by one. */
module BoundsAnimation {
  import opened Geometry
  import opened Unsigned
  import opened SimState

  /** The trigonometry the animation calls: `sin` is uninterpreted and `pi`
      stands for the single-precision value of M_PI. */
  datatype Trig = Trig(sin: real -> real, pi: real)

  /** openFrameworks' `ofDegToRad`, degrees times pi / 180: a half turn is
      pi and no turn is zero. */
  function DegToRad(trig: Trig, degrees: real): (r: real)
    ensures degrees == 180.0 ==> r == trig.pi
    ensures degrees == 0.0 ==> r == 0.0
  {
    degrees * trig.pi / 180.0
  }

  /** The angle in degrees the sine waveform reads from the frame counter. */
  function Phase(frame: U32): (deg: nat)
    ensures deg < 720
  {
    frame % 720
  }

  /** `sin` of the C library, as supplied. */
  function Sin(trig: Trig, x: real): real {
    trig.sin(x)
  }

  /** `sin` stays within [-1, 1], as the C library's does. */
  ghost predicate SinBounded(trig: Trig) {
    forall x :: -1.0 <= Sin(trig, x) <= 1.0
  }

  /** The argument the sine waveform hands to `sin`: `period * pi` times
      the phase in radians. */
  function SineArg(trig: Trig, degrees: nat, period: real): real {
    period * trig.pi * DegToRad(trig, degrees as real)
  }

  /** The sine offset for a phase angle in degrees: within one amplitude of
      zero when `sin` is bounded by one, and zero at angle 0 when sin(0) is. */
  function SineOffset(trig: Trig, degrees: nat, amp: real, period: real): (r: real)
    ensures 0.0 <= amp && SinBounded(trig) ==> -amp <= r <= amp
    ensures degrees == 0 && Sin(trig, 0.0) == 0.0 ==> r == 0.0
  {
    var x := SineArg(trig, degrees, period);
    ScaledSine(trig, amp, x);
    SineArgAtZero(trig, period);
    amp * Sin(trig, x)
  }

  /** At angle 0 the argument handed to `sin` is 0, whatever the period. */
  lemma SineArgAtZero(trig: Trig, period: real)
    ensures SineArg(trig, 0, period) == 0.0
  {
    assert DegToRad(trig, 0.0) == 0.0;
  }

  /** A bounded `sin` scaled by a non-negative amplitude stays within one
      amplitude of zero. */
  lemma ScaledSine(trig: Trig, amp: real, x: real)
    ensures 0.0 <= amp && SinBounded(trig) ==> -amp <= amp * Sin(trig, x) <= amp
  {
    if 0.0 <= amp && SinBounded(trig) {
      ScaledUnit(amp, Sin(trig, x));
    }
  }

  /** `t - floor(0.5 + t)`: the distance from `t` to its nearest integer,
      signed, in [-0.5, 0.5). */
  function Sawtooth(t: real): (r: real)
    ensures -0.5 <= r < 0.5
    ensures (t - r).Floor as real == t - r
  {
    t - (0.5 + t).Floor as real
  }

  /** The ramp offset for a frame: a sawtooth of `(frame / period) * dt`
      scaled to [-amp, amp), so it stays within one amplitude of zero and
      strictly below `amp` when the amplitude is positive. */
  function RampOffset(frame: U32, amp: real, period: real, dt: real): (r: real)
    requires period != 0.0
    ensures 0.0 <= amp ==> -amp <= r <= amp
    ensures 0.0 < amp ==> r < amp
  {
    var f := Sawtooth((frame as real / period) * dt);
    ScaledSawtooth(amp, f);
    2.0 * amp * f
  }

  lemma ScaledSawtooth(amp: real, f: real)
    requires -0.5 <= f < 0.5
    ensures 0.0 <= amp ==> -amp <= 2.0 * amp * f <= amp
    ensures 0.0 < amp ==> 2.0 * amp * f < amp
  {
    assert 2.0 * amp * f == amp * (2.0 * f);
    if 0.0 <= amp {
      ScaledUnit(amp, 2.0 * f);
    }
  }

  /** Scaling a value in [-1, 1] by a non-negative amplitude stays in
      [-amp, amp], strictly below amp when the value is below 1 and the
      amplitude positive. */
  lemma ScaledUnit(amp: real, g: real)
    requires 0.0 <= amp && -1.0 <= g <= 1.0
    ensures -amp <= amp * g <= amp
    ensures 0.0 < amp && g < 1.0 ==> amp * g < amp
  {
    if 0.0 < amp && g < 1.0 {
      assert amp * g < amp * 1.0;
    }
    assert amp * g <= amp * 1.0;
    assert -amp <= amp * g;
  }

  /** The compress floor of the maximum x: 0.33 of the original width below
      the original maximum. */
  function LimitMaxX(orig: AABB): (r: real)
    ensures orig.max.x - r == 0.33 * orig.Width()
  {
    orig.max.x - (orig.Width() * 0.66) * 0.5
  }

  /** The compress ceiling of the minimum x, mirrored: 0.33 of the original
      width above the original minimum. */
  function LimitMinX(orig: AABB): (r: real)
    ensures r - orig.min.x == 0.33 * orig.Width()
  {
    orig.min.x + (orig.Width() * 0.66) * 0.5
  }

  /** For a box of non-negative width both limits lie inside it, and the
      band they leave between them is 0.34 of the width wide. */
  lemma LimitsLeaveMiddleBand(orig: AABB)
    requires 0.0 <= orig.Width()
    ensures orig.min.x <= LimitMinX(orig) <= LimitMaxX(orig) <= orig.max.x
    ensures LimitMaxX(orig) - LimitMinX(orig) == 0.34 * orig.Width()
  {
  }

  /** Moves the x extents to `originalBounds` shifted inward by `value`:
      the maximum always, the minimum only when both sides animate. */
  function ShiftFromOriginal(s: Sim, value: real): (b: AABB)
    ensures b.max.x == s.originalBounds.max.x - value
    ensures s.animBothSides ==> b.min.x == s.originalBounds.min.x + value
    ensures !s.animBothSides ==> b.min == s.bounds.min
    ensures SameYZ(b, s.bounds)
  {
    var b := s.bounds.WithMaxX(s.originalBounds.max.x - value);
    if s.animBothSides then b.WithMinX(s.originalBounds.min.x + value) else b
  }

  /** One compress frame: each animated side moves 0.25 inward while it has
      not yet passed its limit. */
  function CompressBounds(s: Sim): (b: AABB)
    ensures b.max.x <= s.bounds.max.x && s.bounds.min.x <= b.min.x
    ensures s.bounds.max.x - b.max.x == (if s.bounds.max.x >= LimitMaxX(s.originalBounds) then 0.25 else 0.0)
    ensures b.min.x - s.bounds.min.x
              == (if s.animBothSides && s.bounds.min.x <= LimitMinX(s.originalBounds) then 0.25 else 0.0)
    ensures SameYZ(b, s.bounds)
  {
    var b := if s.bounds.max.x >= LimitMaxX(s.originalBounds)
             then s.bounds.WithMaxX(s.bounds.max.x - 0.25) else s.bounds;
    if s.animBothSides && b.min.x <= LimitMinX(s.originalBounds)
    then b.WithMinX(b.min.x + 0.25) else b
  }

  /** `stepBoundsAnimation`. A zero period under LINEAR_RAMP would divide by
      zero, so that combination is excluded. */
  function StepBoundsAnimation(s: Sim, trig: Trig): (r: Sim)
    requires s.animType == LinearRamp ==> s.animPeriod != 0.0
    ensures r.animFrameNumber == Inc(s.animFrameNumber)
    ensures r.(bounds := s.bounds, animFrameNumber := s.animFrameNumber) == s
    ensures SameYZ(r.bounds, s.bounds)
    ensures !s.animBothSides ==> r.bounds.min == s.bounds.min
  {
    var b := match s.animType
      case SineWave =>
        ShiftFromOriginal(s, SineOffset(trig, Phase(s.animFrameNumber), s.animAmp, s.animPeriod))
      case LinearRamp =>
        ShiftFromOriginal(s, RampOffset(s.animFrameNumber, s.animAmp, s.animPeriod, s.dt))
      case Compress =>
        CompressBounds(s);
    s.(bounds := b, animFrameNumber := Inc(s.animFrameNumber))
  }

  // The two absolute waveforms

  /** Under SINE_WAVE and LINEAR_RAMP the new x extents are a function of
      the original box, the animation settings and the frame counter only:
      two states that differ in their current box animate to the same x
      extents. */
  lemma AbsoluteWaveformsIgnoreCurrentBounds(s: Sim, b: AABB, trig: Trig)
    requires s.animType == SineWave || s.animType == LinearRamp
    requires s.animType == LinearRamp ==> s.animPeriod != 0.0
    ensures var r1 := StepBoundsAnimation(s, trig);
            var r2 := StepBoundsAnimation(s.(bounds := b), trig);
      && r1.bounds.max.x == r2.bounds.max.x
      && (s.animBothSides ==> r1.bounds.min.x == r2.bounds.min.x)
  {
  }

  /** SINE_WAVE repeats every 720 frames while the counter does not wrap. */
  lemma {:induction false} SineWavePeriodic(s: Sim, trig: Trig)
    requires s.animType == SineWave
    requires s.animFrameNumber + 720 < Modulus
    ensures var later := s.(animFrameNumber := s.animFrameNumber + 720);
      StepBoundsAnimation(s, trig).bounds == StepBoundsAnimation(later, trig).bounds
  {
    var later := s.(animFrameNumber := s.animFrameNumber + 720);
    assert Phase(later.animFrameNumber) == Phase(s.animFrameNumber);
  }

  /** The 720-frame period of SINE_WAVE breaks where the counter wraps, so
      `SineWavePeriodic` needs its no-wrap requirement: 2^32 - 1 has phase
      255, its successor 0 has phase 0 rather than 256, and 720 frames past
      2^32 - 1 the phase differs from 255. 720 does not divide 2^32. */
  lemma WrapBreaksPhase()
    ensures Phase(MaxU32) == 255
    ensures Phase(Inc(MaxU32)) == 0
    ensures Phase(AddWrapping(MaxU32, 720)) != Phase(MaxU32)
  {
  }

  /** At frame 0 the sine waveform restores the original x extents, given
      sin(0) = 0. */
  lemma SineWaveFrameZero(s: Sim, trig: Trig)
    requires s.animType == SineWave && s.animFrameNumber == 0
    requires Sin(trig, 0.0) == 0.0
    ensures var r := StepBoundsAnimation(s, trig);
      && r.bounds.max.x == s.originalBounds.max.x
      && (s.animBothSides ==> r.bounds.min.x == s.originalBounds.min.x)
  {
    assert SineOffset(trig, Phase(s.animFrameNumber), s.animAmp, s.animPeriod) == 0.0;
  }

  /** At frame 0 the ramp restores the original x extents. */
  lemma LinearRampFrameZero(s: Sim, trig: Trig)
    requires s.animType == LinearRamp && s.animPeriod != 0.0 && s.animFrameNumber == 0
    ensures var r := StepBoundsAnimation(s, trig);
      && r.bounds.max.x == s.originalBounds.max.x
      && (s.animBothSides ==> r.bounds.min.x == s.originalBounds.min.x)
  {
    var t := (0 as real / s.animPeriod) * s.dt;
    assert t == 0.0;
    assert (0.5).Floor == 0;
    assert Sawtooth(t) == 0.0;
    assert RampOffset(0, s.animAmp, s.animPeriod, s.dt) == 2.0 * s.animAmp * Sawtooth(t);
    assert RampOffset(0, s.animAmp, s.animPeriod, s.dt) == 0.0;
  }

  /** Under LINEAR_RAMP with a non-negative amplitude the maximum x stays
      within one amplitude of the original maximum. */
  lemma LinearRampStaysNearOriginal(s: Sim, trig: Trig)
    requires s.animType == LinearRamp && s.animPeriod != 0.0 && 0.0 <= s.animAmp
    ensures var r := StepBoundsAnimation(s, trig);
      s.originalBounds.max.x - s.animAmp <= r.bounds.max.x <= s.originalBounds.max.x + s.animAmp
  {
  }

  /** Under SINE_WAVE with a non-negative amplitude and a `sin` bounded by
      one, the maximum x stays within one amplitude of the original maximum. */
  lemma SineWaveStaysNearOriginal(s: Sim, trig: Trig)
    requires s.animType == SineWave && 0.0 <= s.animAmp && SinBounded(trig)
    ensures var r := StepBoundsAnimation(s, trig);
      s.originalBounds.max.x - s.animAmp <= r.bounds.max.x <= s.originalBounds.max.x + s.animAmp
  {
    var deg := Phase(s.animFrameNumber);
    assert StepBoundsAnimation(s, trig).bounds.max.x
      == s.originalBounds.max.x - SineOffset(trig, deg, s.animAmp, s.animPeriod);
  }

  // The incremental waveform

  /** COMPRESS never widens the box along x, and keeps each animated side
      within one 0.25 step past its limit. */
  lemma CompressKeepsFloor(s: Sim, trig: Trig)
    requires s.animType == Compress
    ensures var r := StepBoundsAnimation(s, trig);
      && r.bounds.max.x <= s.bounds.max.x
      && s.bounds.min.x <= r.bounds.min.x
      && (s.bounds.max.x >= LimitMaxX(s.originalBounds) - 0.25 ==>
            r.bounds.max.x >= LimitMaxX(s.originalBounds) - 0.25)
      && (s.animBothSides && s.bounds.min.x <= LimitMinX(s.originalBounds) + 0.25 ==>
            r.bounds.min.x <= LimitMinX(s.originalBounds) + 0.25)
  {
  }

  /** `k` compress frames in a row. */
  function CompressFrames(s: Sim, trig: Trig, k: nat): (r: Sim)
    requires s.animType == Compress
    ensures r.animType == Compress && r.originalBounds == s.originalBounds
    ensures r.animBothSides == s.animBothSides
    decreases k
  {
    if k == 0 then s else CompressFrames(StepBoundsAnimation(s, trig), trig, k - 1)
  }

  /** Frames of compression the maximum x takes to pass below its limit. */
  function StepsToLimit(x: real, limit: real): nat
    decreases if x < limit then 0 else ((x - limit) * 4.0).Floor + 1
  {
    if x < limit then 0 else 1 + StepsToLimit(x - 0.25, limit)
  }

  /** COMPRESS moves the maximum x down by 0.25 per frame until it first
      drops below its limit and then holds it there: after `k` frames it
      has moved by 0.25 times the smaller of `k` and the number of steps to
      the limit. */
  lemma {:induction false} CompressConverges(s: Sim, trig: Trig, k: nat)
    requires s.animType == Compress
    ensures var n := StepsToLimit(s.bounds.max.x, LimitMaxX(s.originalBounds));
            var m := if k < n then k else n;
      CompressFrames(s, trig, k).bounds.max.x == s.bounds.max.x - 0.25 * m as real
    decreases k
  {
    var limit := LimitMaxX(s.originalBounds);
    if k > 0 {
      var s' := StepBoundsAnimation(s, trig);
      CompressConverges(s', trig, k - 1);
      if s.bounds.max.x < limit {
        assert s'.bounds.max.x == s.bounds.max.x;
      } else {
        assert s'.bounds.max.x == s.bounds.max.x - 0.25;
        assert StepsToLimit(s.bounds.max.x, limit) == 1 + StepsToLimit(s'.bounds.max.x, limit);
      }
    }
  }

  /** Once compression has run its course the maximum x sits in the last
      step below its limit: [limit - 0.25, limit). */
  lemma {:induction false} CompressSettles(x: real, limit: real)
    requires limit - 0.25 <= x
    ensures limit - 0.25 <= x - 0.25 * StepsToLimit(x, limit) as real < limit
    decreases if x < limit then 0 else ((x - limit) * 4.0).Floor + 1
  {
    if x >= limit {
      CompressSettles(x - 0.25, limit);
    }
  }
}
