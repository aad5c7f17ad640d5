/**
 The per-frame arithmetic of the fog grid: where a visible cube is moved to
 and which translucency it is given.

 `sin(timeCounter)` and the camera distance (`Vector::magnitude`) are not
 computed here: they arrive as real-valued inputs. The only fact assumed of the
 distance is that it is not negative.
 */
module CubeMotion {
  import Noise
  import opened Reals

  /** A position in world space. */
  datatype Vec3 = Vec3(x: real, y: real, z: real)
  {
    function Plus(d: Vec3): Vec3 { Vec3(x + d.x, y + d.y, z + d.z) }
  }

  /** A Euclidean length, as returned by `Vector::magnitude`. */
  type Distance = d: real | 0.0 <= d witness 0.0

  /** Per-frame step added to the animation clock by each `update` call. */
  const TimeStep: real := 0.07

  /** Depth-cueing falloff per unit of camera distance. */
  const FalloffRate: real := 0.1

  /** Linear interpolation `start + factor (end - start)`, with no clamping of `factor`. */
  function Lerp(start: real, end: real, factor: real): real
  {
    start + factor * (end - start)
  }

  /** The largest offset along one axis: `spacing * displacement`. */
  function MaxDisplacement(spacing: real, displacement: real): real
  {
    spacing * displacement
  }

  /** One axis of `updateCubePosition`: the noise-scaled offset from the rest coordinate. */
  function AxisOffset(origin: real, frequency: real, easedTime: real, maxDisplacement: real): (d: real)
    ensures Abs(d) <= Abs(maxDisplacement)
  {
    var x := frequency * (easedTime + origin);
    ScaledNoiseBounded(maxDisplacement, x);
    maxDisplacement * Noise.Sample(x)
  }

  /** `updateCubePosition`: the new position of a cube resting at `origin`. */
  function Displaced(origin: Vec3, frequency: real, easedTime: real, maxDisplacement: real): (p: Vec3)
    ensures Abs(p.x - origin.x) <= Abs(maxDisplacement)
    ensures Abs(p.y - origin.y) <= Abs(maxDisplacement)
    ensures Abs(p.z - origin.z) <= Abs(maxDisplacement)
  {
    origin.Plus(Vec3(AxisOffset(origin.x, frequency, easedTime, maxDisplacement),
                     AxisOffset(origin.y, frequency, easedTime, maxDisplacement),
                     AxisOffset(origin.z, frequency, easedTime, maxDisplacement)))
  }

  /** The depth-cueing factor `1 / (1 + 0.1 distance)`. */
  function DepthCue(distance: Distance): (c: real)
    ensures 0.0 < c <= 1.0
  {
    1.0 / (1.0 + distance * FalloffRate)
  }

  /** The noise coordinate of the alpha sample: `frequency (t + ox + oy + oz)`. */
  function AlphaArgument(frequency: real, time: real, origin: Vec3): real
  {
    frequency * (time + origin.x + origin.y + origin.z)
  }

  /** `updateCubeAlpha`: interpolate with the noise value as factor, then depth-cue. */
  function Alpha(alphaMin: real, alphaMax: real, alphaNoise: real, distance: Distance): real
  {
    Lerp(alphaMin, alphaMax, alphaNoise) * Min(1.0, DepthCue(distance))
  }

  // ---------------------------------------------------------------------
  // Displacement
  // ---------------------------------------------------------------------

  /** A noise-scaled offset is at most the scale in magnitude, because the noise is in (-1, 1]. */
  lemma ScaledNoiseBounded(m: real, x: real)
    ensures Abs(m * Noise.Sample(x)) <= Abs(m)
  {
    MulUnitAbs(m, Noise.Sample(x));
  }

  /** With zero maximal displacement the cube sits exactly at its origin. */
  lemma DisplacedAtZeroIsOrigin(origin: Vec3, frequency: real, easedTime: real)
    ensures Displaced(origin, frequency, easedTime, 0.0) == origin
  {
  }

  // ---------------------------------------------------------------------
  // Alpha
  // ---------------------------------------------------------------------

  /** The interpolation reproduces its end points at factors 0 and 1. */
  lemma LerpEnds(start: real, end: real)
    ensures Lerp(start, end, 0.0) == start
    ensures Lerp(start, end, 1.0) == end
  {
  }

  /** For a factor in the unit interval the interpolation stays between the end points. */
  lemma LerpBetween(start: real, end: real, factor: real)
    requires start <= end
    requires 0.0 <= factor <= 1.0
    ensures start <= Lerp(start, end, factor) <= end
  {
    PartialStep(Lerp(start, end, factor), start, end - start, factor);
  }

  /** With a factor in [-1, 1] (the noise range) the interpolation reaches below `start`
      by at most the width of the range, and never above `end`. */
  lemma LerpOfNoiseRange(start: real, end: real, factor: real)
    requires start <= end
    requires -1.0 <= factor <= 1.0
    ensures 2.0 * start - end <= Lerp(start, end, factor) <= end
  {
    SignedStep(Lerp(start, end, factor), start, end - start, factor);
  }

  /** The cue factor shrinks as the camera moves away. */
  lemma DepthCueDecreasing(near: Distance, far: Distance)
    requires near <= far
    ensures DepthCue(far) <= DepthCue(near)
  {
    ReciprocalAntitone(1.0 + near * FalloffRate, 1.0 + far * FalloffRate);
  }

  /** The shape of the alpha: the interpolated value scaled by a factor in (0, 1],
      so it keeps the sign of the interpolated value and never exceeds it in magnitude. */
  lemma AlphaShape(alphaMin: real, alphaMax: real, alphaNoise: real, distance: Distance)
    ensures var l := Lerp(alphaMin, alphaMax, alphaNoise);
            var a := Alpha(alphaMin, alphaMax, alphaNoise, distance);
            && a == l * DepthCue(distance)
            && (0.0 <= l ==> 0.0 <= a <= l)
            && (l <= 0.0 ==> l <= a <= 0.0)
  {
    MulUnitKeepsSign(Lerp(alphaMin, alphaMax, alphaNoise), DepthCue(distance));
  }

  /** The alpha stays in [0, alphaMax] when the range is not wider than `alphaMin`
      itself (as with the defaults 0.95 and 1.0): then even the lowest noise value
      cannot push the interpolation below zero. */
  lemma AlphaInRangeForNarrowBand(alphaMin: real, alphaMax: real, alphaNoise: real, distance: Distance)
    requires 0.0 <= alphaMin <= alphaMax <= 2.0 * alphaMin
    requires -1.0 <= alphaNoise <= 1.0
    ensures 0.0 <= Alpha(alphaMin, alphaMax, alphaNoise, distance) <= alphaMax
  {
    LerpOfNoiseRange(alphaMin, alphaMax, alphaNoise);
    AlphaShape(alphaMin, alphaMax, alphaNoise, distance);
  }

  /** The interpolated alpha is NOT confined to [alphaMin, alphaMax]: with the default
      range 0.95..1.0 and the noise at coordinate 0 (which is negative), the value before
      depth cueing falls below alphaMin, and so does the alpha of a cube at the camera. */
  lemma AlphaBelowMinimum()
    ensures Lerp(0.95, 1.0, Noise.Sample(0.0)) < 0.95
    ensures Alpha(0.95, 1.0, Noise.Sample(0.0), 0.0) < 0.95
  {
    Noise.HashAtZero();
    var n := Noise.Sample(0.0);
    assert n < 0.0;
    assert DepthCue(0.0) == 1.0;
  }

  /** With the full range 0..1 that the alpha sliders allow, the alpha of a cube at the
      camera is the noise value itself, which is negative at coordinate 0: the alpha
      leaves [0, alphaMax] when the narrow-band condition fails. */
  lemma AlphaNegativeForFullRange()
    ensures Alpha(0.0, 1.0, Noise.Sample(0.0), 0.0) == Noise.Sample(0.0)
    ensures Alpha(0.0, 1.0, Noise.Sample(0.0), 0.0) < 0.0
  {
    Noise.HashAtZero();
    FullRangeAtCamera(Noise.Sample(0.0));
  }

  /** For the range 0..1 and a cube at the camera the alpha is the noise value. */
  lemma FullRangeAtCamera(alphaNoise: real)
    ensures Alpha(0.0, 1.0, alphaNoise, 0.0) == alphaNoise
  {
    assert DepthCue(0.0) == 1.0;
  }
}
