/**
 * The geometry and gating helpers of the push-up tracker: landmark
 * visibility, the horizontal-posture heuristic, exponential smoothing, the
 * fold of a joint angle into [0, 180], landmark averaging and zero-padded
 * number formatting. Coordinates, visibilities and angles are `real`.
 */
module Utils {
  import opened Wrappers

  // MediaPipe pose landmark indices (POSE_LANDMARKS)
  const NOSE: nat := 0
  const LEFT_SHOULDER: nat := 11
  const RIGHT_SHOULDER: nat := 12
  const LEFT_ELBOW: nat := 13
  const RIGHT_ELBOW: nat := 14
  const LEFT_WRIST: nat := 15
  const RIGHT_WRIST: nat := 16
  const LEFT_HIP: nat := 23
  const RIGHT_HIP: nat := 24
  const LEFT_KNEE: nat := 25
  const RIGHT_KNEE: nat := 26
  const LEFT_ANKLE: nat := 27
  const RIGHT_ANKLE: nat := 28

  /** Number of landmarks in a complete pose. */
  const LANDMARK_COUNT: nat := 33
  /** Default threshold of `IsLandmarkVisible`. */
  const DEFAULT_VISIBILITY: real := 0.5
  /** Largest shoulder/hip height difference still taken as horizontal. */
  const HORIZONTAL_LIMIT: real := 0.3

  /** One body point estimated by the pose model; `z` may be absent. */
  datatype Landmark = Landmark(x: real, y: real, z: Option<real>, visibility: real)

  /** A frame's landmark list; an entry may be missing. */
  type Frame = seq<Option<Landmark>>

  /** A position with all three coordinates present. */
  datatype Point = Point(x: real, y: real, z: real)

  function Abs(v: real): real { if v < 0.0 then -v else v }
  function Min(a: real, b: real): real { if a <= b then a else b }
  function Max(a: real, b: real): real { if a <= b then b else a }

  /** Indexing a JavaScript array past its end yields `undefined`. */
  function LandmarkAt(landmarks: Frame, i: nat): Option<Landmark>
  {
    if i < |landmarks| then landmarks[i] else None
  }

  // ---------------------------------------------------------------- visibility

  /** A landmark is visible when it is present and its confidence is above the threshold. */
  function IsLandmarkVisible(landmark: Option<Landmark>, threshold: real := DEFAULT_VISIBILITY): (visible: bool)
    ensures landmark.None? ==> !visible
    ensures landmark.Some? ==> (visible <==> landmark.value.visibility > threshold)
  {
    landmark.Some? && landmark.value.visibility > threshold
  }

  /** Lowering the threshold never hides a landmark that was visible. */
  lemma VisibilityMonotone(landmark: Option<Landmark>, lower: real, higher: real)
    requires lower <= higher
    ensures IsLandmarkVisible(landmark, higher) ==> IsLandmarkVisible(landmark, lower)
    ensures landmark.Some? && landmark.value.visibility == higher ==>
              !IsLandmarkVisible(landmark, higher)
  {
  }

  // ---------------------------------------------------------------- smoothing

  /** Single-pole exponential smoothing: move `current` by `factor` of the way to `target`. */
  function Smooth(current: real, target: real, factor: real := 0.5): real
  {
    current + (target - current) * factor
  }

  /** A factor of 1 jumps to the target; a factor of 0 stays put. */
  lemma SmoothEndpoints(current: real, target: real)
    ensures Smooth(current, target, 1.0) == target
    ensures Smooth(current, target, 0.0) == current
  {
  }

  /** With a factor in [0, 1] the smoothed value lies between the current value and the target. */
  lemma SmoothBetween(current: real, target: real, factor: real)
    requires 0.0 <= factor <= 1.0
    ensures Min(current, target) <= Smooth(current, target, factor) <= Max(current, target)
  {
    ScaledStep(target - current, factor, Smooth(current, target, factor) - current);
  }

  /** A step `m = d * factor` with `factor` in [0, 1] lies between 0 and `d`. */
  lemma ScaledStep(d: real, factor: real, m: real)
    requires 0.0 <= factor <= 1.0 && m == d * factor
    ensures 0.0 <= d ==> 0.0 <= m <= d
    ensures d < 0.0 ==> d <= m <= 0.0
  {
    if 0.0 <= d {
      MulMonotone(d, 0.0, factor);
      MulMonotone(d, factor, 1.0);
    } else {
      MulMonotone(-d, 0.0, factor);
      MulMonotone(-d, factor, 1.0);
    }
  }

  /** The offset from the target after one step is `1 - factor` times the offset before. */
  lemma SmoothOffset(current: real, target: real, factor: real)
    ensures Smooth(current, target, factor) - target == (1.0 - factor) * (current - target)
  {
  }

  /** The distance to the target shrinks by the factor `1 - factor`. */
  lemma SmoothDistance(current: real, target: real, factor: real)
    requires 0.0 <= factor <= 1.0
    ensures Abs(Smooth(current, target, factor) - target) == (1.0 - factor) * Abs(current - target)
  {
    SmoothOffset(current, target, factor);
    AbsScale(1.0 - factor, current - target, Smooth(current, target, factor) - target,
             (1.0 - factor) * Abs(current - target));
  }

  /** `|p * d| = p * |d|` for `p >= 0`, with both products named. */
  lemma AbsScale(p: real, d: real, m: real, q: real)
    requires 0.0 <= p && m == p * d && q == p * Abs(d)
    ensures Abs(m) == q
  {
    if d < 0.0 {
      assert m == -(p * -d);
      MulMonotone(p, 0.0, -d);
    } else {
      MulMonotone(p, 0.0, d);
    }
  }

  /** `Smooth` applied `n` times towards one fixed target. */
  function SmoothTimes(current: real, target: real, factor: real, n: nat): real
  {
    if n == 0 then current else Smooth(SmoothTimes(current, target, factor, n - 1), target, factor)
  }

  function Power(b: real, n: nat): real
  {
    if n == 0 then 1.0 else b * Power(b, n - 1)
  }

  /** After `n` steps the remaining offset from the target is `(1 - factor)^n` of the initial one. */
  lemma {:induction false} SmoothTimesOffset(current: real, target: real, factor: real, n: nat)
    ensures SmoothTimes(current, target, factor, n) - target
            == Power(1.0 - factor, n) * (current - target)
  {
    if n > 0 {
      SmoothTimesOffset(current, target, factor, n - 1);
      OffsetStep(SmoothTimes(current, target, factor, n - 1), target, factor, current,
                 Power(1.0 - factor, n - 1), Power(1.0 - factor, n), SmoothTimes(current, target, factor, n));
    }
  }

  /**
   * One smoothing step multiplies the offset `previous - target = p (current - target)`
   * by `1 - factor`.
   */
  lemma OffsetStep(previous: real, target: real, factor: real, current: real, p: real, q: real, next: real)
    requires previous - target == p * (current - target)
    requires q == (1.0 - factor) * p && next == Smooth(previous, target, factor)
    ensures next - target == q * (current - target)
  {
    SmoothOffset(previous, target, factor);
    MulAssociative(1.0 - factor, p, current - target);
  }

  lemma MulAssociative(a: real, b: real, c: real)
    ensures a * (b * c) == (a * b) * c
  {
  }

  /** Bernoulli-style bound: `(1 - f)^n * (1 + n f) <= 1`, and the power stays non-negative. */
  lemma {:induction false} PowerBound(f: real, n: nat)
    requires 0.0 <= f <= 1.0
    ensures 0.0 <= Power(1.0 - f, n)
    ensures Power(1.0 - f, n) * (1.0 + n as real * f) <= 1.0
  {
    if n > 0 {
      PowerBound(f, n - 1);
      BernoulliStep(Power(1.0 - f, n - 1), f, (n - 1) as real, n as real, Power(1.0 - f, n),
                    Power(1.0 - f, n) * (1.0 + n as real * f));
    }
  }

  /** One step of the bound: `q = (1 - f) p` and `r = q (1 + (m + 1) f)`. */
  lemma BernoulliStep(p: real, f: real, m: real, next: real, q: real, r: real)
    requires 0.0 <= p && 0.0 <= f <= 1.0 && 0.0 <= m && next == m + 1.0
    requires p * (1.0 + m * f) <= 1.0
    requires q == (1.0 - f) * p && r == q * (1.0 + next * f)
    ensures 0.0 <= q && r <= 1.0
  {
    var k := (1.0 - f) * (1.0 + next * f);
    assert k == 1.0 + m * f - next * (f * f);
    MulMonotone(next, 0.0, f * f);
    assert k <= 1.0 + m * f;
    MulMonotone(p, k, 1.0 + m * f);
    MulAssociative(p, 1.0 - f, 1.0 + next * f);
    MulMonotone(p, 0.0, 1.0 - f);
  }

  lemma MulMonotone(p: real, a: real, b: real)
    requires 0.0 <= p && a <= b
    ensures p * a <= p * b
  {
  }

  /**
   * Repeated smoothing towards a constant target converges: after `n` steps
   * the offset from the target is the initial offset scaled by a factor `p`
   * with `0 <= p <= 1 / (1 + n * factor)`.
   */
  lemma SmoothingConverges(current: real, target: real, factor: real, n: nat)
    requires 0.0 < factor <= 1.0
    ensures var p := Power(1.0 - factor, n);
            SmoothTimes(current, target, factor, n) - target == p * (current - target)
            && 0.0 <= p && p * (1.0 + n as real * factor) <= 1.0
  {
    SmoothTimesOffset(current, target, factor, n);
    PowerBound(factor, n);
  }

  // ---------------------------------------------------------------- posture

  function MeanY(a: Landmark, b: Landmark): real { (a.y + b.y) / 2.0 }

  /**
   * Coarse push-up posture check: with a complete pose whose shoulders and
   * hips are all visible, the mean shoulder height must be within 0.3 of the
   * mean hip height.
   */
  function IsHorizontalPosition(landmarks: Frame): (horizontal: bool)
    ensures |landmarks| < LANDMARK_COUNT ==> !horizontal
    ensures !IsLandmarkVisible(LandmarkAt(landmarks, LEFT_SHOULDER), DEFAULT_VISIBILITY) ==> !horizontal
    ensures !IsLandmarkVisible(LandmarkAt(landmarks, RIGHT_SHOULDER), DEFAULT_VISIBILITY) ==> !horizontal
    ensures !IsLandmarkVisible(LandmarkAt(landmarks, LEFT_HIP), DEFAULT_VISIBILITY) ==> !horizontal
    ensures !IsLandmarkVisible(LandmarkAt(landmarks, RIGHT_HIP), DEFAULT_VISIBILITY) ==> !horizontal
    ensures horizontal ==>
              Abs(MeanY(landmarks[LEFT_SHOULDER].value, landmarks[RIGHT_SHOULDER].value)
                  - MeanY(landmarks[LEFT_HIP].value, landmarks[RIGHT_HIP].value)) < HORIZONTAL_LIMIT
  {
    if |landmarks| < LANDMARK_COUNT then false
    else
      var leftShoulder := landmarks[LEFT_SHOULDER];
      var rightShoulder := landmarks[RIGHT_SHOULDER];
      var leftHip := landmarks[LEFT_HIP];
      var rightHip := landmarks[RIGHT_HIP];
      if !IsLandmarkVisible(leftShoulder) || !IsLandmarkVisible(rightShoulder)
         || !IsLandmarkVisible(leftHip) || !IsLandmarkVisible(rightHip)
      then false
      else
        var shoulderY := MeanY(leftShoulder.value, rightShoulder.value);
        var hipY := MeanY(leftHip.value, rightHip.value);
        Abs(shoulderY - hipY) < HORIZONTAL_LIMIT
  }

  /** The frame with every present landmark moved vertically by `dy`. */
  function ShiftY(landmarks: Frame, dy: real): (shifted: Frame)
    ensures |shifted| == |landmarks|
  {
    seq(|landmarks|, i requires 0 <= i < |landmarks| =>
      if landmarks[i].Some? then Some(landmarks[i].value.(y := landmarks[i].value.y + dy)) else None)
  }

  /**
   * The posture check compares heights only relative to each other: moving
   * the whole body up or down in the picture does not change its verdict,
   * since only the difference of the two mean heights is compared.
   */
  lemma HorizontalShiftInvariant(landmarks: Frame, dy: real)
    ensures IsHorizontalPosition(ShiftY(landmarks, dy)) == IsHorizontalPosition(landmarks)
  {
    var shifted := ShiftY(landmarks, dy);
    if |landmarks| >= LANDMARK_COUNT {
      var ls, rs, lh, rh := landmarks[LEFT_SHOULDER], landmarks[RIGHT_SHOULDER], landmarks[LEFT_HIP], landmarks[RIGHT_HIP];
      assert shifted[LEFT_SHOULDER].Some? == ls.Some?;
      assert shifted[RIGHT_SHOULDER].Some? == rs.Some?;
      assert shifted[LEFT_HIP].Some? == lh.Some?;
      assert shifted[RIGHT_HIP].Some? == rh.Some?;
      if ls.Some? && rs.Some? && lh.Some? && rh.Some? {
        assert MeanY(shifted[LEFT_SHOULDER].value, shifted[RIGHT_SHOULDER].value)
               - MeanY(shifted[LEFT_HIP].value, shifted[RIGHT_HIP].value)
               == MeanY(ls.value, rs.value) - MeanY(lh.value, rh.value);
      }
    }
  }

  /** With a complete, visible torso, the check passes exactly when the height difference is below 0.3. */
  lemma HorizontalWhenTorsoVisible(landmarks: Frame)
    requires |landmarks| >= LANDMARK_COUNT
    requires IsLandmarkVisible(landmarks[LEFT_SHOULDER], DEFAULT_VISIBILITY)
    requires IsLandmarkVisible(landmarks[RIGHT_SHOULDER], DEFAULT_VISIBILITY)
    requires IsLandmarkVisible(landmarks[LEFT_HIP], DEFAULT_VISIBILITY)
    requires IsLandmarkVisible(landmarks[RIGHT_HIP], DEFAULT_VISIBILITY)
    ensures IsHorizontalPosition(landmarks) <==>
              Abs(MeanY(landmarks[LEFT_SHOULDER].value, landmarks[RIGHT_SHOULDER].value)
                  - MeanY(landmarks[LEFT_HIP].value, landmarks[RIGHT_HIP].value)) < HORIZONTAL_LIMIT
  {
  }

  // ---------------------------------------------------------------- angles

  /** Folds an absolute bearing difference in degrees into an angle in [0, 180]. */
  function FoldAngle(degrees: real): (angle: real)
    ensures 0.0 <= degrees <= 360.0 ==> 0.0 <= angle <= 180.0
    ensures degrees <= 180.0 ==> angle == degrees
    ensures degrees > 180.0 ==> angle + degrees == 360.0
  {
    if degrees > 180.0 then 360.0 - degrees else degrees
  }

  /** Reflecting a difference `d` to `360 - d` gives the same angle. */
  lemma FoldReflection(degrees: real)
    requires 0.0 <= degrees <= 360.0
    ensures FoldAngle(360.0 - degrees) == FoldAngle(degrees)
  {
  }

  /** `atan2Deg` stands for `Math.atan2` scaled to degrees: its values lie in [-180, 180]. */
  ghost predicate BearingInRange(atan2Deg: (real, real) -> real)
  {
    forall dy: real, dx: real :: -180.0 <= atan2Deg(dy, dx) <= 180.0
  }

  /**
   * The angle at vertex `b` between the rays to `a` and `c`: the absolute
   * difference of the two bearings, folded into [0, 180]. The bearing
   * function is a parameter; nothing is assumed about it beyond its range.
   */
  function CalculateAngle(a: Landmark, b: Landmark, c: Landmark, atan2Deg: (real, real) -> real): (angle: real)
    ensures BearingInRange(atan2Deg) ==> 0.0 <= angle <= 180.0
  {
    var degrees := Abs(atan2Deg(c.y - b.y, c.x - b.x) - atan2Deg(a.y - b.y, a.x - b.x));
    FoldAngle(degrees)
  }

  /** The angle does not depend on which of the two outer points comes first. */
  lemma CalculateAngleSymmetric(a: Landmark, b: Landmark, c: Landmark, atan2Deg: (real, real) -> real)
    ensures CalculateAngle(a, b, c, atan2Deg) == CalculateAngle(c, b, a, atan2Deg)
  {
  }

  // ---------------------------------------------------------------- averaging

  /** `landmark.z || 0`: a missing depth counts as 0. */
  function DepthOrZero(landmark: Landmark): real
  {
    if landmark.z.Some? then landmark.z.value else 0.0
  }

  /** The componentwise sum, accumulated from the front as `reduce` does. */
  function SumLandmarks(landmarks: seq<Landmark>): Point
  {
    if |landmarks| == 0 then Point(0.0, 0.0, 0.0)
    else
      var acc := SumLandmarks(landmarks[..|landmarks| - 1]);
      var last := landmarks[|landmarks| - 1];
      Point(acc.x + last.x, acc.y + last.y, acc.z + DepthOrZero(last))
  }

  /**
   * The componentwise mean of the landmarks, a missing depth read as 0.
   * The source divides by zero on an empty list (yielding NaN); that case
   * is `None` here.
   */
  function GetAverageLandmark(landmarks: seq<Landmark>): (average: Option<Point>)
    ensures average.None? <==> |landmarks| == 0
  {
    if |landmarks| == 0 then None
    else
      var sum := SumLandmarks(landmarks);
      var n := |landmarks| as real;
      Some(Point(sum.x / n, sum.y / n, sum.z / n))
  }

  datatype Axis = X | Y | Z

  function PointCoord(p: Point, axis: Axis): real
  {
    match axis
    case X => p.x
    case Y => p.y
    case Z => p.z
  }

  function LandmarkCoord(landmark: Landmark, axis: Axis): real
  {
    match axis
    case X => landmark.x
    case Y => landmark.y
    case Z => DepthOrZero(landmark)
  }

  /** `n` copies of `v` added up, the linear stand-in for `n * v`. */
  function Times(n: nat, v: real): real
  {
    if n == 0 then 0.0 else Times(n - 1, v) + v
  }

  lemma {:induction false} TimesIsProduct(n: nat, v: real)
    ensures Times(n, v) == n as real * v
  {
    if n > 0 {
      TimesIsProduct(n - 1, v);
      AddOne((n - 1) as real, n as real, v);
    }
  }

  lemma {:induction false} SumWithinBounds(landmarks: seq<Landmark>, axis: Axis, lo: real, hi: real)
    requires forall i :: 0 <= i < |landmarks| ==> lo <= LandmarkCoord(landmarks[i], axis) <= hi
    ensures Times(|landmarks|, lo) <= PointCoord(SumLandmarks(landmarks), axis) <= Times(|landmarks|, hi)
  {
    if |landmarks| > 0 {
      var front := landmarks[..|landmarks| - 1];
      assert forall i :: 0 <= i < |front| ==> front[i] == landmarks[i];
      SumWithinBounds(front, axis, lo, hi);
    }
  }

  lemma AddOne(m: real, next: real, v: real)
    requires next == m + 1.0
    ensures next * v == m * v + v
  {
  }

  /** Dividing bounds `n lo <= s <= n hi` by `n > 0`, with the products and the quotient named. */
  lemma QuotientBounds(n: real, s: real, lo: real, hi: real, nlo: real, nhi: real, a: real)
    requires 0.0 < n && nlo == n * lo && nhi == n * hi && a == s / n
    requires nlo <= s <= nhi
    ensures lo <= a <= hi
  {
    assert s == n * a;
    if a < lo {
      MulStrict(n, a, lo);
    }
    if hi < a {
      MulStrict(n, hi, a);
    }
  }

  lemma MulStrict(p: real, a: real, b: real)
    requires 0.0 < p && a < b
    ensures p * a < p * b
  {
  }

  lemma AverageCoord(landmarks: seq<Landmark>, axis: Axis)
    requires |landmarks| > 0
    ensures PointCoord(GetAverageLandmark(landmarks).value, axis)
            == PointCoord(SumLandmarks(landmarks), axis) / |landmarks| as real
  {
  }

  /**
   * Each coordinate of the average lies within the range of that coordinate
   * over the input; in particular the average of copies of one landmark is
   * that landmark (with a missing depth read as 0).
   */
  lemma AverageWithinBounds(landmarks: seq<Landmark>, axis: Axis, lo: real, hi: real)
    requires |landmarks| > 0
    requires forall i :: 0 <= i < |landmarks| ==> lo <= LandmarkCoord(landmarks[i], axis) <= hi
    ensures lo <= PointCoord(GetAverageLandmark(landmarks).value, axis) <= hi
  {
    SumWithinBounds(landmarks, axis, lo, hi);
    AverageOfBoundedSum(landmarks, axis, lo, hi);
  }

  /** A sum between `n lo` and `n hi` over `n` landmarks has its mean between `lo` and `hi`. */
  lemma AverageOfBoundedSum(landmarks: seq<Landmark>, axis: Axis, lo: real, hi: real)
    requires |landmarks| > 0
    requires Times(|landmarks|, lo) <= PointCoord(SumLandmarks(landmarks), axis) <= Times(|landmarks|, hi)
    ensures lo <= PointCoord(GetAverageLandmark(landmarks).value, axis) <= hi
  {
    AverageCoord(landmarks, axis);
    MeanBounds(|landmarks|, PointCoord(SumLandmarks(landmarks), axis),
               PointCoord(GetAverageLandmark(landmarks).value, axis), lo, hi);
  }

  /** A total `s` between `n` copies of `lo` and of `hi` has its mean `a = s / n` in [lo, hi]. */
  lemma MeanBounds(n: nat, s: real, a: real, lo: real, hi: real)
    requires n > 0 && Times(n, lo) <= s <= Times(n, hi) && a == s / n as real
    ensures lo <= a <= hi
  {
    TimesIsProduct(n, lo);
    TimesIsProduct(n, hi);
    QuotientBounds(n as real, s, lo, hi, Times(n, lo), Times(n, hi), a);
  }



  // ---------------------------------------------------------------- formatting

  function DigitChar(d: nat): char
    requires d < 10
  {
    "0123456789"[d]
  }

  predicate IsDigit(c: char) { '0' <= c <= '9' }

  function DigitValue(c: char): nat
    requires IsDigit(c)
  {
    (c as int - '0' as int) as nat
  }

  /** `num.toString()` for a non-negative integer: its decimal digits, no leading zero. */
  function NatToString(n: nat): (s: string)
    ensures 1 <= |s|
    ensures forall i :: 0 <= i < |s| ==> IsDigit(s[i])
    ensures |s| > 1 ==> s[0] != '0'
  {
    if n < 10 then [DigitChar(n)] else NatToString(n / 10) + [DigitChar(n % 10)]
  }

  /** The value of a string of decimal digits (the reading of `NatToString`). */
  function ParseDecimal(s: string): nat
    requires forall i :: 0 <= i < |s| ==> IsDigit(s[i])
  {
    if |s| == 0 then 0 else ParseDecimal(s[..|s| - 1]) * 10 + DigitValue(s[|s| - 1])
  }

  /** Reading back the decimal string gives the number. */
  lemma {:induction false} ParseNatToString(n: nat)
    ensures ParseDecimal(NatToString(n)) == n
  {
    var s := NatToString(n);
    if n >= 10 {
      ParseNatToString(n / 10);
      assert s[..|s| - 1] == NatToString(n / 10);
    }
  }

  function Repeat(c: char, k: nat): (s: string)
    ensures |s| == k && forall i :: 0 <= i < k ==> s[i] == c
  {
    if k == 0 then [] else [c] + Repeat(c, k - 1)
  }

  /** `String.prototype.padStart` with a one-character filler. */
  function PadStart(s: string, targetLength: int, filler: char): (padded: string)
    ensures |padded| == if targetLength <= |s| then |s| else targetLength
    ensures padded[|padded| - |s|..] == s
    ensures forall i :: 0 <= i < |padded| - |s| ==> padded[i] == filler
  {
    if targetLength <= |s| then s else Repeat(filler, targetLength - |s|) + s
  }

  /** The number as a decimal string, left-padded with '0' to at least `digits` characters. */
  function FormatNumber(num: nat, digits: int := 2): (formatted: string)
    ensures |formatted| == if digits <= |NatToString(num)| then |NatToString(num)| else digits
    ensures formatted[|formatted| - |NatToString(num)|..] == NatToString(num)
    ensures forall i :: 0 <= i < |formatted| - |NatToString(num)| ==> formatted[i] == '0'
  {
    PadStart(NatToString(num), digits, '0')
  }

  /** With the default width of 2, a single digit gets one leading zero and two digits none. */
  lemma FormatNumberDefaultWidth()
    ensures FormatNumber(7) == "07"
    ensures FormatNumber(42) == "42"
  {
    assert DigitChar(7) == '7' && DigitChar(4) == '4' && DigitChar(2) == '2';
    assert NatToString(7) == "7";
    assert NatToString(42) == NatToString(4) + [DigitChar(2)] == "42";
    assert Repeat('0', 1) == "0";
  }

  lemma {:induction false} LeadingZerosIgnored(k: nat, s: string)
    requires forall i :: 0 <= i < |s| ==> IsDigit(s[i])
    ensures forall i :: 0 <= i < |Repeat('0', k) + s| ==> IsDigit((Repeat('0', k) + s)[i])
    ensures ParseDecimal(Repeat('0', k) + s) == ParseDecimal(s)
  {
    var z := Repeat('0', k);
    if |s| == 0 {
      assert z + s == z;
      ZerosParseToZero(k);
    } else {
      var front := s[..|s| - 1];
      LeadingZerosIgnored(k, front);
      assert (z + s)[..|z + s| - 1] == z + front;
    }
  }

  lemma {:induction false} ZerosParseToZero(k: nat)
    ensures ParseDecimal(Repeat('0', k)) == 0
  {
    if k > 0 {
      var z := Repeat('0', k);
      assert z[..k - 1] == Repeat('0', k - 1);
      ZerosParseToZero(k - 1);
    }
  }

  /** The padded string still reads back as the number: padding adds only leading zeros. */
  lemma FormatNumberRoundTrip(num: nat, digits: int)
    ensures forall i :: 0 <= i < |FormatNumber(num, digits)| ==> IsDigit(FormatNumber(num, digits)[i])
    ensures ParseDecimal(FormatNumber(num, digits)) == num
  {
    var s := NatToString(num);
    ParseNatToString(num);
    if digits > |s| {
      LeadingZerosIgnored(digits - |s|, s);
    }
  }
}
