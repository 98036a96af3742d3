/**
 * The push-up rep counter: a four-state machine driven by the smoothed
 * elbow angle of each pose frame. The value-level functions below (the
 * `...Spec` functions over `Session`) are the reference definition of one
 * frame; class `Tracker` is the stateful object of the source, whose
 * methods change its fields step by step and append to an event log in
 * place of the three callbacks. JavaScript's `null` is `None`; where the
 * source does arithmetic or a comparison on a value that may be `null`,
 * `Num` applies JavaScript's conversion of `null` to 0.
 */
module PushupTracker {
  import opened Wrappers
  import opened Utils

  // Configuration (the `config` object)
  const ANGLE_THRESHOLD_DOWN: real := 90.0
  const ANGLE_THRESHOLD_UP: real := 160.0
  const PARTIAL_REP_THRESHOLD: real := 110.0
  const SMOOTHING_FACTOR: real := 0.3
  const MIN_VISIBILITY: real := 0.5
  /** Declared by the tracker but never read: the posture check uses its own 0.3. */
  const HORIZONTAL_THRESHOLD: real := 0.25

  datatype State = Waiting | Ready | Down | Up

  datatype Quality = Good | Partial | Shallow

  /** What the callbacks `onStateChange`, `onAngleUpdate` and `onRepComplete` receive. */
  datatype Event =
    | StateChanged(state: State)
    | AngleUpdated(rounded: int)
    | RepCompleted(count: nat, quality: Quality, angle: Option<real>)

  datatype Side = Left | Right

  /** The pose detector's result; `landmarks` may be missing. */
  datatype PoseData = PoseData(landmarks: Option<Frame>)

  /** The tracker's four fields. */
  datatype Session = Session(repCount: nat, state: State, lastElbowAngle: Option<real>, smoothedAngle: Option<real>)

  /** A session after one operation, with the events that operation emitted. */
  datatype Step = Step(session: Session, emitted: seq<Event>)

  /** The snapshot `getStats` returns. */
  datatype Stats = Stats(repCount: nat, currentState: State, currentAngle: Option<int>)

  const Initial := Session(0, Waiting, None, None)

  // ---------------------------------------------------------------- JavaScript values

  /** JavaScript's conversion of a number-or-null to a number: `null` reads as 0. */
  function Num(v: Option<real>): real
  {
    if v.Some? then v.value else 0.0
  }

  /** JavaScript's `a || b` on two number-or-null values: both 0 and `null` are falsy. */
  function Or(a: Option<real>, b: Option<real>): Option<real>
  {
    if a.Some? && a.value != 0.0 then a else b
  }

  /** `Math.round`: the nearest integer, halves rounded up. */
  function Round(x: real): (r: int)
    ensures x - 0.5 < r as real <= x + 0.5
  {
    (x + 0.5).Floor
  }

  // ---------------------------------------------------------------- gates and angles

  function ShoulderIndex(side: Side): nat { if side == Left then LEFT_SHOULDER else RIGHT_SHOULDER }
  function ElbowIndex(side: Side): nat { if side == Left then LEFT_ELBOW else RIGHT_ELBOW }
  function WristIndex(side: Side): nat { if side == Left then LEFT_WRIST else RIGHT_WRIST }

  /** Shoulder, elbow and wrist of one side all visible above `MIN_VISIBILITY`. */
  predicate IsArmVisible(landmarks: Frame, side: Side)
  {
    IsLandmarkVisible(LandmarkAt(landmarks, ShoulderIndex(side)), MIN_VISIBILITY)
    && IsLandmarkVisible(LandmarkAt(landmarks, ElbowIndex(side)), MIN_VISIBILITY)
    && IsLandmarkVisible(LandmarkAt(landmarks, WristIndex(side)), MIN_VISIBILITY)
  }

  /** At least one complete arm is visible. */
  function AreKeyLandmarksVisible(landmarks: Frame): (visible: bool)
    ensures visible <==> IsArmVisible(landmarks, Left) || IsArmVisible(landmarks, Right)
    ensures visible ==> |landmarks| > LEFT_WRIST
  {
    var leftArmVisible :=
      IsLandmarkVisible(LandmarkAt(landmarks, LEFT_SHOULDER), MIN_VISIBILITY)
      && IsLandmarkVisible(LandmarkAt(landmarks, LEFT_ELBOW), MIN_VISIBILITY)
      && IsLandmarkVisible(LandmarkAt(landmarks, LEFT_WRIST), MIN_VISIBILITY);
    var rightArmVisible :=
      IsLandmarkVisible(LandmarkAt(landmarks, RIGHT_SHOULDER), MIN_VISIBILITY)
      && IsLandmarkVisible(LandmarkAt(landmarks, RIGHT_ELBOW), MIN_VISIBILITY)
      && IsLandmarkVisible(LandmarkAt(landmarks, RIGHT_WRIST), MIN_VISIBILITY);
    leftArmVisible || rightArmVisible
  }

  /** The elbow angle of one side, or `None` when that arm is not fully visible. */
  function CalculateElbowAngle(landmarks: Frame, side: Side, atan2Deg: (real, real) -> real): (angle: Option<real>)
    ensures angle.Some? <==> IsArmVisible(landmarks, side)
    ensures angle.Some? && BearingInRange(atan2Deg) ==> 0.0 <= angle.value <= 180.0
  {
    var shoulder := LandmarkAt(landmarks, ShoulderIndex(side));
    var elbow := LandmarkAt(landmarks, ElbowIndex(side));
    var wrist := LandmarkAt(landmarks, WristIndex(side));
    if !IsLandmarkVisible(shoulder, MIN_VISIBILITY) || !IsLandmarkVisible(elbow, MIN_VISIBILITY)
       || !IsLandmarkVisible(wrist, MIN_VISIBILITY)
    then None
    else Some(CalculateAngle(shoulder.value, elbow.value, wrist.value, atan2Deg))
  }

  /**
   * Once the visibility gate has passed, at least one side yields an angle,
   * so the frame is never dropped for lack of an elbow angle.
   */
  lemma VisibleArmYieldsAngle(landmarks: Frame, atan2Deg: (real, real) -> real)
    ensures AreKeyLandmarksVisible(landmarks) <==>
              CalculateElbowAngle(landmarks, Left, atan2Deg).Some?
              || CalculateElbowAngle(landmarks, Right, atan2Deg).Some?
  {
  }

  /**
   * The angle of the frame: the mean of both sides when both are present,
   * otherwise `left || right`, which also passes over a left angle of
   * exactly 0.
   */
  function CombineAngles(left: Option<real>, right: Option<real>): (angle: Option<real>)
    ensures left.Some? && right.Some? ==> angle == Some((left.value + right.value) / 2.0)
    ensures left.None? ==> angle == right
    ensures left.Some? && right.None? ==> angle == (if left.value == 0.0 then None else left)
  {
    if left.Some? && right.Some? then Some((left.value + right.value) / 2.0) else Or(left, right)
  }

  /** Combining two angles in [0, 180] gives an angle in [0, 180] (or none). */
  lemma CombineAnglesInRange(left: Option<real>, right: Option<real>)
    requires left.Some? ==> 0.0 <= left.value <= 180.0
    requires right.Some? ==> 0.0 <= right.value <= 180.0
    ensures CombineAngles(left, right).Some? ==>
              0.0 <= CombineAngles(left, right).value <= 180.0
              && Min(Num(left), Num(right)) <= CombineAngles(left, right).value
  {
  }

  /** The first sample is taken as is; later ones are smoothed towards with factor 0.3. */
  function SmoothAngle(previous: Option<real>, sample: Option<real>): (smoothed: Option<real>)
    ensures previous.None? ==> smoothed == sample
    ensures previous.Some? ==>
              (smoothed.Some?
               && Min(previous.value, Num(sample)) <= smoothed.value <= Max(previous.value, Num(sample))
               && Abs(smoothed.value - Num(sample)) == 0.7 * Abs(previous.value - Num(sample)))
  {
    if previous.None? then sample
    else
      SmoothBetween(previous.value, Num(sample), SMOOTHING_FACTOR);
      SmoothDistance(previous.value, Num(sample), SMOOTHING_FACTOR);
      Some(Smooth(previous.value, Num(sample), SMOOTHING_FACTOR))
  }

  // ---------------------------------------------------------------- the frame, as values

  function UpdateStateSpec(s: Session, newState: State): Step
  {
    if s.state != newState then Step(s.(state := newState), [StateChanged(newState)])
    else Step(s, [])
  }

  function RepQuality(isGoodRep: bool, lastElbowAngle: Option<real>): Quality
  {
    if isGoodRep then Good
    else if Num(lastElbowAngle) < PARTIAL_REP_THRESHOLD then Partial
    else Shallow
  }

  function CompleteRepSpec(s: Session, isGoodRep: bool): Step
  {
    var count := s.repCount + 1;
    Step(s.(repCount := count), [RepCompleted(count, RepQuality(isGoodRep, s.lastElbowAngle), s.lastElbowAngle)])
  }

  /** The transition table, driven by the (smoothed) angle. */
  function TrackSpec(s: Session, angle: Option<real>): Step
  {
    match s.state
    case Waiting =>
      if Num(angle) > ANGLE_THRESHOLD_UP then UpdateStateSpec(s, Ready) else Step(s, [])
    case Ready | Up =>
      if Num(angle) < ANGLE_THRESHOLD_DOWN then
        var u := UpdateStateSpec(s, Down);
        Step(u.session.(lastElbowAngle := angle), u.emitted)
      else Step(s, [])
    case Down =>
      if Num(angle) > ANGLE_THRESHOLD_UP then
        var c := CompleteRepSpec(s, Num(s.lastElbowAngle) < ANGLE_THRESHOLD_DOWN);
        var u := UpdateStateSpec(c.session, Up);
        Step(u.session, c.emitted + u.emitted)
      else if Num(angle) < Num(s.lastElbowAngle) then Step(s.(lastElbowAngle := angle), [])
      else Step(s, [])
  }

  /** Smoothing, the angle update and the transition table, for a frame that produced a sample. */
  function AngleStepSpec(s: Session, sample: Option<real>): Step
  {
    var smoothed := SmoothAngle(s.smoothedAngle, sample);
    var t := TrackSpec(s.(smoothedAngle := smoothed), smoothed);
    Step(t.session, [AngleUpdated(Round(Num(smoothed)))] + t.emitted)
  }

  /** One call of `processPose`. */
  function ProcessSpec(s: Session, pose: Option<PoseData>, atan2Deg: (real, real) -> real): Step
  {
    if pose.None? || pose.value.landmarks.None? then Step(s, [])
    else
      var landmarks := pose.value.landmarks.value;
      if !AreKeyLandmarksVisible(landmarks) then UpdateStateSpec(s, Waiting)
      else if !IsHorizontalPosition(landmarks) then UpdateStateSpec(s, Waiting)
      else
        var left := CalculateElbowAngle(landmarks, Left, atan2Deg);
        var right := CalculateElbowAngle(landmarks, Right, atan2Deg);
        if left.None? && right.None? then Step(s, [])
        else AngleStepSpec(s, CombineAngles(left, right))
  }

  /** `getStats`: the rounded smoothed angle, or `null` when it is unset or exactly 0. */
  function StatsOf(s: Session): (stats: Stats)
    ensures stats.repCount == s.repCount && stats.currentState == s.state
    ensures stats.currentAngle.None? <==> s.smoothedAngle.None? || s.smoothedAngle.value == 0.0
    ensures stats.currentAngle.Some? ==>
              s.smoothedAngle.value - 0.5 < stats.currentAngle.value as real <= s.smoothedAngle.value + 0.5
  {
    Stats(s.repCount, s.state,
          if s.smoothedAngle.Some? && s.smoothedAngle.value != 0.0 then Some(Round(s.smoothedAngle.value)) else None)
  }

  // ---------------------------------------------------------------- invariant and properties

  /**
   * Outside `waiting` an angle has been seen, and in `down` the deepest
   * angle of the descent is recorded, below the down threshold and not
   * above the current smoothed angle.
   */
  predicate Inv(s: Session)
  {
    (s.state != Waiting ==> s.smoothedAngle.Some?)
    && (s.state == Down ==>
          s.lastElbowAngle.Some? && s.lastElbowAngle.value < ANGLE_THRESHOLD_DOWN
          && s.smoothedAngle.Some? && s.lastElbowAngle.value <= s.smoothedAngle.value)
  }

  /** Every completed rep in `events` is `good`, with its deepest angle recorded and below 90. */
  predicate AllRepsGood(events: seq<Event>)
  {
    forall i :: 0 <= i < |events| && events[i].RepCompleted? ==>
      events[i].quality == Good && events[i].angle.Some? && events[i].angle.value < ANGLE_THRESHOLD_DOWN
  }

  function CountReps(events: seq<Event>): nat
  {
    if |events| == 0 then 0
    else CountReps(events[..|events| - 1]) + (if events[|events| - 1].RepCompleted? then 1 else 0)
  }

  lemma {:induction false} CountRepsAppend(a: seq<Event>, b: seq<Event>)
    ensures CountReps(a + b) == CountReps(a) + CountReps(b)
  {
    if |b| > 0 {
      CountRepsAppend(a, b[..|b| - 1]);
      assert (a + b)[..|a + b| - 1] == a + b[..|b| - 1];
    } else {
      assert a + b == a;
    }
  }

  lemma AllRepsGoodAppend(a: seq<Event>, b: seq<Event>)
    requires AllRepsGood(a) && AllRepsGood(b)
    ensures AllRepsGood(a + b)
  {
    forall i | 0 <= i < |a + b| && (a + b)[i].RepCompleted?
      ensures (a + b)[i].quality == Good && (a + b)[i].angle.Some? && (a + b)[i].angle.value < ANGLE_THRESHOLD_DOWN
    {
      if i >= |a| { assert (a + b)[i] == b[i - |a|]; }
    }
  }

  /** `updateState` notifies exactly when the state actually changes. */
  lemma UpdateStateNotifiesOnChange(s: Session, newState: State)
    ensures UpdateStateSpec(s, newState).session == s.(state := newState)
    ensures UpdateStateSpec(s, newState).emitted == if s.state != newState then [StateChanged(newState)] else []
  {
  }

  /**
   * The transition table: `waiting` is left only for `ready` on an angle
   * above 160; `ready` and `up` only for `down` on an angle below 90, which
   * becomes the deepest angle; `down` only for `up` on an angle above 160,
   * completing one rep; staying in `down`, a lower angle becomes the
   * deepest one. Nothing but the state, the count and the deepest angle
   * changes. A state change is announced, after the rep when one
   * completes; staying put is silent.
   */
  lemma TrackTransitions(s: Session, angle: Option<real>)
    ensures var t := TrackSpec(s, angle).session;
      var emitted := TrackSpec(s, angle).emitted;
      && t.smoothedAngle == s.smoothedAngle
      && (t.state == s.state ==> emitted == [])
      && (t.state != s.state && s.state != Down ==> emitted == [StateChanged(t.state)])
      && (s.state == Down && t.state == Up ==>
            emitted == [RepCompleted(s.repCount + 1, RepQuality(Num(s.lastElbowAngle) < ANGLE_THRESHOLD_DOWN, s.lastElbowAngle),
                                     s.lastElbowAngle),
                        StateChanged(Up)])
      && (s.state == Waiting ==>
            (t.repCount == s.repCount && t.lastElbowAngle == s.lastElbowAngle
             && (t.state == Ready <==> Num(angle) > ANGLE_THRESHOLD_UP)
             && (t.state != Ready ==> t.state == Waiting)))
      && ((s.state == Ready || s.state == Up) ==>
            (t.repCount == s.repCount
             && (t.state == Down <==> Num(angle) < ANGLE_THRESHOLD_DOWN)
             && (t.state == Down ==> t.lastElbowAngle == angle)
             && (t.state != Down ==> t == s)))
      && (s.state == Down ==>
            (t.state == Up <==> Num(angle) > ANGLE_THRESHOLD_UP)
            && (t.state == Up ==> t.repCount == s.repCount + 1 && t.lastElbowAngle == s.lastElbowAngle)
            && (t.state != Up ==>
                  t.state == Down && t.repCount == s.repCount
                  && t.lastElbowAngle == (if Num(angle) < Num(s.lastElbowAngle) then angle else s.lastElbowAngle)))
  {
  }

  /** A frame without pose data or landmarks changes nothing and emits nothing. */
  lemma MissingPoseIgnored(s: Session, pose: Option<PoseData>, atan2Deg: (real, real) -> real)
    requires pose.None? || pose.value.landmarks.None?
    ensures ProcessSpec(s, pose, atan2Deg) == Step(s, [])
  {
  }

  /**
   * A frame without a visible arm, or not in push-up posture, forces
   * `waiting` and changes nothing else.
   */
  lemma FailedGateForcesWaiting(s: Session, landmarks: Frame, atan2Deg: (real, real) -> real)
    requires !AreKeyLandmarksVisible(landmarks) || !IsHorizontalPosition(landmarks)
    ensures ProcessSpec(s, Some(PoseData(Some(landmarks))), atan2Deg)
            == Step(s.(state := Waiting), if s.state != Waiting then [StateChanged(Waiting)] else [])
  {
  }

  /**
   * A frame that passes both gates emits one angle update, first, carrying
   * the rounded new smoothed angle; that angle is the combined sample when
   * none was set before, and the 0.3-smoothed value otherwise.
   */
  lemma PassingFrameSmoothsAndReports(s: Session, landmarks: Frame, atan2Deg: (real, real) -> real)
    requires AreKeyLandmarksVisible(landmarks) && IsHorizontalPosition(landmarks)
    ensures var left := CalculateElbowAngle(landmarks, Left, atan2Deg);
            var right := CalculateElbowAngle(landmarks, Right, atan2Deg);
            var sample := CombineAngles(left, right);
            var t := ProcessSpec(s, Some(PoseData(Some(landmarks))), atan2Deg);
            && (s.smoothedAngle.None? ==> t.session.smoothedAngle == sample)
            && (s.smoothedAngle.Some? ==>
                  t.session.smoothedAngle == Some(Smooth(s.smoothedAngle.value, Num(sample), SMOOTHING_FACTOR)))
            && |t.emitted| >= 1 && t.emitted[0] == AngleUpdated(Round(Num(t.session.smoothedAngle)))
  {
    VisibleArmYieldsAngle(landmarks, atan2Deg);
  }

  /**
   * One frame from a session satisfying `Inv`: the invariant holds again;
   * the count grows by the number of reps reported, at most one, and it
   * grows exactly when `down` turns into `up`; the reported rep carries the
   * new count and the deepest angle, and is `good`; while the session stays
   * in `down` the deepest angle never increases.
   */
  lemma {:induction false} ProcessStep(s: Session, pose: Option<PoseData>, atan2Deg: (real, real) -> real)
    requires Inv(s)
    ensures var t := ProcessSpec(s, pose, atan2Deg);
      && Inv(t.session)
      && AllRepsGood(t.emitted)
      && t.session.repCount == s.repCount + CountReps(t.emitted)
      && s.repCount <= t.session.repCount <= s.repCount + 1
      && (t.session.repCount > s.repCount <==> s.state == Down && t.session.state == Up)
      && (t.session.repCount > s.repCount ==>
            RepCompleted(t.session.repCount, Good, s.lastElbowAngle) in t.emitted)
      && (s.state == Down && t.session.state == Down ==>
            t.session.lastElbowAngle.value <= s.lastElbowAngle.value)
  {
    var t := ProcessSpec(s, pose, atan2Deg);
    if pose.None? || pose.value.landmarks.None? {
      assert t.emitted == [];
    } else {
      var landmarks := pose.value.landmarks.value;
      if !AreKeyLandmarksVisible(landmarks) || !IsHorizontalPosition(landmarks) {
        var e := t.emitted;
        assert CountReps(e) == 0 by {
          if e != [] { assert e[..0] == []; }
        }
      } else {
        var left := CalculateElbowAngle(landmarks, Left, atan2Deg);
        var right := CalculateElbowAngle(landmarks, Right, atan2Deg);
        if left.Some? || right.Some? {
          AngleStep(s, CombineAngles(left, right));
        }
      }
    }
  }

  lemma AngleStep(s: Session, sample: Option<real>)
    requires Inv(s)
    ensures var t := AngleStepSpec(s, sample);
      && Inv(t.session)
      && AllRepsGood(t.emitted)
      && t.session.repCount == s.repCount + CountReps(t.emitted)
      && s.repCount <= t.session.repCount <= s.repCount + 1
      && (t.session.repCount > s.repCount <==> s.state == Down && t.session.state == Up)
      && (t.session.repCount > s.repCount ==>
            RepCompleted(t.session.repCount, Good, s.lastElbowAngle) in t.emitted)
      && (s.state == Down && t.session.state == Down ==>
            t.session.lastElbowAngle.value <= s.lastElbowAngle.value)
  {
    var smoothed := SmoothAngle(s.smoothedAngle, sample);
    var s1 := s.(smoothedAngle := smoothed);
    var tr := TrackSpec(s1, smoothed);
    var head := [AngleUpdated(Round(Num(smoothed)))];
    assert AngleStepSpec(s, sample).emitted == head + tr.emitted;
    CountRepsAppend(head, tr.emitted);
    assert CountReps(head) == 0 by { assert head[..0] == []; }
    if s.state == Down && Num(smoothed) > ANGLE_THRESHOLD_UP {
      var c := CompleteRepSpec(s1, Num(s1.lastElbowAngle) < ANGLE_THRESHOLD_DOWN);
      var u := UpdateStateSpec(c.session, Up);
      assert tr.emitted == c.emitted + u.emitted;
      assert u.emitted == [StateChanged(Up)];
      CountRepsAppend(c.emitted, u.emitted);
      assert CountReps(c.emitted) == 1 by { assert c.emitted[..0] == []; }
      assert CountReps(u.emitted) == 0 by { assert u.emitted[..0] == []; }
      assert AngleStepSpec(s, sample).emitted[1] == RepCompleted(s.repCount + 1, Good, s.lastElbowAngle);
    } else {
      assert CountReps(tr.emitted) == 0 by {
        if tr.emitted != [] { assert tr.emitted[..0] == []; }
      }
    }
  }

  /** The sessions and events of a sequence of frames, processed in order. */
  function Run(s: Session, frames: seq<Option<PoseData>>, atan2Deg: (real, real) -> real): Step
  {
    if |frames| == 0 then Step(s, [])
    else
      var before := Run(s, frames[..|frames| - 1], atan2Deg);
      var last := ProcessSpec(before.session, frames[|frames| - 1], atan2Deg);
      Step(last.session, before.emitted + last.emitted)
  }

  /**
   * Over any sequence of frames from a session satisfying `Inv` (such as
   * the initial one): the count never decreases, it grows by exactly the
   * number of reps reported, and every reported rep is `good`.
   */
  lemma {:induction false} RunCountsEveryRepOnce(s: Session, frames: seq<Option<PoseData>>, atan2Deg: (real, real) -> real)
    requires Inv(s)
    ensures var r := Run(s, frames, atan2Deg);
      && Inv(r.session)
      && AllRepsGood(r.emitted)
      && r.session.repCount == s.repCount + CountReps(r.emitted)
      && s.repCount <= r.session.repCount
  {
    if |frames| > 0 {
      var before := Run(s, frames[..|frames| - 1], atan2Deg);
      RunCountsEveryRepOnce(s, frames[..|frames| - 1], atan2Deg);
      var last := ProcessSpec(before.session, frames[|frames| - 1], atan2Deg);
      ProcessStep(before.session, frames[|frames| - 1], atan2Deg);
      CountRepsAppend(before.emitted, last.emitted);
      AllRepsGoodAppend(before.emitted, last.emitted);
    }
  }

  /** The initial session satisfies the invariant and reads as zero reps, `waiting`, no angle. */
  lemma InitialSession()
    ensures Inv(Initial)
    ensures StatsOf(Initial) == Stats(0, Waiting, None)
  {
  }

  // ---------------------------------------------------------------- scenarios

  /** The transition table alone, fed raw angles in order. */
  function RunTable(s: Session, angles: seq<real>): Step
  {
    if |angles| == 0 then Step(s, [])
    else
      var before := RunTable(s, angles[..|angles| - 1]);
      var last := TrackSpec(before.session, Some(angles[|angles| - 1]));
      Step(last.session, before.emitted + last.emitted)
  }

  /** Smoothing plus the transition table, fed per-frame samples in order. */
  function RunSamples(s: Session, samples: seq<real>): Step
  {
    if |samples| == 0 then Step(s, [])
    else
      var before := RunSamples(s, samples[..|samples| - 1]);
      var last := AngleStepSpec(before.session, Some(samples[|samples| - 1]));
      Step(last.session, before.emitted + last.emitted)
  }

  /**
   * Holding one angle `v` frame after frame: a tracker without an angle
   * takes `v` at once, and one with an angle approaches `v` exactly as
   * repeated smoothing with factor 0.3 does, so `SmoothingConverges`
   * bounds its remaining offset by `1 / (1 + 0.3 n)` of the initial one.
   */
  lemma {:induction false} HeldAngleSmoothing(s: Session, v: real, samples: seq<real>)
    requires forall i :: 0 <= i < |samples| ==> samples[i] == v
    ensures var r := RunSamples(s, samples).session.smoothedAngle;
      && (s.smoothedAngle.Some? ==> r == Some(SmoothTimes(s.smoothedAngle.value, v, SMOOTHING_FACTOR, |samples|)))
      && (s.smoothedAngle.None? && |samples| > 0 ==> r == Some(v))
  {
    if |samples| > 0 {
      var front := samples[..|samples| - 1];
      HeldAngleSmoothing(s, v, front);
      var before := RunSamples(s, front).session;
      var smoothed := SmoothAngle(before.smoothedAngle, Some(v));
      TrackTransitions(before.(smoothedAngle := smoothed), smoothed);
    }
  }

  /**
   * The table fed 170, 150, 80, 70, 165 goes ready, down, and completes one
   * good rep at depth 70 before going up.
   */
  lemma TableScenario()
    ensures RunTable(Initial, [170.0, 150.0, 80.0, 70.0, 165.0])
            == Step(Session(1, Up, Some(70.0), None),
                    [StateChanged(Ready), StateChanged(Down), RepCompleted(1, Good, Some(70.0)), StateChanged(Up)])
  {
    var a1, a2, a3, a4, a5 := [170.0], [170.0, 150.0], [170.0, 150.0, 80.0], [170.0, 150.0, 80.0, 70.0], [170.0, 150.0, 80.0, 70.0, 165.0];
    assert a1[..0] == [] && a2[..1] == a1 && a3[..2] == a2 && a4[..3] == a3 && a5[..4] == a4;
    assert RunTable(Initial, a1) == Step(Session(0, Ready, None, None), [StateChanged(Ready)]);
    assert RunTable(Initial, a2) == Step(Session(0, Ready, None, None), [StateChanged(Ready)]);
    assert RunTable(Initial, a3) == Step(Session(0, Down, Some(80.0), None), [StateChanged(Ready), StateChanged(Down)]);
    assert RunTable(Initial, a4) == Step(Session(0, Down, Some(70.0), None), [StateChanged(Ready), StateChanged(Down)]);
  }

  /**
   * The same five samples through the smoothing of `processPose` never get
   * below 90 (the smoothed angles are 170, 164, 138.8, 118.16, 132.212), so
   * no rep is counted and the session stays `ready`.
   */
  lemma SmoothedScenario()
    ensures RunSamples(Initial, [170.0, 150.0, 80.0, 70.0, 165.0]).session
            == Session(0, Ready, None, Some(132.212))
  {
    var a1, a2, a3, a4, a5 := [170.0], [170.0, 150.0], [170.0, 150.0, 80.0], [170.0, 150.0, 80.0, 70.0], [170.0, 150.0, 80.0, 70.0, 165.0];
    assert a1[..0] == [] && a2[..1] == a1 && a3[..2] == a2 && a4[..3] == a3 && a5[..4] == a4;
    assert RunSamples(Initial, a1).session == Session(0, Ready, None, Some(170.0));
    assert RunSamples(Initial, a2).session == Session(0, Ready, None, Some(164.0));
    assert RunSamples(Initial, a3).session == Session(0, Ready, None, Some(138.8));
    assert RunSamples(Initial, a4).session == Session(0, Ready, None, Some(118.16));
  }

  // ---------------------------------------------------------------- the object

  /** The tracker object. `events` holds, in order, everything the registered callbacks received. */
  class Tracker {
    var repCount: nat
    var currentState: State
    var lastElbowAngle: Option<real>
    var smoothedAngle: Option<real>
    var events: seq<Event>

    function Current(): Session
      reads this
    {
      Session(repCount, currentState, lastElbowAngle, smoothedAngle)
    }

    ghost predicate Valid()
      reads this
    {
      Inv(Current()) && AllRepsGood(events)
    }

    /** The object as declared, before `init`. */
    constructor ()
      ensures Current() == Initial && events == [] && Valid()
    {
      repCount, currentState, lastElbowAngle, smoothedAngle := 0, Waiting, None, None;
      events := [];
    }

    /** Registers fresh callbacks (an empty log) and resets. */
    method Init()
      modifies this
      ensures Current() == Initial && events == [] && Valid()
    {
      events := [];
      Reset();
    }

    method Reset()
      modifies this
      ensures Current() == Initial && events == old(events)
      ensures old(Valid()) ==> Valid()
    {
      repCount := 0;
      currentState := Waiting;
      lastElbowAngle := None;
      smoothedAngle := None;
    }

    method UpdateState(newState: State)
      modifies this
      ensures currentState == newState
      ensures repCount == old(repCount) && lastElbowAngle == old(lastElbowAngle) && smoothedAngle == old(smoothedAngle)
      ensures events == old(events) + if old(currentState) != newState then [StateChanged(newState)] else []
    {
      if currentState != newState {
        currentState := newState;
        events := events + [StateChanged(newState)];
      }
    }

    method CompleteRep(isGoodRep: bool)
      modifies this
      ensures repCount == old(repCount) + 1
      ensures currentState == old(currentState) && lastElbowAngle == old(lastElbowAngle) && smoothedAngle == old(smoothedAngle)
      ensures events == old(events) + [RepCompleted(repCount, RepQuality(isGoodRep, lastElbowAngle), lastElbowAngle)]
    {
      repCount := repCount + 1;
      var repQuality := if isGoodRep then Good
                        else if Num(lastElbowAngle) < PARTIAL_REP_THRESHOLD then Partial
                        else Shallow;
      events := events + [RepCompleted(repCount, repQuality, lastElbowAngle)];
    }

    method TrackPushupState(angle: Option<real>)
      modifies this
      ensures Current() == TrackSpec(old(Current()), angle).session
      ensures events == old(events) + TrackSpec(old(Current()), angle).emitted
    {
      match currentState {
        case Waiting =>
          if Num(angle) > ANGLE_THRESHOLD_UP {
            UpdateState(Ready);
          }
        case Ready =>
          if Num(angle) < ANGLE_THRESHOLD_DOWN {
            UpdateState(Down);
            lastElbowAngle := angle;
          }
        case Up =>
          if Num(angle) < ANGLE_THRESHOLD_DOWN {
            UpdateState(Down);
            lastElbowAngle := angle;
          }
        case Down =>
          if Num(angle) > ANGLE_THRESHOLD_UP {
            CompleteRep(Num(lastElbowAngle) < ANGLE_THRESHOLD_DOWN);
            UpdateState(Up);
          } else if Num(angle) < Num(lastElbowAngle) {
            lastElbowAngle := angle;
          }
      }
    }

    /**
     * Processes one pose frame as `ProcessSpec` defines it, keeping `Valid`;
     * `ProcessStep` states what that means for the count and the deepest angle.
     */
    method ProcessPose(pose: Option<PoseData>, atan2Deg: (real, real) -> real)
      requires Valid()
      modifies this
      ensures Valid()
      ensures Current() == ProcessSpec(old(Current()), pose, atan2Deg).session
      ensures events == old(events) + ProcessSpec(old(Current()), pose, atan2Deg).emitted
    {
      ghost var before := Current();
      ghost var spec := ProcessSpec(before, pose, atan2Deg);
      ProcessStep(before, pose, atan2Deg);
      AllRepsGoodAppend(events, spec.emitted);
      if pose.None? || pose.value.landmarks.None? {
        return;
      }
      var landmarks := pose.value.landmarks.value;

      if !AreKeyLandmarksVisible(landmarks) {
        assert spec == UpdateStateSpec(before, Waiting);
        UpdateState(Waiting);
        return;
      }
      if !IsHorizontalPosition(landmarks) {
        assert spec == UpdateStateSpec(before, Waiting);
        UpdateState(Waiting);
        return;
      }

      var leftElbowAngle := CalculateElbowAngle(landmarks, Left, atan2Deg);
      var rightElbowAngle := CalculateElbowAngle(landmarks, Right, atan2Deg);
      if leftElbowAngle.None? && rightElbowAngle.None? {
        // not reached: the visibility gate leaves one arm with an angle (VisibleArmYieldsAngle)
        assert false;
        return;
      }

      var currentAngle: Option<real>;
      if leftElbowAngle.Some? && rightElbowAngle.Some? {
        currentAngle := Some((leftElbowAngle.value + rightElbowAngle.value) / 2.0);
      } else {
        currentAngle := Or(leftElbowAngle, rightElbowAngle);
      }
      assert spec == AngleStepSpec(before, currentAngle);
      ApplySample(currentAngle);
    }

    /** The part of `processPose` after the angle of the frame is known: smooth, report, track. */
    method ApplySample(currentAngle: Option<real>)
      modifies this
      ensures Current() == AngleStepSpec(old(Current()), currentAngle).session
      ensures events == old(events) + AngleStepSpec(old(Current()), currentAngle).emitted
    {
      if smoothedAngle.None? {
        smoothedAngle := currentAngle;
      } else {
        smoothedAngle := Some(Smooth(smoothedAngle.value, Num(currentAngle), SMOOTHING_FACTOR));
      }
      events := events + [AngleUpdated(Round(Num(smoothedAngle)))];
      TrackPushupState(smoothedAngle);
    }

    method GetStats() returns (stats: Stats)
      ensures stats == StatsOf(Current())
    {
      var currentAngle := if smoothedAngle.Some? && smoothedAngle.value != 0.0 then Some(Round(smoothedAngle.value)) else None;
      stats := Stats(repCount, currentState, currentAngle);
    }
  }
}
