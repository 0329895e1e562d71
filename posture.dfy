/**
 * The state of the motion view model as a value, and each of its operations
 * as a function from the state before to the state after: calibration
 * presses, the reset, the posture evaluation with its alert control, and the
 * AirPods connection and sample events.
 */
module Posture {
  import opened Options
  import opened Calibration

  /** `abs(range) <= DegenerateRange` means the two reference pitches coincide. */
  const DegenerateRange: real := 0.000001

  /** The fraction from which the repeating beep runs. */
  const BeepThreshold: real := 0.1

  /**
   * Everything the view model holds that the calibration and alert logic
   * reads or writes. Pitches are in degrees. `beepTimer` is the handle of
   * the repeating beep timer (`None` when no timer exists); each newly
   * scheduled timer gets the handle `timersScheduled`, so a handle that
   * stays the same is a timer that was not restarted.
   */
  datatype ViewState = ViewState(
    stage: Stage,
    neutralPitch: Option<real>,
    headDownPitch: Option<real>,
    airpodsPitch: Option<real>,
    airpodsRoll: Option<real>,
    airpodsYaw: Option<real>,
    isAirpodsMotionActive: bool,
    percentDown: real,
    beepTimer: Option<nat>,
    timersScheduled: nat)

  /**
   * The state right after the view model is created: not calibrated, no
   * reading, no alert, disconnected; it satisfies the invariant.
   */
  function Initial(): (r: ViewState)
    ensures Inv(r)
    ensures StageText(r.stage) == "Not Started"
    ensures r.percentDown == 0.0 && !Beeping(r) && !r.isAirpodsMotionActive
  {
    ViewState(NotStarted, None, None, None, None, None, false, 0.0, None, 0)
  }

  predicate Beeping(m: ViewState) {
    m.beepTimer.Some?
  }

  function Abs(x: real): (a: real) {
    if x < 0.0 then -x else x
  }

  /**
   * What holds of every reachable state: the references present are exactly
   * those the stage has captured, no reading and no alert exist before
   * calibration is done, a running alert means the last reading was at
   * least the threshold, and a disconnected sensor leaves no live angles.
   */
  ghost predicate Inv(m: ViewState) {
    && (m.neutralPitch.Some? <==> (m.stage == CaptureDown || m.stage == Done))
    && (m.headDownPitch.Some? <==> m.stage == Done)
    && (m.stage != Done ==> m.percentDown == 0.0 && !Beeping(m))
    && (Beeping(m) ==> m.percentDown >= BeepThreshold)
    && (Beeping(m) ==> m.beepTimer.value < m.timersScheduled)
    && (!m.isAirpodsMotionActive ==>
          m.airpodsPitch.None? && m.airpodsRoll.None? && m.airpodsYaw.None?)
  }

  /** The pitch a calibration press records: the live AirPods pitch, or 0 when there is none. */
  function Captured(pitch: Option<real>): (p: real)
    ensures pitch.Some? ==> p == pitch.value
    ensures pitch.None? ==> p == 0.0
  {
    pitch.GetOr(0.0)
  }

  /** The calibration button: advance one stage, capturing a reference on the way. */
  function Press(m: ViewState): (r: ViewState)
    ensures m.stage == Done ==> r == m
    ensures m.stage != Done ==> Rank(r.stage) == Rank(m.stage) + 1
    ensures r.neutralPitch ==
      if m.stage == CaptureNeutral then Some(Captured(m.airpodsPitch)) else m.neutralPitch
    ensures r.headDownPitch ==
      if m.stage == CaptureDown then Some(Captured(m.airpodsPitch)) else m.headDownPitch
    ensures r.(stage := m.stage, neutralPitch := m.neutralPitch, headDownPitch := m.headDownPitch) == m
    ensures Inv(m) ==> Inv(r)
  {
    match m.stage
    case NotStarted =>
      m.(stage := CaptureNeutral)
    case CaptureNeutral =>
      m.(neutralPitch := Some(Captured(m.airpodsPitch)), stage := CaptureDown)
    case CaptureDown =>
      m.(headDownPitch := Some(Captured(m.airpodsPitch)), stage := Done)
    case Done =>
      m
  }

  /** Cancel the beep timer, if any. */
  function StopBeeping(m: ViewState): (r: ViewState)
    ensures !Beeping(r)
    ensures r.(beepTimer := m.beepTimer) == m
  {
    m.(beepTimer := None)
  }

  /** Make sure a beep timer runs; a timer that already runs is left as it is. */
  function StartBeeping(m: ViewState): (r: ViewState)
    ensures Beeping(r)
    ensures Beeping(m) ==> r == m
    ensures !Beeping(m) ==>
      r.beepTimer == Some(m.timersScheduled) && r.timersScheduled == m.timersScheduled + 1
    ensures r.(beepTimer := m.beepTimer, timersScheduled := m.timersScheduled) == m
  {
    if m.beepTimer.Some? then m
    else m.(beepTimer := Some(m.timersScheduled), timersScheduled := m.timersScheduled + 1)
  }

  /** Throw the calibration away: back to the first stage, no references, no reading, no alert. */
  function Recalibrate(m: ViewState): (r: ViewState)
    ensures r.stage == NotStarted && r.neutralPitch.None? && r.headDownPitch.None?
    ensures r.percentDown == 0.0 && !Beeping(r)
    ensures r.airpodsPitch == m.airpodsPitch && r.airpodsRoll == m.airpodsRoll
    ensures r.airpodsYaw == m.airpodsYaw && r.isAirpodsMotionActive == m.isAirpodsMotionActive
    ensures Inv(m) ==> Inv(r)
  {
    StopBeeping(m.(stage := NotStarted, neutralPitch := None, headDownPitch := None, percentDown := 0.0))
  }

  /**
   * Where `current` lies between the neutral and head-down references, as a
   * fraction of the way from neutral (0) to head-down (1); not clamped.
   */
  function Fraction(neutral: real, down: real, current: real): (f: real)
    requires down != neutral
    ensures neutral + f * (down - neutral) == current
    ensures current == neutral <==> f == 0.0
    ensures current == down <==> f == 1.0
  {
    var f := (current - neutral) / (down - neutral);
    assert neutral + f * (down - neutral) == current;
    assert (down - neutral) / (down - neutral) == 1.0;
    assert current == neutral ==> f == 0.0;
    assert f == 0.0 ==> current == neutral;
    f
  }

  /**
   * Recompute `percentDown` from the live pitch and switch the beep on or
   * off. Nothing happens before both references exist; nearly equal
   * references pin the reading to 0 and stop the beep.
   */
  function Evaluate(m: ViewState): (r: ViewState)
    ensures m.neutralPitch.None? || m.headDownPitch.None? ==> r == m
    ensures m.neutralPitch.Some? && m.headDownPitch.Some? &&
            Abs(m.headDownPitch.value - m.neutralPitch.value) <= DegenerateRange ==>
              r.percentDown == 0.0 && !Beeping(r)
    ensures m.neutralPitch.Some? && m.headDownPitch.Some? &&
            Abs(m.headDownPitch.value - m.neutralPitch.value) > DegenerateRange ==>
              r.percentDown == Fraction(m.neutralPitch.value, m.headDownPitch.value,
                                        Captured(m.airpodsPitch))
    ensures m.neutralPitch.Some? && m.headDownPitch.Some? ==>
              (Beeping(r) <==> r.percentDown >= BeepThreshold)
    ensures Beeping(m) && Beeping(r) ==> r.beepTimer == m.beepTimer
    ensures r.(percentDown := m.percentDown, beepTimer := m.beepTimer,
               timersScheduled := m.timersScheduled) == m
    ensures Inv(m) ==> Inv(r)
  {
    if m.neutralPitch.None? || m.headDownPitch.None? then m
    else
      var neutral := m.neutralPitch.value;
      var range := m.headDownPitch.value - neutral;
      if Abs(range) <= DegenerateRange then
        StopBeeping(m.(percentDown := 0.0))
      else
        var fraction := (Captured(m.airpodsPitch) - neutral) / range;
        var m' := m.(percentDown := fraction);
        if fraction >= BeepThreshold then StartBeeping(m') else StopBeeping(m')
  }

  /** Forget the live AirPods angles. */
  function ClearAirpodsData(m: ViewState): (r: ViewState)
    ensures r.airpodsPitch.None? && r.airpodsRoll.None? && r.airpodsYaw.None?
    ensures r.(airpodsPitch := m.airpodsPitch, airpodsRoll := m.airpodsRoll,
               airpodsYaw := m.airpodsYaw) == m
  {
    m.(airpodsPitch := None, airpodsRoll := None, airpodsYaw := None)
  }

  /**
   * Assign the AirPods connection flag. Marking it inactive forgets the live
   * angles and nothing else: calibration, reading and beep stay as they were.
   */
  function SetAirpodsMotionActive(m: ViewState, active: bool): (r: ViewState)
    ensures r.isAirpodsMotionActive == active
    ensures active ==> r == m.(isAirpodsMotionActive := true)
    ensures !active ==> r.airpodsPitch.None? && r.airpodsRoll.None? && r.airpodsYaw.None?
    ensures r.stage == m.stage && r.neutralPitch == m.neutralPitch
    ensures r.headDownPitch == m.headDownPitch && r.percentDown == m.percentDown
    ensures r.beepTimer == m.beepTimer && r.timersScheduled == m.timersScheduled
    ensures Inv(m) ==> Inv(r)
  {
    var m' := m.(isAirpodsMotionActive := active);
    if !active then ClearAirpodsData(m') else m'
  }

  /**
   * A new AirPods attitude sample (degrees): the sensor counts as active,
   * the live angles are replaced and the posture is evaluated again.
   */
  function Sample(m: ViewState, pitch: real, roll: real, yaw: real): (r: ViewState)
    ensures r.isAirpodsMotionActive
    ensures r.airpodsPitch == Some(pitch) && r.airpodsRoll == Some(roll) && r.airpodsYaw == Some(yaw)
    ensures r.stage == m.stage && r.neutralPitch == m.neutralPitch && r.headDownPitch == m.headDownPitch
    ensures Inv(m) && m.stage == Done && Abs(m.headDownPitch.value - m.neutralPitch.value) > DegenerateRange ==>
              r.percentDown == Fraction(m.neutralPitch.value, m.headDownPitch.value, pitch)
    ensures Inv(m) && m.stage == Done && Abs(m.headDownPitch.value - m.neutralPitch.value) <= DegenerateRange ==>
              r.percentDown == 0.0 && !Beeping(r)
    ensures Inv(m) && m.stage == Done ==> (Beeping(r) <==> r.percentDown >= BeepThreshold)
    ensures Inv(m) ==> Inv(r)
  {
    var m' := SetAirpodsMotionActive(m, true);
    Evaluate(m'.(airpodsPitch := Some(pitch), airpodsRoll := Some(roll), airpodsYaw := Some(yaw)))
  }

  /** Stopping the sensor updates cancels the beep and keeps the rest. */
  function StopUpdates(m: ViewState): (r: ViewState)
    ensures !Beeping(r)
    ensures r.(beepTimer := m.beepTimer) == m
    ensures Inv(m) ==> Inv(r)
  {
    StopBeeping(m)
  }

  /** The things that can happen to the view model. */
  datatype Event =
    | PressButton
    | Reset
    | AirpodsSample(pitch: real, roll: real, yaw: real)
    | AirpodsActive(active: bool)
    | Stop

  function Step(m: ViewState, e: Event): (r: ViewState)
    ensures Inv(m) ==> Inv(r)
  {
    match e
    case PressButton => Press(m)
    case Reset => Recalibrate(m)
    case AirpodsSample(p, ro, y) => Sample(m, p, ro, y)
    case AirpodsActive(a) => SetAirpodsMotionActive(m, a)
    case Stop => StopUpdates(m)
  }

  /** The state after the events `es`, in order. */
  function Run(m: ViewState, es: seq<Event>): (r: ViewState)
    decreases |es|
  {
    if es == [] then m else Run(Step(m, es[0]), es[1..])
  }

  /** No sequence of events leaves the invariant. */
  lemma {:induction false} RunPreservesInv(m: ViewState, es: seq<Event>)
    requires Inv(m)
    ensures Inv(Run(m, es))
    decreases |es|
  {
    if es != [] {
      RunPreservesInv(Step(m, es[0]), es[1..]);
    }
  }

  function Presses(k: nat): (es: seq<Event>)
    ensures |es| == k && forall i :: 0 <= i < k ==> es[i] == PressButton
  {
    seq(k, _ => PressButton)
  }

  function Min(a: nat, b: nat): (m: nat) {
    if a <= b then a else b
  }

  /** `k` presses advance the stage by `k` steps, stopping at `Done`. */
  lemma {:induction false} PressesAdvance(m: ViewState, k: nat)
    ensures Rank(Run(m, Presses(k)).stage) == Min(Rank(m.stage) + k, 3)
    decreases k
  {
    if k > 0 {
      assert Presses(k)[1..] == Presses(k - 1);
      PressesAdvance(Press(m), k - 1);
    }
  }

  /**
   * After a reset, three presses complete the calibration, whatever the
   * state before; fewer leave it incomplete.
   */
  lemma ResetThenPresses(m: ViewState, k: nat)
    requires Inv(m)
    ensures var r := Run(m, [Reset] + Presses(k));
            (r.stage == Done <==> k >= 3) &&
            (r.neutralPitch.Some? && r.headDownPitch.Some? <==> k >= 3)
  {
    var es := [Reset] + Presses(k);
    assert es[1..] == Presses(k);
    PressesAdvance(Recalibrate(m), k);
    RunPreservesInv(Recalibrate(m), Presses(k));
  }

  /** Every event is a sample whose pitch reads at least the threshold. */
  ghost predicate SustainedDeviation(neutral: real, down: real, es: seq<Event>)
    requires down != neutral
  {
    forall i :: 0 <= i < |es| ==>
      es[i].AirpodsSample? && Fraction(neutral, down, es[i].pitch) >= BeepThreshold
  }

  /**
   * While every new sample stays at or beyond the threshold, the beep timer
   * that is already running is kept: the beep cadence is never restarted.
   */
  lemma {:induction false} SustainedDeviationKeepsTimer(m: ViewState, es: seq<Event>)
    requires Inv(m) && m.stage == Done && Beeping(m)
    requires Abs(m.headDownPitch.value - m.neutralPitch.value) > DegenerateRange
    requires SustainedDeviation(m.neutralPitch.value, m.headDownPitch.value, es)
    ensures Run(m, es).beepTimer == m.beepTimer
    decreases |es|
  {
    if es != [] {
      var m' := Step(m, es[0]);
      assert Beeping(m');
      assert SustainedDeviation(m.neutralPitch.value, m.headDownPitch.value, es[1..]) by {
        forall i | 0 <= i < |es[1..]|
          ensures es[1..][i].AirpodsSample?
          ensures Fraction(m.neutralPitch.value, m.headDownPitch.value, es[1..][i].pitch) >= BeepThreshold
        {
          assert es[1..][i] == es[i + 1];
        }
      }
      SustainedDeviationKeepsTimer(m', es[1..]);
    }
  }

  /**
   * The walk-through of a calibration: neutral captured at 10 degrees, head
   * down at 30, then a pitch of 22 reads 0.6 and beeps; the samples before
   * calibration completes change no reading.
   */
  lemma CalibrationWalkThrough()
    ensures var r := Run(Initial(), [PressButton, AirpodsSample(10.0, 0.0, 0.0), PressButton,
                                     AirpodsSample(30.0, 0.0, 0.0), PressButton,
                                     AirpodsSample(22.0, 0.0, 0.0)]);
            r.stage == Done && r.neutralPitch == Some(10.0) && r.headDownPitch == Some(30.0) &&
            r.percentDown == 0.6 && Beeping(r)
  {
  }

  /** With references 10 and 30 the reading interpolates linearly and is not clamped. */
  lemma FractionExamples()
    ensures Fraction(10.0, 30.0, 10.0) == 0.0 && Fraction(10.0, 30.0, 30.0) == 1.0
    ensures Fraction(10.0, 30.0, 20.0) == 0.5 && Fraction(10.0, 30.0, 5.0) == -0.25
    ensures Fraction(10.0, 30.0, 22.0) == 0.6 && Fraction(10.0, 30.0, 40.0) == 1.5
  {
  }

  /** References 10 and 10.0000001 are degenerate: whatever the pitch, the reading is 0 and nothing beeps. */
  lemma DegenerateCalibration(m: ViewState, pitch: real)
    requires Inv(m) && m.stage == Done
    requires m.neutralPitch == Some(10.0) && m.headDownPitch == Some(10.0000001)
    ensures Sample(m, pitch, 0.0, 0.0).percentDown == 0.0
    ensures !Beeping(Sample(m, pitch, 0.0, 0.0))
  {
  }

  /** Starting twice is starting once; stopping twice is stopping once. */
  lemma BeepControlIdempotent(m: ViewState)
    ensures StartBeeping(StartBeeping(m)) == StartBeeping(m)
    ensures StopBeeping(StopBeeping(m)) == StopBeeping(m)
  {
  }

  /** A press at `Done` changes nothing, so the calibration cannot be overwritten without a reset. */
  lemma PressAtDoneKeepsReferences(m: ViewState, k: nat)
    requires m.stage == Done
    ensures Run(m, Presses(k)) == m
    decreases k
  {
    if k > 0 {
      assert Presses(k)[1..] == Presses(k - 1);
      PressAtDoneKeepsReferences(m, k - 1);
    }
  }
}
