/**
 * The motion view model as an object: its fields are updated in place by the
 * calibration button, the reset, the AirPods connection flag, incoming
 * samples and the beep start/stop helpers. Every method is tied to the
 * transition of the same name on `Posture.ViewState`, which states what it
 * does and carries the proofs.
 */
module MotionModel {
  import opened Options
  import opened Calibration
  import opened Posture

  class MotionViewModel {
    var airpodsPitch: Option<real>
    var airpodsRoll: Option<real>
    var airpodsYaw: Option<real>
    var isAirpodsMotionActive: bool
    var stage: Stage
    var neutralPitch: Option<real>
    var headDownPitch: Option<real>
    var percentDown: real
    /** Handle of the repeating beep timer; `None` when no timer exists. */
    var beepTimer: Option<nat>
    /** How many beep timers have been scheduled; the next one gets this handle. */
    var timersScheduled: nat

    /** The object's fields as a value. */
    function Model(): (m: ViewState)
      reads this
    {
      ViewState(stage, neutralPitch, headDownPitch, airpodsPitch, airpodsRoll, airpodsYaw,
                isAirpodsMotionActive, percentDown, beepTimer, timersScheduled)
    }

    ghost predicate Valid()
      reads this
    {
      Inv(Model())
    }

    constructor ()
      ensures Valid() && Model() == Initial()
    {
      airpodsPitch, airpodsRoll, airpodsYaw := None, None, None;
      isAirpodsMotionActive := false;
      stage := NotStarted;
      neutralPitch, headDownPitch := None, None;
      percentDown := 0.0;
      beepTimer := None;
      timersScheduled := 0;
    }

    /** Calibration is complete exactly when both reference pitches are held. */
    function IsCalibrated(): (calibrated: bool)
      reads this
      requires Valid()
      ensures calibrated <==> neutralPitch.Some? && headDownPitch.Some?
      ensures calibrated <==> CalibrationStageText() == "Calibrated"
    {
      stage == Done
    }

    /** The status line; it reads "Calibrated" exactly when calibration is complete. */
    function CalibrationStageText(): (text: string)
      reads this
      ensures text == "Calibrated" <==> stage == Done
    {
      StageText(stage)
    }

    method HandleCalibrationButtonPress()
      requires Valid()
      modifies this
      ensures Valid()
      ensures Model() == Press(old(Model()))
    {
      match stage
      case NotStarted =>
        stage := CaptureNeutral;
      case CaptureNeutral =>
        neutralPitch := Some(airpodsPitch.GetOr(0.0));
        stage := CaptureDown;
      case CaptureDown =>
        headDownPitch := Some(airpodsPitch.GetOr(0.0));
        stage := Done;
      case Done =>
    }

    method Recalibrate()
      requires Valid()
      modifies this
      ensures Valid()
      ensures Model() == Posture.Recalibrate(old(Model()))
    {
      stage := NotStarted;
      neutralPitch := None;
      headDownPitch := None;
      percentDown := 0.0;
      StopBeeping();
    }

    method StopUpdates()
      requires Valid()
      modifies this
      ensures Valid()
      ensures Model() == Posture.StopUpdates(old(Model()))
    {
      StopBeeping();
    }

    /** Assigning the connection flag; the assignment of `false` clears the live angles. */
    method SetAirpodsMotionActive(active: bool)
      requires Valid()
      modifies this
      ensures Valid()
      ensures Model() == Posture.SetAirpodsMotionActive(old(Model()), active)
    {
      isAirpodsMotionActive := active;
      if !isAirpodsMotionActive {
        ClearAirpodsData();
      }
    }

    method ClearAirpodsData()
      modifies this
      ensures Model() == Posture.ClearAirpodsData(old(Model()))
    {
      airpodsPitch := None;
      airpodsRoll := None;
      airpodsYaw := None;
    }

    /** An AirPods attitude sample in degrees arrives. */
    method ReceiveAirpodsSample(pitch: real, roll: real, yaw: real)
      requires Valid()
      modifies this
      ensures Valid()
      ensures Model() == Sample(old(Model()), pitch, roll, yaw)
    {
      SetAirpodsMotionActive(true);
      airpodsPitch := Some(pitch);
      airpodsRoll := Some(roll);
      airpodsYaw := Some(yaw);
      UpdatePercentDownAndCheckBeep();
    }

    method UpdatePercentDownAndCheckBeep()
      requires Valid()
      modifies this
      ensures Valid()
      ensures Model() == Evaluate(old(Model()))
    {
      if neutralPitch.None? || headDownPitch.None? {
        return;
      }
      var neutral := neutralPitch.value;
      var range := headDownPitch.value - neutral;
      if Abs(range) <= DegenerateRange {
        percentDown := 0.0;
        StopBeeping();
        return;
      }
      var current := airpodsPitch.GetOr(0.0);
      var fraction := (current - neutral) / range;
      percentDown := fraction;
      if fraction >= BeepThreshold {
        StartBeeping();
      } else {
        StopBeeping();
      }
    }

    method StartBeeping()
      modifies this
      ensures Model() == Posture.StartBeeping(old(Model()))
    {
      if beepTimer.Some? {
        return;
      }
      beepTimer := Some(timersScheduled);
      timersScheduled := timersScheduled + 1;
    }

    method StopBeeping()
      modifies this
      ensures Model() == Posture.StopBeeping(old(Model()))
    {
      beepTimer := None;
    }
  }

  /** A client: a full calibration through the object, ending in a reading of 0.6 and a beep. */
  method CalibrateAndLookDown() returns (reading: real, beeping: bool)
    ensures reading == 0.6 && beeping
  {
    var vm := new MotionViewModel();
    vm.HandleCalibrationButtonPress();
    vm.ReceiveAirpodsSample(10.0, 0.0, 0.0);
    vm.HandleCalibrationButtonPress();
    vm.ReceiveAirpodsSample(30.0, 0.0, 0.0);
    vm.HandleCalibrationButtonPress();
    assert vm.IsCalibrated();
    vm.ReceiveAirpodsSample(22.0, 0.0, 0.0);
    reading := vm.percentDown;
    beeping := vm.beepTimer.Some?;
  }
}
