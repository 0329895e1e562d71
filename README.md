# ski_coach posture core in Dafny

This project models the calibration and posture-alert logic of the ski_coach
iPhone app's `MotionViewModel` (`ski_coach/ski_coach/MotionViewModel.swift`).
The app compares the head pitch reported by AirPods against two reference
pitches that the skier records during calibration. It beeps repeatedly while
the head is tipped down by at least a tenth of the calibrated range.

The model has three parts:

- **Calibration state machine.** The stages are `NotStarted → CaptureNeutral → CaptureDown → Done`.
  A press in `CaptureNeutral` records the neutral pitch. A press in `CaptureDown` records the head-down pitch.
  In both cases the pitch is the live AirPods pitch, or 0 when none is available.
  A reset (`recalibrate`) clears everything.
- **Posture evaluator.** It does nothing until both references exist.
  If the references are within `0.000001` degrees of each other, the reading is pinned to 0.
  Otherwise `percentDown = (current - neutral) / (headDown - neutral)`, with no clamping.
- **Alert controller.** The beep timer runs when `percentDown >= 0.1` and is stopped otherwise.
  Starting the beep never restarts a timer that is already running.

Files:

- `options.dfy`: `Option`, standing in for Swift's `Double?`.
- `calibration.dfy`: the `Stage` enum, the one-step advance, and the status and button labels.
- `posture.dfy`: the view model's state as a value (`ViewState`).
  Each operation is a function from the old state to the new state.
  The file also holds the state invariant `Inv`, event sequences (`Run`) and the lemmas about them.
- `motion_view_model.dfy`: the class `MotionViewModel`. Its fields are updated in place.
  Each method's postcondition is `Model() == F(old(Model()))` for its transition function `F` in `posture.dfy`.
  Each public state-changing method also preserves `Valid()`, which is `Inv` of the fields.
  So does `UpdatePercentDownAndCheckBeep`.
  The private helpers `StartBeeping`, `StopBeeping` and `ClearAirpodsData` are the exceptions.
  They run in the middle of an update, while the object is between two valid states, so they neither require nor ensure `Valid()`.

Modelling choices:

- Pitches are `real` degrees, and `1e-6` is the exact real `0.000001`.
- The timer is modelled as a handle, `beepTimer: Option<nat>`, where `None` means no timer.
  Each newly scheduled timer gets a fresh handle number, taken from `timersScheduled`.
  This makes "a running timer is left untouched" something a lemma can state: the handle stays the same.
- The sample callback of `startAirPodsMotionUpdates` is modelled as `Posture.Sample` (the class method `ReceiveAirpodsSample`).
  It sets the connection flag, stores the three angles and runs the evaluator.

Notes on the code's behaviour:

- There is no mute flag.
- Losing the AirPods connection clears only the live angles.
  It does not stop the beep or reset the reading.
- A beep that runs when `stopUpdates` is called is cancelled, but `percentDown` is kept.
  So the invariant is only "beeping implies `percentDown >= 0.1`".
  The equivalence holds right after each evaluation of a calibrated state.

## Model

| member | source | states |
|---|---|---|
| Calibration.Next | ski_coach/ski_coach/MotionViewModel.swift:129-141 | a press moves the stage exactly one step forward; `Done` stays `Done` |
| Calibration.NextReachesDone | ski_coach/ski_coach/MotionViewModel.swift:41-46 | the stage never moves backwards, and three presses from any stage reach `Done` |
| Calibration.StageText | ski_coach/ski_coach/MotionViewModel.swift:52-59 | the status text is "Calibrated" exactly in stage `Done` |
| Calibration.ButtonTitle | ski_coach/ski_coach/MotionViewModel.swift:61-68 | the button title equals the status text exactly in stage `Done`, where both read "Calibrated" |
| Calibration.LabelsDistinguishStages | ski_coach/ski_coach/MotionViewModel.swift:52-68 | different stages get different status texts and different button titles |
| Posture.Initial | ski_coach/ski_coach/MotionViewModel.swift:27-77 | the stored-property defaults (`NotStarted`, no references, no angles, disconnected, reading 0, no timer) satisfy the invariant, and the status text reads "Not Started" |
| Posture.Captured | ski_coach/ski_coach/MotionViewModel.swift:134 | a capture records the live pitch when there is one and 0 otherwise |
| Posture.Press | ski_coach/ski_coach/MotionViewModel.swift:129-142 | one step forward; `captureNeutral` records `neutralPitch`, `captureDown` records `headDownPitch`, `notStarted` records nothing; at `Done` nothing changes; no other field changes; the invariant is kept |
| Posture.Recalibrate | ski_coach/ski_coach/MotionViewModel.swift:144-150 | from any state: `NotStarted`, both references absent, reading 0, no timer; live angles unchanged; the invariant is kept |
| Posture.StartBeeping | ski_coach/ski_coach/MotionViewModel.swift:243-249 | afterwards a timer exists; an existing timer is left untouched; otherwise a fresh handle is scheduled; nothing else changes |
| Posture.StopBeeping | ski_coach/ski_coach/MotionViewModel.swift:251-254 | afterwards no timer exists; nothing else changes |
| Posture.BeepControlIdempotent | ski_coach/ski_coach/MotionViewModel.swift:243-254 | starting twice equals starting once; stopping twice equals stopping once |
| Posture.Fraction | ski_coach/ski_coach/MotionViewModel.swift:231-232 | the reading is the unclamped linear position of the current pitch, so `neutral + f * range == current`; it is 0 exactly at neutral and 1 exactly at head-down |
| Posture.FractionExamples | ski_coach/ski_coach/MotionViewModel.swift:231-233 | with references 10 and 30: pitches 10, 30, 20, 5, 22, 40 read 0, 1, 0.5, -0.25, 0.6, 1.5 |
| Posture.Evaluate | ski_coach/ski_coach/MotionViewModel.swift:221-240 | nothing changes unless both references exist; a range of at most 1e-6 gives reading 0 and no timer; otherwise the reading is `Fraction` of the live pitch (0 if absent); once calibrated, a timer exists iff the reading is at least 0.1; a running timer that stays running keeps its handle; only reading and timer change; the invariant is kept |
| Posture.DegenerateCalibration | ski_coach/ski_coach/MotionViewModel.swift:224-229 | with references 10 and 10.0000001, any sample gives reading 0 and no beep |
| Posture.ClearAirpodsData | ski_coach/ski_coach/MotionViewModel.swift:214-218 | the three live AirPods angles become absent; nothing else changes |
| Posture.SetAirpodsMotionActive | ski_coach/ski_coach/MotionViewModel.swift:32-38 | the flag takes the new value; assigning `false` clears the live angles; stage, references, reading and timer are unchanged; the invariant is kept |
| Posture.Sample | ski_coach/ski_coach/MotionViewModel.swift:201-209 | a sample marks the sensor active and stores its angles; calibration is untouched; once calibrated: a degenerate range gives reading 0 and no timer, otherwise the reading is the sample's `Fraction`, and a timer exists iff the reading is at least 0.1; the invariant is kept |
| Posture.StopUpdates | ski_coach/ski_coach/MotionViewModel.swift:120-126 | stopping updates leaves no timer and changes nothing else |
| Posture.Step | ski_coach/ski_coach/MotionViewModel.swift:129-254 | every single event keeps the invariant |
| Posture.RunPreservesInv | ski_coach/ski_coach/MotionViewModel.swift:47-50 | every sequence of presses, resets, samples, connection changes and stops keeps the invariant: references match the stage; no reading and no timer before `Done`; a timer implies reading >= 0.1; no live angles while disconnected |
| Posture.PressesAdvance | ski_coach/ski_coach/MotionViewModel.swift:129-142 | k presses move the stage min(k, steps left) positions forward |
| Posture.ResetThenPresses | ski_coach/ski_coach/MotionViewModel.swift:129-150 | after a reset, the state is calibrated (stage `Done`, both references set) exactly when at least three presses followed |
| Posture.PressAtDoneKeepsReferences | ski_coach/ski_coach/MotionViewModel.swift:139-140 | any number of presses at `Done` leave the whole state unchanged |
| Posture.SustainedDeviationKeepsTimer | ski_coach/ski_coach/MotionViewModel.swift:235-236 | while every sample reads at least 0.1, the running timer keeps its handle, so the beep cadence is never restarted |
| Posture.CalibrationWalkThrough | ski_coach/ski_coach/MotionViewModel.swift:129-240 | press, sample 10, press, sample 30, press, sample 22 from the initial state gives references 10 and 30, reading 0.6 and a running beep |
| MotionModel.MotionViewModel.constructor | ski_coach/ski_coach/MotionViewModel.swift:84-94 | a new view model is in the initial state and valid |
| MotionModel.MotionViewModel.IsCalibrated | ski_coach/ski_coach/MotionViewModel.swift:70-72 | in a valid object, calibrated iff both references are set, iff the status text reads "Calibrated" |
| MotionModel.MotionViewModel.CalibrationStageText | ski_coach/ski_coach/MotionViewModel.swift:52-59 | the status line of the object reads "Calibrated" exactly when its stage is `Done` |
| MotionModel.MotionViewModel.HandleCalibrationButtonPress | ski_coach/ski_coach/MotionViewModel.swift:129-142 | the fields change as `Posture.Press` says; validity is kept |
| MotionModel.MotionViewModel.Recalibrate | ski_coach/ski_coach/MotionViewModel.swift:144-150 | the fields change as `Posture.Recalibrate` says; validity is kept |
| MotionModel.MotionViewModel.StopUpdates | ski_coach/ski_coach/MotionViewModel.swift:120-126 | the fields change as `Posture.StopUpdates` says; validity is kept |
| MotionModel.MotionViewModel.SetAirpodsMotionActive | ski_coach/ski_coach/MotionViewModel.swift:32-38 | the fields change as `Posture.SetAirpodsMotionActive` says; validity is kept |
| MotionModel.MotionViewModel.ClearAirpodsData | ski_coach/ski_coach/MotionViewModel.swift:214-218 | the fields change as `Posture.ClearAirpodsData` says |
| MotionModel.MotionViewModel.ReceiveAirpodsSample | ski_coach/ski_coach/MotionViewModel.swift:201-209 | the fields change as `Posture.Sample` says; validity is kept |
| MotionModel.MotionViewModel.UpdatePercentDownAndCheckBeep | ski_coach/ski_coach/MotionViewModel.swift:221-240 | the fields change as `Posture.Evaluate` says; validity is kept |
| MotionModel.MotionViewModel.StartBeeping | ski_coach/ski_coach/MotionViewModel.swift:243-249 | the fields change as `Posture.StartBeeping` says |
| MotionModel.MotionViewModel.StopBeeping | ski_coach/ski_coach/MotionViewModel.swift:251-254 | the fields change as `Posture.StopBeeping` says |
| MotionModel.CalibrateAndLookDown | ski_coach/ski_coach/MotionViewModel.swift:129-240 | driving one object through a full calibration and a 22-degree sample yields reading 0.6 with the beep running |

## Left out

- CoreMotion wiring is not modelled: `startUpdates`, `startPhoneMotionUpdates`, `startAirPodsMotionUpdates` and the one-second connection poll.
  These are operating-system callbacks.
  Their effects on the core appear only as the events `Sample` and `SetAirpodsMotionActive`.
- `DispatchQueue.main.async` is not modelled.
  All operations are modelled as running one after another on a single thread.
- The phone's own pitch, roll and yaw are not modelled.
  Only the view reads them, and no core operation uses them.
- The conversion from radians to degrees and IEEE `Double` rounding are not modelled.
  Pitch is an exact `real` in degrees.
- `Timer` scheduling, the 0.75-second beep interval and `playBeep` with its `AVAudioPlayer` are not modelled.
  Only whether a timer exists, and which one, is kept.
- Sound loading in `init` is not modelled.
  It only affects audio playback.
- `WatchConnectivityManager.swift`, both `ContentView.swift` files, the app entry points and the watch session manager are not part of this model.
  They handle transport and rendering.
  The app entry creates the view model, which the constructor models.
  The phone view calls `startUpdates`, which is CoreMotion wiring left out above, and `stopUpdates`, modelled as `StopUpdates`.
  The watch messages call the press and reset operations.
  The view and the watch transport read `calibrationStageText`, `isCalibrated` and `percentDown`, which are modelled here.
- A mute flag, and stopping the alert when the sensor disconnects, are not modelled.
  The code has neither behaviour.
