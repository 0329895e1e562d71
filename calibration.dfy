/**
 * The calibration stages of the motion view model and the labels the
 * user interface shows for them.
 */
module Calibration {

  /** The four calibration stages, in the order a user walks through them. */
  datatype Stage = NotStarted | CaptureNeutral | CaptureDown | Done

  /** Position of a stage in the calibration sequence. */
  function Rank(s: Stage): (n: nat) {
    match s
    case NotStarted => 0
    case CaptureNeutral => 1
    case CaptureDown => 2
    case Done => 3
  }

  /** The stage a calibration press moves to: one step forward, `Done` stays put. */
  function Next(s: Stage): (r: Stage)
    ensures s != Done ==> Rank(r) == Rank(s) + 1
    ensures s == Done ==> r == Done
    ensures Rank(r) <= 3
  {
    match s
    case NotStarted => CaptureNeutral
    case CaptureNeutral => CaptureDown
    case CaptureDown => Done
    case Done => Done
  }

  /** The status line shown for each stage. */
  function StageText(s: Stage): (t: string)
    ensures t == "Calibrated" <==> s == Done
  {
    match s
    case NotStarted => "Not Started"
    case CaptureNeutral => "Neutral Head"
    case CaptureDown => "Head Down"
    case Done => "Calibrated"
  }

  /** The title of the calibration button for each stage. */
  function ButtonTitle(s: Stage): (t: string)
    ensures t == StageText(s) <==> s == Done
    ensures t == "Calibrated" <==> s == Done
  {
    match s
    case NotStarted => "Calibrate"
    case CaptureNeutral => "Calibrate Neutral"
    case CaptureDown => "Calibrate Head Down"
    case Done => "Calibrated"
  }

  /** Different stages are reported with different status lines and button titles. */
  lemma LabelsDistinguishStages(s: Stage, u: Stage)
    requires s != u
    ensures StageText(s) != StageText(u)
    ensures ButtonTitle(s) != ButtonTitle(u)
  {
  }

  /** No stage moves backwards, and three presses from any stage reach `Done`. */
  lemma NextReachesDone(s: Stage)
    ensures Rank(s) <= Rank(Next(s))
    ensures Next(Next(Next(s))) == Done
  {
  }
}
