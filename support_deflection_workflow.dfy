/** The Tier 1 support-deflection walkthrough: six steps played by the shared
    step player, one step per 2500 ms timer expiry. */
module SupportDeflectionWorkflow {
  import opened Common
  import opened StepPlayer

  /** The six steps, in display order, with their output lines. */
  const Steps: seq<StepInfo> := [
    StepInfo("ticket", Some("Password reset request")),
    StepInfo("classification", Some("Tier 1: Password reset")),
    StepInfo("knowledge", Some("3 relevant articles found")),
    StepInfo("solution", Some("Solution with 5 steps")),
    StepInfo("delivery", Some("Response sent")),
    StepInfo("resolution", Some("5-star rating received"))
  ]

  /** The component as it mounts. */
  method Mount() returns (p: Player)
    ensures fresh(p) && p.Valid()
    ensures p.n == |Steps| == 6
    ensures p.State() == PlayerState(0, false, true)
  {
    p := new Player(|Steps|);
  }

  /** With six steps a playing tick below index 5 adds exactly one; at index 5
      it keeps the index and clears `isPlaying`. */
  lemma TickRule(s: PlayerState)
    requires s.isPlaying && InRange(|Steps|, s)
    ensures s.currentStep < 5 ==> Next(|Steps|, s).currentStep == s.currentStep + 1
    ensures s.currentStep < 5 ==> Next(|Steps|, s).isPlaying
    ensures s.currentStep == 5 ==> Next(|Steps|, s) == s.(isPlaying := false)
  {
  }

  /** Every step of this list carries an output, so a step's badge appears
      exactly once the step is completed; its details panel appears iff
      details are on and the step has been reached. */
  lemma BadgeAndPanel(index: nat, current: nat, showDetails: bool)
    requires index < |Steps|
    ensures ShowsOutput(StepStatus(index, current), Steps[index].output) <==> index < current
    ensures ShowsDetails(showDetails, StepStatus(index, current)) <==> showDetails && index <= current
  {
    VisibilityByPosition(index, current, showDetails, Steps[index].output);
  }

  /** The "Common Issues Handled" block shows exactly at index 5, and the
      progress bar's numerator stays in `[1, 6]`. */
  lemma SummaryShownAtLastStep(s: PlayerState)
    requires InRange(|Steps|, s)
    ensures ShowsSummary(|Steps|, s) <==> s.currentStep == 5
    ensures 1 <= ProgressNumerator(s) <= 6
  {
    SummaryAndProgress(|Steps|, s);
  }
}
