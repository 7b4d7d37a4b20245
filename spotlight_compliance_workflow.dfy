/** The Spotlight compliance-checking walkthrough: six steps played by the
    shared step player, one step per 2000 ms timer expiry. */
module SpotlightComplianceWorkflow {
  import opened Common
  import opened StepPlayer

  /** The six steps, in display order, with their output lines. */
  const Steps: seq<StepInfo> := [
    StepInfo("submission", Some("Submission received")),
    StepInfo("photo-scan", Some("All photos approved")),
    StepInfo("credit-verify", Some("8 credits verified")),
    StepInfo("tech-validation", Some("All specs validated")),
    StepInfo("feedback", Some("Approval sent")),
    StepInfo("approval", Some("Profile live"))
  ]

  /** The component as it mounts. */
  method Mount() returns (p: Player)
    ensures fresh(p) && p.Valid()
    ensures p.n == |Steps| == 6
    ensures p.State() == PlayerState(0, false, true)
  {
    p := new Player(|Steps|);
  }

  /** Once the index is 5, no number of ticks changes it. */
  lemma StaysAtLastStep(s: PlayerState, k: nat)
    requires s.currentStep == 5
    ensures Run(|Steps|, s, k).currentStep == 5
  {
    LastStepIsAbsorbing(|Steps|, s, k);
  }

  /** From any state, Reset followed by any number of ticks is index 0 and
      paused. */
  lemma ResetThenTicks(s: PlayerState, k: nat)
    ensures Run(|Steps|, Apply(|Steps|, s, Reset), k) == PlayerState(0, false, s.showDetails)
  {
    RunPaused(|Steps|, Apply(|Steps|, s, Reset), k);
  }

  /** The example block is shown iff the index is at least `n - 1 = 5`; the
      step at the index (when in range) is the only processing one. */
  lemma ExampleBlockAndProcessingStep(s: PlayerState, index: nat)
    requires InRange(|Steps|, s) && index < |Steps|
    ensures ShowsSummary(|Steps|, s) <==> s.currentStep >= 5
    ensures StepStatus(index, s.currentStep) == Processing <==> index == s.currentStep
  {
  }
}
