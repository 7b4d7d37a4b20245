/** The lead-qualification walkthrough: six steps played by the shared step
    player, one step per 2500 ms timer expiry. */
module LeadQualificationWorkflow {
  import opened Common
  import opened StepPlayer

  /** The six steps, in display order, with their output lines. */
  const Steps: seq<StepInfo> := [
    StepInfo("receive", Some("New lead: ABC Productions")),
    StepInfo("clearbit", Some("500+ employees, $50M revenue")),
    StepInfo("verification", Some("Verified: Legitimate business")),
    StepInfo("scoring", Some("Score: 87/100 (High Priority)")),
    StepInfo("routing", Some("Assigned to Enterprise Sales")),
    StepInfo("hubspot", Some("CRM updated, 3 tasks created"))
  ]

  /** The component as it mounts. */
  method Mount() returns (p: Player)
    ensures fresh(p) && p.Valid()
    ensures p.n == |Steps| == 6
    ensures p.State() == PlayerState(0, false, true)
  {
    p := new Player(|Steps|);
  }

  /** Paused, however many ticks are counted, the state does not move. */
  lemma PausedPlayerStaysPut(s: PlayerState, k: nat)
    requires !s.isPlaying
    ensures Run(|Steps|, s, k) == s
  {
    RunPaused(|Steps|, s, k);
  }

  /** A waiting step (beyond the index) shows neither details nor output; a
      step shows its output iff it is completed. */
  lemma WaitingStepShowsNothing(index: nat, current: nat, showDetails: bool)
    requires index < |Steps|
    ensures index > current ==> !ShowsDetails(showDetails, StepStatus(index, current))
    ensures ShowsOutput(StepStatus(index, current), Steps[index].output) <==> StepStatus(index, current) == Completed
  {
  }

  /** The "Real Example" block appears iff the index is at least 5. */
  lemma RealExampleFromIndexFive(s: PlayerState)
    ensures ShowsSummary(|Steps|, s) <==> s.currentStep >= 5
  {
  }
}
