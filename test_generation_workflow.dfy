/** The test-case generation walkthrough: six steps played by the shared step
    player, one step per 2500 ms timer expiry. */
module TestGenerationWorkflow {
  import opened Common
  import opened StepPlayer

  /** The six steps, in display order, with their output lines. */
  const Steps: seq<StepInfo> := [
    StepInfo("requirement", Some("12 test scenarios identified")),
    StepInfo("analysis", Some("8 critical paths found")),
    StepInfo("generation", Some("84 tests generated")),
    StepInfo("playwright", Some("E2E suite ready")),
    StepInfo("execution", Some("84/84 tests passed")),
    StepInfo("report", Some("98% code coverage"))
  ]

  /** The component as it mounts. */
  method Mount() returns (p: Player)
    ensures fresh(p) && p.Valid()
    ensures p.n == |Steps| == 6
    ensures p.State() == PlayerState(0, false, true)
  {
    p := new Player(|Steps|);
  }

  /** The line after step `index` exists only for the first five steps and
      is highlighted iff that step is completed. */
  lemma ConnectorRule(index: nat, current: nat)
    ensures ConnectorExists(|Steps|, index) <==> index < 5
    ensures ConnectorExists(|Steps|, index) && ConnectorHighlighted(StepStatus(index, current))
            <==> index < 5 && index < current
  {
  }

  /** Any sequence of events keeps the index in `[0, 5]`; the details button
      and the play button each flip only their own flag. */
  lemma ButtonsAndBounds(s: PlayerState, events: seq<Event>)
    requires InRange(|Steps|, s)
    ensures Replay(|Steps|, s, events).currentStep <= 5
    ensures Apply(|Steps|, s, ToggleDetails) == s.(showDetails := !s.showDetails)
    ensures Apply(|Steps|, s, TogglePlay) == s.(isPlaying := !s.isPlaying)
  {
    InRangeForever(|Steps|, s, events);
  }
}
