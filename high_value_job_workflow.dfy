/** The high-value job promotion walkthrough: six steps played by the shared
    step player, one step per 2500 ms timer expiry. */
module HighValueJobWorkflow {
  import opened Common
  import opened StepPlayer

  /** The six steps, in display order, with their output lines. */
  const Steps: seq<StepInfo> := [
    StepInfo("trigger", Some("Workflow initiated")),
    StepInfo("data-pull", Some("187 new jobs retrieved")),
    StepInfo("analysis", Some("12 high-value jobs identified")),
    StepInfo("creative", Some("36 creatives generated")),
    StepInfo("distribution", Some("Distributed to 6 channels")),
    StepInfo("tracking", Some("3.2x application increase"))
  ]

  /** The component as it mounts. */
  method Mount() returns (p: Player)
    ensures fresh(p) && p.Valid()
    ensures p.n == |Steps| == 6
    ensures p.State() == PlayerState(0, false, true)
  {
    p := new Player(|Steps|);
  }

  /** Pressing Run at index 0: five ticks reach index 5 still playing, the
      sixth clears `isPlaying` with the index still 5, and later ticks change
      nothing. */
  lemma FullRun(showDetails: bool, extra: nat)
    ensures Run(|Steps|, PlayerState(0, true, showDetails), 5) == PlayerState(5, true, showDetails)
    ensures Run(|Steps|, PlayerState(0, true, showDetails), 6 + extra) == PlayerState(5, false, showDetails)
  {
    RunPlaying(|Steps|, PlayerState(0, true, showDetails), 5);
    RunPlaying(|Steps|, PlayerState(0, true, showDetails), 6 + extra);
  }

  /** Without Reset the index never goes down, and it stays in `[0, 5]`. */
  lemma IndexOnlyGrows(s: PlayerState, events: seq<Event>)
    requires InRange(|Steps|, s)
    requires forall i :: 0 <= i < |events| ==> events[i] != Reset
    ensures s.currentStep <= Replay(|Steps|, s, events).currentStep <= 5
  {
    IndexMonotoneWithoutReset(|Steps|, s, events);
    InRangeForever(|Steps|, s, events);
  }

  /** Output is shown iff the step is completed and has an output; details
      iff the flag is on and the step is not waiting. */
  lemma CardContents(index: nat, current: nat, showDetails: bool)
    requires index < |Steps|
    ensures ShowsOutput(StepStatus(index, current), Steps[index].output)
            <==> StepStatus(index, current) == Completed && Truthy(Steps[index].output)
    ensures ShowsDetails(showDetails, StepStatus(index, current))
            <==> showDetails && StepStatus(index, current) != Waiting
  {
  }
}
