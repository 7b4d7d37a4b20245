/** The step player that each of the five workflow components repeats: a fixed
    list of `n` steps, the index `currentStep`, the flags `isPlaying` and
    `showDetails`, a timer tick that advances the index, a play/pause button,
    a details button and a reset button. Step status and the render conditions
    are pure functions of that state. */
module StepPlayer {
  import opened Common

  /** How a step is drawn; never stored, always derived from the index. */
  datatype Status = Waiting | Processing | Completed

  /** What the model keeps of a step: its key and its optional output line.
      Title, description, time label, icon and detail bullets are display text. */
  datatype StepInfo = StepInfo(id: string, output: Option<string>)

  /** The component's local state. */
  datatype PlayerState = PlayerState(currentStep: nat, isPlaying: bool, showDetails: bool)

  /** The user events and the timer expiry. */
  datatype Event = Tick | TogglePlay | ToggleDetails | Reset

  /** The three `useState` initial values. */
  const Initial := PlayerState(0, false, true)

  /** The index names a step of the list. */
  predicate InRange(n: nat, s: PlayerState)
  {
    s.currentStep < n
  }

  /** The effect's guard: a timer is pending only while playing and in range. */
  predicate TimerArmed(n: nat, s: PlayerState)
  {
    s.isPlaying && s.currentStep < n
  }

  /** One timer expiry. Without a pending timer nothing happens; at the last
      step the updater clears `isPlaying` and returns the index unchanged;
      otherwise it returns the index plus one. */
  function Next(n: nat, s: PlayerState): PlayerState
  {
    if !TimerArmed(n, s) then s
    else if s.currentStep >= n - 1 then s.(isPlaying := false)
    else s.(currentStep := s.currentStep + 1)
  }

  /** The state after one event. */
  function Apply(n: nat, s: PlayerState, e: Event): PlayerState
  {
    match e
    case Tick => Next(n, s)
    case TogglePlay => s.(isPlaying := !s.isPlaying)
    case ToggleDetails => s.(showDetails := !s.showDetails)
    case Reset => s.(currentStep := 0, isPlaying := false)
  }

  /** The state after a sequence of events, first event first. */
  function Replay(n: nat, s: PlayerState, events: seq<Event>): PlayerState
    decreases |events|
  {
    if events == [] then s else Replay(n, Apply(n, s, events[0]), events[1..])
  }

  /** The state after `k` timer expiries and no other event. */
  function Run(n: nat, s: PlayerState, k: nat): PlayerState
    decreases k
  {
    if k == 0 then s else Run(n, Next(n, s), k - 1)
  }

  /** `getStepStatus`: the three-way comparison of a position with the index. */
  function StepStatus(index: nat, current: nat): (r: Status)
    ensures r == Completed <==> index < current
    ensures r == Processing <==> index == current
    ensures r == Waiting <==> index > current
  {
    if index < current then Completed
    else if index == current then Processing
    else Waiting
  }

  /** The output badge: `status === 'completed' && step.output`. */
  predicate ShowsOutput(status: Status, output: Option<string>)
  {
    status == Completed && Truthy(output)
  }

  /** The details panel: `showDetails && status !== 'waiting'`. */
  predicate ShowsDetails(showDetails: bool, status: Status)
  {
    showDetails && status != Waiting
  }

  /** The closing summary block: `currentStep >= workflowSteps.length - 1`. */
  predicate ShowsSummary(n: nat, s: PlayerState)
  {
    s.currentStep >= n - 1
  }

  /** A connector line is drawn after every step but the last. */
  predicate ConnectorExists(n: nat, index: nat)
  {
    index < n - 1
  }

  /** A drawn connector is coloured iff its step is completed. */
  predicate ConnectorHighlighted(status: Status)
  {
    status == Completed
  }

  /** The numerator of the progress bar, `currentStep + 1`. */
  function ProgressNumerator(s: PlayerState): nat
  {
    s.currentStep + 1
  }

  // ----- one tick -----

  /** A tick while playing below the last step moves the index by exactly one
      and changes nothing else. */
  lemma TickAdvances(n: nat, s: PlayerState)
    requires s.isPlaying && s.currentStep < n - 1
    ensures Next(n, s) == s.(currentStep := s.currentStep + 1)
  {
  }

  /** A tick while playing at the last step keeps the index and stops. */
  lemma TickStopsAtLast(n: nat, s: PlayerState)
    requires n >= 1 && s.isPlaying && s.currentStep == n - 1
    ensures Next(n, s) == s.(isPlaying := false)
  {
  }

  /** Without a running timer a tick changes nothing. */
  lemma PausedTickIsInert(n: nat, s: PlayerState)
    requires !s.isPlaying
    ensures Next(n, s) == s
  {
  }

  /** While the index is in range, playing implies the effect's guard, so the
      guard's `currentStep < length` half never decides anything. */
  lemma GuardOnlyTestsPlaying(n: nat, s: PlayerState)
    requires InRange(n, s)
    ensures TimerArmed(n, s) <==> s.isPlaying
  {
  }

  // ----- the buttons -----

  /** Reset gives index 0 and not playing from any state, and keeps the
      details flag. */
  lemma ResetFromAnyState(n: nat, s: PlayerState)
    ensures Apply(n, s, Reset) == PlayerState(0, false, s.showDetails)
  {
  }

  /** The play button only negates `isPlaying`; pressing it twice restores the
      state. */
  lemma TogglePlayIsInvolution(n: nat, s: PlayerState)
    ensures Apply(n, s, TogglePlay).currentStep == s.currentStep
    ensures Apply(n, s, TogglePlay).showDetails == s.showDetails
    ensures Apply(n, s, TogglePlay).isPlaying == !s.isPlaying
    ensures Apply(n, Apply(n, s, TogglePlay), TogglePlay) == s
  {
  }

  /** The details button only negates `showDetails`. */
  lemma ToggleDetailsOnlyFlipsDetails(n: nat, s: PlayerState)
    ensures Apply(n, s, ToggleDetails) == s.(showDetails := !s.showDetails)
    ensures Apply(n, Apply(n, s, ToggleDetails), ToggleDetails) == s
  {
  }

  // ----- any sequence of events -----

  /** `0 <= currentStep <= n - 1` holds after any sequence of events. */
  lemma {:induction false} InRangeForever(n: nat, s: PlayerState, events: seq<Event>)
    requires n >= 1 && InRange(n, s)
    ensures InRange(n, Replay(n, s, events))
    decreases |events|
  {
    if events != [] {
      InRangeForever(n, Apply(n, s, events[0]), events[1..]);
    }
  }

  /** Only Reset ever lowers the index. */
  lemma {:induction false} IndexMonotoneWithoutReset(n: nat, s: PlayerState, events: seq<Event>)
    requires forall i :: 0 <= i < |events| ==> events[i] != Reset
    ensures Replay(n, s, events).currentStep >= s.currentStep
    decreases |events|
  {
    if events != [] {
      IndexMonotoneWithoutReset(n, Apply(n, s, events[0]), events[1..]);
    }
  }

  // ----- runs of ticks -----

  /** A paused player stays as it is however many ticks are counted. */
  lemma {:induction false} RunPaused(n: nat, s: PlayerState, k: nat)
    requires !s.isPlaying
    ensures Run(n, s, k) == s
    decreases k
  {
    if k > 0 {
      RunPaused(n, Next(n, s), k - 1);
    }
  }

  /** Closed form of playing: from index `c` with the timer running, `k` ticks
      reach index `min(c + k, n - 1)`; the player is still playing exactly
      while `c + k < n`, so one tick after reaching the last step it stops. */
  lemma {:induction false} RunPlaying(n: nat, s: PlayerState, k: nat)
    requires s.isPlaying && InRange(n, s)
    ensures Run(n, s, k).currentStep == Min(s.currentStep + k, n - 1)
    ensures Run(n, s, k).isPlaying <==> s.currentStep + k < n
    ensures Run(n, s, k).showDetails == s.showDetails
    decreases k
  {
    if k > 0 {
      var t := Next(n, s);
      if s.currentStep >= n - 1 {
        RunPaused(n, t, k - 1);
      } else {
        RunPlaying(n, t, k - 1);
      }
    }
  }

  /** Once the index is the last step, no number of ticks moves it. */
  lemma {:induction false} LastStepIsAbsorbing(n: nat, s: PlayerState, k: nat)
    requires n >= 1 && s.currentStep == n - 1
    ensures Run(n, s, k).currentStep == n - 1
    decreases k
  {
    if k > 0 {
      LastStepIsAbsorbing(n, Next(n, s), k - 1);
    }
  }

  // ----- what is drawn -----

  /** A waiting step shows neither details nor output; only completed steps
      show output, and details show iff the flag is set and the step is not
      waiting. */
  lemma VisibilityByPosition(index: nat, current: nat, showDetails: bool, output: Option<string>)
    ensures ShowsDetails(showDetails, StepStatus(index, current)) <==> showDetails && index <= current
    ensures ShowsOutput(StepStatus(index, current), output) <==> index < current && Truthy(output)
  {
  }

  /** While the index is in range the summary block is shown exactly at the
      last step, and the progress numerator lies in `[1, n]`. */
  lemma SummaryAndProgress(n: nat, s: PlayerState)
    requires InRange(n, s)
    ensures ShowsSummary(n, s) <==> s.currentStep == n - 1
    ensures 1 <= ProgressNumerator(s) <= n
  {
  }

  /** The player of one component: `n` is the length of its step list. */
  class Player {
    const n: nat
    var currentStep: nat
    var isPlaying: bool
    var showDetails: bool

    ghost predicate Valid()
      reads this
    {
      n >= 1 && currentStep < n
    }

    function State(): PlayerState
      reads this
    {
      PlayerState(currentStep, isPlaying, showDetails)
    }

    /** Mounting with a list of `n` steps. */
    constructor (n: nat)
      requires n >= 1
      ensures Valid() && this.n == n
      ensures State() == Initial
    {
      this.n := n;
      currentStep := 0;
      isPlaying := false;
      showDetails := true;
    }

    /** The timer expiry of the progression effect. */
    method Tick()
      requires Valid()
      modifies this
      ensures Valid()
      ensures State() == Next(n, old(State()))
    {
      if isPlaying && currentStep < n {
        if currentStep >= n - 1 {
          isPlaying := false;
        } else {
          currentStep := currentStep + 1;
        }
      }
    }

    /** The Run/Pause button. */
    method TogglePlay()
      requires Valid()
      modifies this
      ensures Valid()
      ensures State() == Apply(n, old(State()), Event.TogglePlay)
    {
      isPlaying := !isPlaying;
    }

    /** The Show/Hide Details button. */
    method ToggleDetails()
      requires Valid()
      modifies this
      ensures Valid()
      ensures State() == Apply(n, old(State()), Event.ToggleDetails)
    {
      showDetails := !showDetails;
    }

    /** `resetWorkflow`. */
    method Reset()
      requires Valid()
      modifies this
      ensures Valid()
      ensures State() == Apply(n, old(State()), Event.Reset)
    {
      currentStep := 0;
      isPlaying := false;
    }

    /** The status the render loop computes for position `index`. */
    method StatusOf(index: nat) returns (status: Status)
      requires Valid()
      ensures status == Completed <==> index < currentStep
      ensures status == Processing <==> index == currentStep
      ensures status == Waiting <==> index > currentStep
    {
      if index < currentStep {
        status := Completed;
      } else if index == currentStep {
        status := Processing;
      } else {
        status := Waiting;
      }
    }
  }
}
