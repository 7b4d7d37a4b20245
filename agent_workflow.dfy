/** The agent workflow panel: a step player over the selected agent's own
    workflow that wraps back to the first step when it finishes, has no timer
    for an agent without a workflow, and re-selects the agent by id from a
    drop-down. */
module AgentWorkflow {
  import opened Common
  import opened AiAgents

  /** How a step is drawn; derived from the index on every render. */
  datatype Status = Pending | Processing | Completed

  /** The panel's local state: the selected agent, the index, the play flag
      and the comparison flag. */
  datatype PanelState = PanelState(agent: Agent, currentStep: nat, isPlaying: bool, showComparison: bool)

  /** The user events and the timer expiry. */
  datatype Event = Tick | Select(id: string) | TogglePlay | ToggleComparison | Reset

  /** The four `useState` initial values: the third agent of the table. */
  const Initial := PanelState(Agents[2], 0, false, true)

  /** The built-in five-step list drawn for an agent without a workflow. */
  const FallbackSteps: seq<string> := ["scan", "identify", "create", "distribute", "track"]

  /** Whether the progression effect arms a timer for this agent: any
      workflow list, even an empty one, is truthy. */
  predicate HasWorkflow(a: Agent)
  {
    a.workflow.Some?
  }

  /** `selectedAgent.workflow?.length || 5`: the workflow's length, with an
      absent or empty workflow counting as five steps. */
  function CycleLength(a: Agent): (r: nat)
    ensures r >= 1
    ensures HasWorkflow(a) && a.workflow.value != [] ==> r == |a.workflow.value|
    ensures !(HasWorkflow(a) && a.workflow.value != []) ==> r == 5
  {
    if a.workflow.Some? && |a.workflow.value| > 0 then |a.workflow.value| else 5
  }

  /** Number of step circles drawn: `selectedAgent.workflow || highValueJobWorkflow`. */
  function DrawnSteps(a: Agent): (r: nat)
    ensures HasWorkflow(a) ==> r == |a.workflow.value|
    ensures !HasWorkflow(a) ==> r == |FallbackSteps| == 5
  {
    if a.workflow.Some? then |a.workflow.value| else |FallbackSteps|
  }

  /** `AI_AGENTS.find(a => a.id === id)`: the first agent with that id. */
  function Find(agents: seq<Agent>, id: string): (r: Option<Agent>)
    ensures r.Some? ==> r.value in agents && r.value.id == id
    ensures r.None? <==> forall i :: 0 <= i < |agents| ==> agents[i].id != id
  {
    if agents == [] then None
    else if agents[0].id == id then Some(agents[0])
    else Find(agents[1..], id)
  }

  /** `AI_AGENTS.filter(a => a.workflow)`: the agents the drop-down offers,
      in table order. */
  function Offered(agents: seq<Agent>): (r: seq<Agent>)
    ensures |r| <= |agents|
    ensures forall a :: a in r <==> a in agents && HasWorkflow(a)
  {
    if agents == [] then []
    else (if HasWorkflow(agents[0]) then [agents[0]] else []) + Offered(agents[1..])
  }

  /** One timer expiry. No timer runs while paused or for an agent without a
      workflow; at or past the last step the updater stops playing and
      returns 0; otherwise it returns the index plus one. */
  function Next(s: PanelState): PanelState
  {
    if !s.isPlaying || !HasWorkflow(s.agent) then s
    else if s.currentStep >= CycleLength(s.agent) - 1 then s.(currentStep := 0, isPlaying := false)
    else s.(currentStep := s.currentStep + 1)
  }

  /** The state after one event. Selecting an unknown id changes nothing. */
  function Apply(s: PanelState, e: Event): PanelState
  {
    match e
    case Tick => Next(s)
    case Select(id) =>
      (match Find(Agents, id)
       case Some(a) => s.(agent := a, currentStep := 0, isPlaying := false)
       case None => s)
    case TogglePlay => s.(isPlaying := !s.isPlaying)
    case ToggleComparison => s.(showComparison := !s.showComparison)
    case Reset => s.(currentStep := 0, isPlaying := false)
  }

  /** The state after a sequence of events, first event first. */
  function Replay(s: PanelState, events: seq<Event>): PanelState
    decreases |events|
  {
    if events == [] then s else Replay(Apply(s, events[0]), events[1..])
  }

  /** The state after `k` timer expiries and no other event. */
  function Run(s: PanelState, k: nat): PanelState
    decreases k
  {
    if k == 0 then s else Run(Next(s), k - 1)
  }

  /** The index names a step of the agent's cycle. */
  predicate InRange(s: PanelState)
  {
    s.currentStep < CycleLength(s.agent)
  }

  /** `getStepStatus`: the three-way comparison of a position with the index. */
  function StepStatus(index: nat, current: nat): (r: Status)
    ensures r == Completed <==> index < current
    ensures r == Processing <==> index == current
    ensures r == Pending <==> index > current
  {
    if index < current then Completed
    else if index == current then Processing
    else Pending
  }

  // ----- the table as the panel sees it -----

  /** `find` returns the first agent carrying the id. */
  lemma {:induction false} FindFirst(agents: seq<Agent>, i: nat)
    requires i < |agents|
    requires forall j :: 0 <= j < i ==> agents[j].id != agents[i].id
    ensures Find(agents, agents[i].id) == Some(agents[i])
  {
    if i > 0 {
      assert agents[1..][i - 1] == agents[i];
      FindFirst(agents[1..], i - 1);
    }
  }

  /** Looking up the id of any agent of the table yields that agent. */
  lemma FindTableAgent(i: nat)
    requires i < |Agents|
    ensures Find(Agents, Agents[i].id) == Some(Agents[i])
  {
    DistinctIds();
    FindFirst(Agents, i);
  }

  /** The initial agent is the high-value job agent; it has a five-step
      workflow and the drop-down offers it. */
  lemma InitialAgent()
    ensures Initial.agent.id == "high-value-job-agent"
    ensures HasWorkflow(Initial.agent) && CycleLength(Initial.agent) == 5
    ensures Initial.agent in Offered(Agents)
    ensures InRange(Initial) && !Initial.isPlaying && Initial.showComparison
  {
  }

  /** The cycle runs over exactly the drawn circles, except for an agent whose
      workflow list is empty: it cycles through five steps and draws none. */
  lemma CycleMatchesDrawing(a: Agent)
    ensures CycleLength(a) == DrawnSteps(a) <==> !(HasWorkflow(a) && a.workflow.value == [])
    ensures HasWorkflow(a) && a.workflow.value == [] ==> CycleLength(a) == 5 && DrawnSteps(a) == 0
  {
  }

  /** Every agent with a workflow, which is every agent the drop-down offers,
      cycles through five steps and draws exactly the steps it cycles
      through. */
  lemma WorkflowAgentsCycleFive(i: nat)
    requires i < |Agents| && HasWorkflow(Agents[i])
    ensures CycleLength(Agents[i]) == 5 == DrawnSteps(Agents[i])
  {
    WorkflowLengths();
  }

  // ----- one tick -----

  /** A playing tick below the last step moves the index by exactly one. */
  lemma TickAdvances(s: PanelState)
    requires s.isPlaying && HasWorkflow(s.agent) && s.currentStep < CycleLength(s.agent) - 1
    ensures Next(s) == s.(currentStep := s.currentStep + 1)
  {
  }

  /** A playing tick at or past the last step wraps to 0 and stops. */
  lemma TickWraps(s: PanelState)
    requires s.isPlaying && HasWorkflow(s.agent) && s.currentStep >= CycleLength(s.agent) - 1
    ensures Next(s) == s.(currentStep := 0, isPlaying := false)
  {
  }

  /** No timer runs while paused or for an agent without a workflow. */
  lemma NoTickWithoutTimer(s: PanelState)
    requires !s.isPlaying || !HasWorkflow(s.agent)
    ensures Next(s) == s
  {
  }

  // ----- the controls -----

  /** Choosing an agent of the table switches to it, rewinds and stops; the
      comparison flag is kept. */
  lemma SelectKnown(s: PanelState, i: nat)
    requires i < |Agents|
    ensures Apply(s, Select(Agents[i].id)) == PanelState(Agents[i], 0, false, s.showComparison)
  {
    FindTableAgent(i);
  }

  /** An id that names no agent leaves every part of the state unchanged. */
  lemma SelectUnknown(s: PanelState, id: string)
    requires forall i :: 0 <= i < |Agents| ==> Agents[i].id != id
    ensures Apply(s, Select(id)) == s
  {
  }

  /** Reset gives index 0 and not playing and keeps the agent and the
      comparison flag. */
  lemma ResetFromAnyState(s: PanelState)
    ensures Apply(s, Reset) == PanelState(s.agent, 0, false, s.showComparison)
  {
  }

  /** The play button and the comparison button each negate one flag;
      pressing either twice restores the state. */
  lemma TogglesAreInvolutions(s: PanelState)
    ensures Apply(s, TogglePlay) == s.(isPlaying := !s.isPlaying)
    ensures Apply(Apply(s, TogglePlay), TogglePlay) == s
    ensures Apply(s, ToggleComparison) == s.(showComparison := !s.showComparison)
    ensures Apply(Apply(s, ToggleComparison), ToggleComparison) == s
  {
  }

  // ----- any sequence of events -----

  /** The index stays within the selected agent's cycle after any sequence
      of events. */
  lemma {:induction false} InRangeForever(s: PanelState, events: seq<Event>)
    requires InRange(s)
    ensures InRange(Replay(s, events))
    decreases |events|
  {
    if events != [] {
      InRangeForever(Apply(s, events[0]), events[1..]);
    }
  }

  /** Without Select the agent never changes. */
  lemma {:induction false} AgentFixedWithoutSelect(s: PanelState, events: seq<Event>)
    requires forall i :: 0 <= i < |events| ==> !events[i].Select?
    ensures Replay(s, events).agent == s.agent
    decreases |events|
  {
    if events != [] {
      AgentFixedWithoutSelect(Apply(s, events[0]), events[1..]);
    }
  }

  // ----- runs of ticks -----

  /** A stopped panel stays as it is however many ticks are counted. */
  lemma {:induction false} RunStopped(s: PanelState, k: nat)
    requires !s.isPlaying || !HasWorkflow(s.agent)
    ensures Run(s, k) == s
    decreases k
  {
    if k > 0 {
      RunStopped(Next(s), k - 1);
    }
  }

  /** Closed form of playing: from index `c` of a cycle of length `n`, the
      first `n - 1 - c` ticks advance one step each, and tick `n - c` wraps
      to 0 and stops for good. */
  lemma {:induction false} RunPlaying(s: PanelState, k: nat)
    requires s.isPlaying && HasWorkflow(s.agent) && InRange(s)
    ensures s.currentStep + k < CycleLength(s.agent) ==> Run(s, k) == s.(currentStep := s.currentStep + k)
    ensures s.currentStep + k >= CycleLength(s.agent) ==> Run(s, k) == s.(currentStep := 0, isPlaying := false)
    decreases k
  {
    if k > 0 {
      var t := Next(s);
      if s.currentStep >= CycleLength(s.agent) - 1 {
        RunStopped(t, k - 1);
      } else {
        RunPlaying(t, k - 1);
      }
    }
  }

  /** Pressing Play on the initial panel: four ticks reach the last of the
      five steps, the fifth returns to step 0 and stops. */
  lemma InitialFullCycle()
    ensures Run(Apply(Initial, TogglePlay), 4) == PanelState(Agents[2], 4, true, true)
    ensures Run(Apply(Initial, TogglePlay), 5) == PanelState(Agents[2], 0, false, true)
  {
    RunPlaying(Apply(Initial, TogglePlay), 4);
    RunPlaying(Apply(Initial, TogglePlay), 5);
  }

  /** The panel component. */
  class AgentWorkflowPanel {
    var selectedAgent: Agent
    var currentStep: nat
    var isPlaying: bool
    var showComparison: bool

    ghost predicate Valid()
      reads this
    {
      InRange(State())
    }

    function State(): PanelState
      reads this
    {
      PanelState(selectedAgent, currentStep, isPlaying, showComparison)
    }

    /** Mounting the panel. */
    constructor ()
      ensures Valid()
      ensures State() == Initial
    {
      selectedAgent := Agents[2];
      currentStep := 0;
      isPlaying := false;
      showComparison := true;
    }

    /** The interval callback of the progression effect, run only while the
        effect's guard holds. */
    method Tick()
      requires Valid()
      modifies this
      ensures Valid()
      ensures State() == Next(old(State()))
    {
      if isPlaying && selectedAgent.workflow.Some? {
        if currentStep >= CycleLength(selectedAgent) - 1 {
          isPlaying := false;
          currentStep := 0;
        } else {
          currentStep := currentStep + 1;
        }
      }
    }

    /** The drop-down's change handler. */
    method SelectAgent(id: string)
      requires Valid()
      modifies this
      ensures Valid()
      ensures State() == Apply(old(State()), Select(id))
    {
      var found := Find(Agents, id);
      if found.Some? {
        selectedAgent := found.value;
        currentStep := 0;
        isPlaying := false;
      }
    }

    /** The Play/Pause button. */
    method TogglePlay()
      requires Valid()
      modifies this
      ensures Valid()
      ensures State() == Apply(old(State()), Event.TogglePlay)
    {
      isPlaying := !isPlaying;
    }

    /** The Show/Hide Comparison button. */
    method ToggleComparison()
      requires Valid()
      modifies this
      ensures Valid()
      ensures State() == Apply(old(State()), Event.ToggleComparison)
    {
      showComparison := !showComparison;
    }

    /** The rewind button. */
    method Reset()
      requires Valid()
      modifies this
      ensures Valid()
      ensures State() == Apply(old(State()), Event.Reset)
    {
      currentStep := 0;
      isPlaying := false;
    }

    /** The status the render loop computes for position `index`. */
    method StatusOf(index: nat) returns (status: Status)
      ensures status == Completed <==> index < currentStep
      ensures status == Processing <==> index == currentStep
      ensures status == Pending <==> index > currentStep
    {
      if index < currentStep {
        status := Completed;
      } else if index == currentStep {
        status := Processing;
      } else {
        status := Pending;
      }
    }
  }
}
