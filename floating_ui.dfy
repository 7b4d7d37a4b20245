/** The floating overlays: the guided tour, the department detail panel and
    the collapsible metrics panel. The tour keeps its own step index next to
    the store's view mode. */
module FloatingUI {
  import opened Common
  import Store

  // ----- the tour -----

  /** The node each of the five tour cards points at; titles and
      descriptions are display text. */
  const TourTargets: seq<string> := ["data-nexus", "data-nexus", "casting-tower", "marketing-engine", "sales-intelligence"]

  /** The tour as the component sees it: its local `tourStep` and the
      store's view mode. */
  datatype TourState = TourState(tourStep: nat, mode: Store.ViewMode)

  /** The tour's buttons. */
  datatype TourEvent = StartTour | CloseTour | Previous | NextStep | FinishTour

  /** The view mode the close and finish buttons write. */
  const ExplorationMode := Store.ViewMode(Store.Exploration, None, None)

  /** The view mode the start button writes: `{ type: 'tour', tourStep: 0 }`. */
  const TourMode := Store.ViewMode(Store.Tour, None, Some(0))

  /** A fresh component in a fresh store. */
  const InitialTour := TourState(0, ExplorationMode)

  /** Whether the tour card, rather than the start button, is rendered. */
  predicate InTour(s: TourState)
  {
    s.mode.kind == Store.Tour
  }

  /** Whether a button is on screen and enabled: the start button outside a
      tour; in a tour the close button, Previous except at step 0, Next
      before the last step and Finish at the last step. */
  predicate Enabled(s: TourState, e: TourEvent)
  {
    match e
    case StartTour => !InTour(s)
    case CloseTour => InTour(s)
    case Previous => InTour(s) && s.tourStep != 0
    case NextStep => InTour(s) && s.tourStep < |TourTargets| - 1
    case FinishTour => InTour(s) && s.tourStep >= |TourTargets| - 1
  }

  /** The "Step k of 5" label, shown only in a tour. */
  function ShownStep(s: TourState): (r: Option<nat>)
    ensures r.Some? <==> InTour(s)
    ensures r.Some? ==> r.value == s.tourStep + 1
  {
    if InTour(s) then Some(s.tourStep + 1) else None
  }

  /** One button press as written: Start Tour writes the tour mode and keeps
      the local index. */
  function Press(s: TourState, e: TourEvent): TourState
  {
    match e
    case StartTour => s.(mode := TourMode)
    case CloseTour => s.(mode := ExplorationMode)
    case Previous => s.(tourStep := Max0(s.tourStep - 1))
    case NextStep => s.(tourStep := s.tourStep + 1)
    case FinishTour => s.(mode := ExplorationMode)
  }

  /** One button press as intended: Start Tour also rewinds to the first
      card; every other button as written. */
  function PressIntended(s: TourState, e: TourEvent): TourState
  {
    if e == StartTour then TourState(0, TourMode) else Press(s, e)
  }

  /** `Math.max(0, n)`. */
  function Max0(n: int): (r: nat)
    ensures r >= n && (r == 0 || r == n)
  {
    if n < 0 then 0 else n
  }

  /** The tour after a sequence of presses, first press first. */
  function RunTour(s: TourState, events: seq<TourEvent>): TourState
    decreases |events|
  {
    if events == [] then s else RunTour(Press(s, events[0]), events[1..])
  }

  /** The same sequence with the intended start button. */
  function RunTourIntended(s: TourState, events: seq<TourEvent>): TourState
    decreases |events|
  {
    if events == [] then s else RunTourIntended(PressIntended(s, events[0]), events[1..])
  }

  /** Every press of an offered button is itself offered. */
  predicate AllEnabled(s: TourState, events: seq<TourEvent>)
    decreases |events|
  {
    events == [] || (Enabled(s, events[0]) && AllEnabled(Press(s, events[0]), events[1..]))
  }

  /** The same for the intended start button. */
  predicate AllEnabledIntended(s: TourState, events: seq<TourEvent>)
    decreases |events|
  {
    events == [] || (Enabled(s, events[0]) && AllEnabledIntended(PressIntended(s, events[0]), events[1..]))
  }

  /** The local index names one of the five cards. */
  predicate TourInRange(s: TourState)
  {
    s.tourStep < |TourTargets|
  }

  /** Previous lowers the index by one and never below 0, so at step 0,
      where the button is disabled, it would change nothing. */
  lemma PreviousClamps(s: TourState)
    ensures Press(s, Previous).tourStep == if s.tourStep == 0 then 0 else s.tourStep - 1
    ensures s.tourStep == 0 ==> Press(s, Previous) == s
  {
  }

  /** In a tour exactly one of Next and Finish is offered. */
  lemma NextOrFinish(s: TourState)
    requires InTour(s)
    ensures Enabled(s, NextStep) != Enabled(s, FinishTour)
  {
  }

  /** Close and Finish both return to exploration mode and keep the index;
      Start writes the tour mode with step 0. */
  lemma ModeButtons(s: TourState)
    ensures Press(s, CloseTour) == Press(s, FinishTour) == TourState(s.tourStep, ExplorationMode)
    ensures Press(s, StartTour).mode == Store.ViewMode(Store.Tour, None, Some(0))
    ensures InTour(Press(s, StartTour)) && !InTour(Press(s, CloseTour))
  {
  }

  /** The label reads the local index only: the store's `tourStep` never
      decides what is shown. */
  lemma StoreTourStepIsUnread(s: TourState, v: Option<int>)
    ensures ShownStep(s.(mode := s.mode.(tourStep := v))) == ShownStep(s)
  {
  }

  /** Pressing only offered buttons keeps the index on one of the five
      cards. */
  lemma {:induction false} TourStaysInRange(s: TourState, events: seq<TourEvent>)
    requires TourInRange(s) && AllEnabled(s, events)
    ensures TourInRange(RunTour(s, events))
    decreases |events|
  {
    if events != [] {
      TourStaysInRange(Press(s, events[0]), events[1..]);
    }
  }

  /** The same with the intended start button. */
  lemma {:induction false} TourStaysInRangeIntended(s: TourState, events: seq<TourEvent>)
    requires TourInRange(s) && AllEnabledIntended(s, events)
    ensures TourInRange(RunTourIntended(s, events))
    decreases |events|
  {
    if events != [] {
      TourStaysInRangeIntended(PressIntended(s, events[0]), events[1..]);
    }
  }

  /** As written, a second tour opens on the card the first one finished
      on: Start, four times Next, Finish, Start shows "Step 5 of 5". */
  lemma SecondTourResumesAtLastCard()
    ensures var events := [StartTour, NextStep, NextStep, NextStep, NextStep, FinishTour, StartTour];
            AllEnabled(InitialTour, events) && ShownStep(RunTour(InitialTour, events)) == Some(5)
  {
  }

  /** With the intended start button every tour opens on the first card, and
      the same presses show "Step 1 of 5". */
  lemma IntendedStartShowsFirstCard(s: TourState)
    ensures ShownStep(PressIntended(s, StartTour)) == Some(1)
    ensures var events := [StartTour, NextStep, NextStep, NextStep, NextStep, FinishTour, StartTour];
            AllEnabledIntended(InitialTour, events) && ShownStep(RunTourIntended(InitialTour, events)) == Some(1)
  {
  }

  /** The tour component: its local index, reading and writing the store's
      view mode. */
  class TourGuide {
    var tourStep: nat
    const store: Store.AppStore

    ghost predicate Valid()
      reads this
    {
      tourStep < |TourTargets|
    }

    function State(): TourState
      reads this, store
    {
      TourState(tourStep, store.viewMode)
    }

    /** Mounting: the local index starts at 0. */
    constructor (store: Store.AppStore)
      ensures Valid() && this.store == store && tourStep == 0
    {
      tourStep := 0;
      this.store := store;
    }

    /** The target of the card being shown. */
    method CurrentTarget() returns (target: string)
      requires Valid()
      ensures target == TourTargets[tourStep]
    {
      target := TourTargets[tourStep];
    }

    /** Start Tour, as written: the local index is left as it was. */
    method StartTour()
      requires Valid() && Enabled(State(), TourEvent.StartTour)
      modifies store
      ensures Valid()
      ensures State() == Press(old(State()), TourEvent.StartTour)
      ensures store.Snapshot() == Store.Apply(old(store.Snapshot()), Store.SetViewMode(TourMode))
    {
      store.SetViewMode(TourMode);
    }

    /** Start Tour, as intended: the local index is rewound as well. */
    method StartTourFromFirst()
      requires Valid() && Enabled(State(), TourEvent.StartTour)
      modifies this, store
      ensures Valid()
      ensures State() == PressIntended(old(State()), TourEvent.StartTour)
      ensures store.Snapshot() == Store.Apply(old(store.Snapshot()), Store.SetViewMode(TourMode))
    {
      store.SetViewMode(TourMode);
      tourStep := 0;
    }

    /** The close button. */
    method Close()
      requires Valid() && Enabled(State(), CloseTour)
      modifies store
      ensures Valid()
      ensures State() == Press(old(State()), CloseTour)
      ensures store.Snapshot() == Store.Apply(old(store.Snapshot()), Store.SetViewMode(ExplorationMode))
    {
      store.SetViewMode(ExplorationMode);
    }

    /** The Previous button, enabled from the second card on. */
    method Previous()
      requires Valid() && Enabled(State(), TourEvent.Previous)
      modifies this
      ensures Valid()
      ensures State() == Press(old(State()), TourEvent.Previous)
    {
      tourStep := Max0(tourStep - 1);
    }

    /** The Next button, shown before the last card. */
    method Next()
      requires Valid() && Enabled(State(), NextStep)
      modifies this
      ensures Valid()
      ensures State() == Press(old(State()), NextStep)
    {
      tourStep := tourStep + 1;
    }

    /** The Finish Tour button, shown on the last card. */
    method Finish()
      requires Valid() && Enabled(State(), FinishTour)
      modifies store
      ensures Valid()
      ensures State() == Press(old(State()), FinishTour)
      ensures store.Snapshot() == Store.Apply(old(store.Snapshot()), Store.SetViewMode(ExplorationMode))
    {
      store.SetViewMode(ExplorationMode);
    }
  }

  // ----- the department detail panel -----

  /** A detail card; feature bullets and metric lines are display text. */
  datatype Detail = Detail(title: string, subtitle: string)

  /** `departmentDetails`, keyed by node name. */
  const DepartmentDetails: map<string, Detail> := map[
    "casting-tower" := Detail("Casting Tower", "Where talent meets opportunity"),
    "marketing-engine" := Detail("Marketing Engine", "10x content velocity"),
    "sales-intelligence" := Detail("Sales Intelligence Center", "Predictive customer success")
  ]

  /** `selectedNode && departmentDetails[selectedNode]`: the card shown for
      the selected node, if any. */
  function DetailFor(selected: Option<string>): (r: Option<Detail>)
    ensures r.Some? <==> selected.Some? && selected.value in {"casting-tower", "marketing-engine", "sales-intelligence"}
  {
    if selected.Some? && selected.value in DepartmentDetails then Some(DepartmentDetails[selected.value]) else None
  }

  /** The panel's close button clears the selection, after which the panel
      renders nothing. */
  method CloseDetail(store: Store.AppStore)
    modifies store
    ensures store.Snapshot() == Store.Apply(old(store.Snapshot()), Store.SetSelectedNode(None))
    ensures DetailFor(store.selectedNode).None?
  {
    store.SetSelectedNode(None);
  }

  /** The three department nodes open their own card. */
  lemma DetailTitles()
    ensures DetailFor(Some("casting-tower")) == Some(Detail("Casting Tower", "Where talent meets opportunity"))
    ensures DetailFor(Some("marketing-engine")).value.title == "Marketing Engine"
    ensures DetailFor(Some("sales-intelligence")).value.title == "Sales Intelligence Center"
    ensures DetailFor(Some("data-nexus")).None? && DetailFor(None).None?
  {
  }

  // ----- the metrics panel -----

  /** The collapsible metrics panel. */
  class MetricsPanel {
    var isExpanded: bool

    /** The panel mounts expanded. */
    constructor ()
      ensures isExpanded
    {
      isExpanded := true;
    }

    /** The header button. */
    method ToggleExpanded()
      modifies this
      ensures isExpanded == !old(isExpanded)
    {
      isExpanded := !isExpanded;
    }
  }
}
