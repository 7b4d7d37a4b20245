/** The first-visit welcome overlay: four introduction cards shown only when
    the browser has no record of an earlier dismissal, stepped through with
    Next or the dots, and closed by Skip or Begin Exploration, which record
    the dismissal. The storage flag is an abstract boolean. */
module WelcomeOverlay {

  /** Titles of the four cards; icons and descriptions are display text. */
  const Steps: seq<string> := ["Welcome to the Future", "Explore the Ecosystem", "Interactive Discovery", "$1.5M in Annual Savings"]

  /** The component's local state. */
  datatype Overlay = Overlay(isVisible: bool, currentStep: nat)

  /** The component together with the persisted `hasSeenWelcome` flag. */
  datatype World = World(seen: bool, overlay: Overlay)

  /** Mounting (with its effect), the card buttons, and the two dismissals. */
  datatype OverlayEvent = Mount | NextStep | Dot(index: nat) | BeginExploration | SkipIntroduction

  /** The overlay right after mounting: visible exactly when the flag is
      absent, always on the first card. */
  function AfterMount(seen: bool): (r: Overlay)
    ensures r.isVisible <==> !seen
    ensures r.currentStep == 0
  {
    Overlay(!seen, 0)
  }

  /** Whether an event can happen: mounting always; a button only while the
      overlay is visible and only where it is rendered — Next before the
      last card, Begin Exploration on the last, Skip on the first, one dot
      per card. */
  predicate Enabled(w: World, e: OverlayEvent)
  {
    match e
    case Mount => true
    case NextStep => w.overlay.isVisible && w.overlay.currentStep < |Steps| - 1
    case Dot(i) => w.overlay.isVisible && i < |Steps|
    case BeginExploration => w.overlay.isVisible && w.overlay.currentStep >= |Steps| - 1
    case SkipIntroduction => w.overlay.isVisible && w.overlay.currentStep == 0
  }

  /** `handleDismiss`: record the flag and hide. */
  function Dismiss(w: World): World
  {
    World(true, w.overlay.(isVisible := false))
  }

  /** The world after one event. */
  function Step(w: World, e: OverlayEvent): World
  {
    match e
    case Mount => w.(overlay := AfterMount(w.seen))
    case NextStep => w.(overlay := w.overlay.(currentStep := w.overlay.currentStep + 1))
    case Dot(i) => w.(overlay := w.overlay.(currentStep := i))
    case BeginExploration => Dismiss(w)
    case SkipIntroduction => Dismiss(w)
  }

  /** The world after a sequence of events, first event first. */
  function Replay(w: World, events: seq<OverlayEvent>): World
    decreases |events|
  {
    if events == [] then w else Replay(Step(w, events[0]), events[1..])
  }

  /** Every event of the sequence can happen when it occurs. */
  predicate AllEnabled(w: World, events: seq<OverlayEvent>)
    decreases |events|
  {
    events == [] || (Enabled(w, events[0]) && AllEnabled(Step(w, events[0]), events[1..]))
  }

  /** The card index names one of the four cards. */
  predicate InRange(w: World)
  {
    w.overlay.currentStep < |Steps|
  }

  /** The numerator of the progress bar, `currentStep + 1`. */
  function ProgressNumerator(o: Overlay): nat
  {
    o.currentStep + 1
  }

  /** Both dismiss buttons record the flag and hide the overlay, keeping the
      card index. */
  lemma DismissButtons(w: World)
    ensures Step(w, BeginExploration) == Step(w, SkipIntroduction) == World(true, Overlay(false, w.overlay.currentStep))
  {
  }

  /** On every card exactly one of Next and Begin Exploration is rendered,
      and Skip only on the first. */
  lemma NextOrBegin(w: World)
    requires w.overlay.isVisible
    ensures Enabled(w, NextStep) != Enabled(w, BeginExploration)
    ensures Enabled(w, SkipIntroduction) ==> w.overlay.currentStep == 0
  {
  }

  /** The card index stays on one of the four cards under every possible
      sequence of events, and the progress numerator stays in `[1, 4]`. */
  lemma {:induction false} StepStaysInRange(w: World, events: seq<OverlayEvent>)
    requires InRange(w) && AllEnabled(w, events)
    ensures InRange(Replay(w, events))
    ensures 1 <= ProgressNumerator(Replay(w, events).overlay) <= |Steps|
    decreases |events|
  {
    if events != [] {
      StepStaysInRange(Step(w, events[0]), events[1..]);
    }
  }

  /** The flag, once recorded, is never cleared. */
  lemma {:induction false} SeenIsPermanent(w: World, events: seq<OverlayEvent>)
    requires w.seen
    ensures Replay(w, events).seen
    decreases |events|
  {
    if events != [] {
      SeenIsPermanent(Step(w, events[0]), events[1..]);
    }
  }

  /** Once dismissed, the overlay stays hidden through any later mounts and
      presses. */
  lemma {:induction false} DismissedStaysHidden(w: World, events: seq<OverlayEvent>)
    requires w.seen && !w.overlay.isVisible && AllEnabled(w, events)
    ensures !Replay(w, events).overlay.isVisible
    decreases |events|
  {
    if events != [] {
      DismissedStaysHidden(Step(w, events[0]), events[1..]);
    }
  }

  /** A first visit: the overlay shows, Skip dismisses it, and the next
      visit shows nothing. */
  lemma FirstVisitThenReturn()
    ensures var w := Step(World(false, Overlay(false, 0)), Mount);
            w.overlay.isVisible &&
            Replay(w, [SkipIntroduction, Mount]) == World(true, Overlay(false, 0))
  {
  }

  /** The browser's persistent storage, reduced to the one flag. */
  class Storage {
    var hasSeenWelcome: bool

    constructor (seen: bool)
      ensures hasSeenWelcome == seen
    {
      hasSeenWelcome := seen;
    }
  }

  /** The overlay component. */
  class WelcomeOverlayCard {
    var isVisible: bool
    var currentStep: nat
    const storage: Storage

    ghost predicate Valid()
      reads this
    {
      currentStep < |Steps|
    }

    function State(): World
      reads this, storage
    {
      World(storage.hasSeenWelcome, Overlay(isVisible, currentStep))
    }

    /** Mounting: the state starts hidden on the first card and the mount
        effect shows it when the flag is absent. */
    constructor (storage: Storage)
      ensures Valid() && this.storage == storage
      ensures State() == Step(World(storage.hasSeenWelcome, Overlay(false, 0)), Mount)
    {
      isVisible := false;
      currentStep := 0;
      this.storage := storage;
      if !storage.hasSeenWelcome {
        isVisible := true;
      }
    }

    /** The title of the card being shown. */
    method CurrentTitle() returns (title: string)
      requires Valid()
      ensures title == Steps[currentStep]
    {
      title := Steps[currentStep];
    }

    /** The Next button. */
    method Next()
      requires Valid() && Enabled(State(), NextStep)
      modifies this
      ensures Valid()
      ensures State() == Step(old(State()), NextStep)
    {
      currentStep := currentStep + 1;
    }

    /** A progress dot: jumps to its card. */
    method GoTo(index: nat)
      requires Valid() && Enabled(State(), Dot(index))
      modifies this
      ensures Valid()
      ensures State() == Step(old(State()), Dot(index))
    {
      currentStep := index;
    }

    /** `handleDismiss`, behind both Begin Exploration and Skip. */
    method HandleDismiss()
      requires Valid() && (Enabled(State(), BeginExploration) || Enabled(State(), SkipIntroduction))
      modifies this, storage
      ensures Valid()
      ensures State() == Dismiss(old(State()))
      ensures storage.hasSeenWelcome && !isVisible
    {
      storage.hasSeenWelcome := true;
      isVisible := false;
    }
  }

  /** Showing the overlay, dismissing it, and mounting it again: the second
      mount stays hidden. */
  method VisitTwice(storage: Storage) returns (again: WelcomeOverlayCard)
    requires !storage.hasSeenWelcome
    modifies storage
    ensures !again.isVisible && storage.hasSeenWelcome
  {
    var first := new WelcomeOverlayCard(storage);
    first.HandleDismiss();
    again := new WelcomeOverlayCard(storage);
  }
}
