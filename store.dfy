/** The global application store: one state record and one action per
    setter, toggle and insertion. Each action overwrites one field of the
    record. */
module Store {
  import opened Common

  /** `viewMode.type`. */
  datatype ViewKind = Exploration | Focused | Tour

  /** `{ type, focusedNode?, tourStep? }`. */
  datatype ViewMode = ViewMode(kind: ViewKind, focusedNode: Option<string>, tourStep: Option<int>)

  /** `timeOfDay`. */
  datatype TimeOfDay = Morning | Afternoon | Evening | Night

  /** `cameraPosition`. */
  datatype Vec3 = Vec3(x: real, y: real, z: real)

  /** The headline metrics, in fixed point: `fteCapacity` in hundredths of a
      full-time equivalent and `paybackMonths` in tenths of a month. */
  datatype Metrics = Metrics(annualSavings: int, fteCapacity: int, hoursAutomated: int, roi: int, paybackMonths: int)

  /** A `Partial<MetricsData>`: `None` is a key that is absent. */
  datatype MetricsPatch = MetricsPatch(
    annualSavings: Option<int>, fteCapacity: Option<int>, hoursAutomated: Option<int>,
    roi: Option<int>, paybackMonths: Option<int>)

  /** The five metric keys. */
  datatype MetricField = AnnualSavings | FteCapacity | HoursAutomated | Roi | PaybackMonths

  /** The whole store without its action functions. */
  datatype StoreState = StoreState(
    viewMode: ViewMode,
    cameraPosition: Vec3,
    zoomLevel: real,
    metrics: Metrics,
    selectedNode: Option<string>,
    hoveredNode: Option<string>,
    animationSpeed: real,
    isPaused: bool,
    discoveredNodes: set<string>,
    achievements: set<string>,
    soundEnabled: bool,
    timeOfDay: TimeOfDay)

  /** The store's fields, one per state entry. */
  datatype StoreField =
    | ViewModeField | CameraField | ZoomField | MetricsField | SelectedField | HoveredField
    | SpeedField | PausedField | DiscoveredField | AchievementsField | SoundField | TimeField

  /** The store's actions. */
  datatype Action =
    | SetViewMode(mode: ViewMode)
    | SetCameraPosition(position: Vec3)
    | SetZoomLevel(level: real)
    | UpdateMetrics(patch: MetricsPatch)
    | SetSelectedNode(node: Option<string>)
    | SetHoveredNode(node: Option<string>)
    | SetAnimationSpeed(speed: real)
    | TogglePause
    | DiscoverNode(name: string)
    | UnlockAchievement(achievement: string)
    | ToggleSound
    | SetTimeOfDay(time: TimeOfDay)

  /** The initial metrics: $1,500,000, 16.28 FTE, 33,852 hours, 293% and
      4.1 months. */
  const InitialMetrics := Metrics(1500000, 1628, 33852, 293, 41)

  /** The state the store is created with. */
  const Initial := StoreState(
    ViewMode(Exploration, None, None), Vec3(0.0, 50.0, 100.0), 1.0, InitialMetrics,
    None, None, 1.0, false, {}, {}, true, Morning)

  /** One metric read by key. */
  function Get(m: Metrics, f: MetricField): int
  {
    match f
    case AnnualSavings => m.annualSavings
    case FteCapacity => m.fteCapacity
    case HoursAutomated => m.hoursAutomated
    case Roi => m.roi
    case PaybackMonths => m.paybackMonths
  }

  /** One key of a partial metrics object. */
  function PatchGet(p: MetricsPatch, f: MetricField): Option<int>
  {
    match f
    case AnnualSavings => p.annualSavings
    case FteCapacity => p.fteCapacity
    case HoursAutomated => p.hoursAutomated
    case Roi => p.roi
    case PaybackMonths => p.paybackMonths
  }

  /** The patch that names no key. */
  const EmptyPatch := MetricsPatch(None, None, None, None, None)

  /** `{ ...m, ...p }`: every key present in `p` takes `p`'s value and every
      other key keeps `m`'s. */
  function Merge(m: Metrics, p: MetricsPatch): (r: Metrics)
    ensures forall f :: Get(r, f) == (if PatchGet(p, f).Some? then PatchGet(p, f).value else Get(m, f))
  {
    Metrics(
      if p.annualSavings.Some? then p.annualSavings.value else m.annualSavings,
      if p.fteCapacity.Some? then p.fteCapacity.value else m.fteCapacity,
      if p.hoursAutomated.Some? then p.hoursAutomated.value else m.hoursAutomated,
      if p.roi.Some? then p.roi.value else m.roi,
      if p.paybackMonths.Some? then p.paybackMonths.value else m.paybackMonths)
  }

  /** `{ ...p, ...q }` on two partial objects: `q`'s keys win. */
  function Override(p: MetricsPatch, q: MetricsPatch): (r: MetricsPatch)
    ensures forall f :: PatchGet(r, f) == (if PatchGet(q, f).Some? then PatchGet(q, f) else PatchGet(p, f))
  {
    MetricsPatch(
      if q.annualSavings.Some? then q.annualSavings else p.annualSavings,
      if q.fteCapacity.Some? then q.fteCapacity else p.fteCapacity,
      if q.hoursAutomated.Some? then q.hoursAutomated else p.hoursAutomated,
      if q.roi.Some? then q.roi else p.roi,
      if q.paybackMonths.Some? then q.paybackMonths else p.paybackMonths)
  }

  /** The field each action writes. */
  function Writes(a: Action): StoreField
  {
    match a
    case SetViewMode(_) => ViewModeField
    case SetCameraPosition(_) => CameraField
    case SetZoomLevel(_) => ZoomField
    case UpdateMetrics(_) => MetricsField
    case SetSelectedNode(_) => SelectedField
    case SetHoveredNode(_) => HoveredField
    case SetAnimationSpeed(_) => SpeedField
    case TogglePause => PausedField
    case DiscoverNode(_) => DiscoveredField
    case UnlockAchievement(_) => AchievementsField
    case ToggleSound => SoundField
    case SetTimeOfDay(_) => TimeField
  }

  /** Two states agree on field `f`. */
  predicate SameField(s: StoreState, t: StoreState, f: StoreField)
  {
    match f
    case ViewModeField => s.viewMode == t.viewMode
    case CameraField => s.cameraPosition == t.cameraPosition
    case ZoomField => s.zoomLevel == t.zoomLevel
    case MetricsField => s.metrics == t.metrics
    case SelectedField => s.selectedNode == t.selectedNode
    case HoveredField => s.hoveredNode == t.hoveredNode
    case SpeedField => s.animationSpeed == t.animationSpeed
    case PausedField => s.isPaused == t.isPaused
    case DiscoveredField => s.discoveredNodes == t.discoveredNodes
    case AchievementsField => s.achievements == t.achievements
    case SoundField => s.soundEnabled == t.soundEnabled
    case TimeField => s.timeOfDay == t.timeOfDay
  }

  /** The state after one action. */
  function Apply(s: StoreState, a: Action): StoreState
  {
    match a
    case SetViewMode(mode) => s.(viewMode := mode)
    case SetCameraPosition(position) => s.(cameraPosition := position)
    case SetZoomLevel(level) => s.(zoomLevel := level)
    case UpdateMetrics(patch) => s.(metrics := Merge(s.metrics, patch))
    case SetSelectedNode(node) => s.(selectedNode := node)
    case SetHoveredNode(node) => s.(hoveredNode := node)
    case SetAnimationSpeed(speed) => s.(animationSpeed := speed)
    case TogglePause => s.(isPaused := !s.isPaused)
    case DiscoverNode(name) => s.(discoveredNodes := s.discoveredNodes + {name})
    case UnlockAchievement(achievement) => s.(achievements := s.achievements + {achievement})
    case ToggleSound => s.(soundEnabled := !s.soundEnabled)
    case SetTimeOfDay(time) => s.(timeOfDay := time)
  }

  /** The state after a sequence of actions, first action first. */
  function Replay(s: StoreState, actions: seq<Action>): StoreState
    decreases |actions|
  {
    if actions == [] then s else Replay(Apply(s, actions[0]), actions[1..])
  }

  /** The node names a sequence of actions discovers. */
  function DiscoveredBy(actions: seq<Action>): set<string>
    decreases |actions|
  {
    if actions == [] then {}
    else (if actions[0].DiscoverNode? then {actions[0].name} else {}) + DiscoveredBy(actions[1..])
  }

  /** The achievements a sequence of actions unlocks. */
  function UnlockedBy(actions: seq<Action>): set<string>
    decreases |actions|
  {
    if actions == [] then {}
    else (if actions[0].UnlockAchievement? then {actions[0].achievement} else {}) + UnlockedBy(actions[1..])
  }

  // ----- the metrics merge -----

  /** Two metric records that agree on every key are equal. */
  lemma MetricsByKey(a: Metrics, b: Metrics)
    requires forall f :: Get(a, f) == Get(b, f)
    ensures a == b
  {
    assert Get(a, AnnualSavings) == Get(b, AnnualSavings);
    assert Get(a, FteCapacity) == Get(b, FteCapacity);
    assert Get(a, HoursAutomated) == Get(b, HoursAutomated);
    assert Get(a, Roi) == Get(b, Roi);
    assert Get(a, PaybackMonths) == Get(b, PaybackMonths);
  }

  /** An empty patch changes nothing; merging the same patch twice is merging
      it once; two merges in a row are one merge of the combined patch. */
  lemma MergeLaws(m: Metrics, p: MetricsPatch, q: MetricsPatch)
    ensures Merge(m, EmptyPatch) == m
    ensures Merge(Merge(m, p), p) == Merge(m, p)
    ensures Merge(Merge(m, p), q) == Merge(m, Override(p, q))
  {
  }

  /** A patch that names every key replaces the whole record. */
  lemma FullPatchReplaces(m: Metrics, n: Metrics)
    ensures Merge(m, MetricsPatch(Some(n.annualSavings), Some(n.fteCapacity), Some(n.hoursAutomated),
                                  Some(n.roi), Some(n.paybackMonths))) == n
  {
  }

  // ----- one action -----

  /** Every action leaves every field other than its own as it was. */
  lemma OnlyOwnFieldChanges(s: StoreState, a: Action)
    ensures forall f :: f != Writes(a) ==> SameField(s, Apply(s, a), f)
  {
  }

  /** `updateMetrics(p)` overwrites exactly the keys present in `p`. */
  lemma UpdateMetricsByKey(s: StoreState, p: MetricsPatch)
    ensures forall f :: PatchGet(p, f).None? ==> Get(Apply(s, UpdateMetrics(p)).metrics, f) == Get(s.metrics, f)
    ensures forall f :: PatchGet(p, f).Some? ==> Get(Apply(s, UpdateMetrics(p)).metrics, f) == PatchGet(p, f).value
  {
  }

  /** `togglePause` and `toggleSound` negate their flag, and each undoes
      itself. */
  lemma TogglesAreInvolutions(s: StoreState)
    ensures Apply(s, TogglePause).isPaused == !s.isPaused
    ensures Apply(Apply(s, TogglePause), TogglePause) == s
    ensures Apply(s, ToggleSound).soundEnabled == !s.soundEnabled
    ensures Apply(Apply(s, ToggleSound), ToggleSound) == s
  {
  }

  /** `discoverNode(x)` adds `x` and only `x`, and a second call with the
      same `x` changes nothing; likewise `unlockAchievement`. */
  lemma InsertionsAreIdempotent(s: StoreState, x: string)
    ensures Apply(s, DiscoverNode(x)).discoveredNodes == s.discoveredNodes + {x}
    ensures Apply(Apply(s, DiscoverNode(x)), DiscoverNode(x)) == Apply(s, DiscoverNode(x))
    ensures Apply(s, UnlockAchievement(x)).achievements == s.achievements + {x}
    ensures Apply(Apply(s, UnlockAchievement(x)), UnlockAchievement(x)) == Apply(s, UnlockAchievement(x))
  {
  }

  /** A setter writes its argument, and of two calls of the same setter the
      later one wins. */
  lemma SettersReplace(s: StoreState, m1: ViewMode, m2: ViewMode, n1: Option<string>, n2: Option<string>,
                       t1: TimeOfDay, t2: TimeOfDay, z1: real, z2: real)
    ensures Apply(s, SetViewMode(m1)).viewMode == m1
    ensures Apply(Apply(s, SetViewMode(m1)), SetViewMode(m2)) == Apply(s, SetViewMode(m2))
    ensures Apply(s, SetSelectedNode(n1)).selectedNode == n1
    ensures Apply(Apply(s, SetSelectedNode(n1)), SetSelectedNode(n2)) == Apply(s, SetSelectedNode(n2))
    ensures Apply(s, SetHoveredNode(n1)).hoveredNode == n1
    ensures Apply(Apply(s, SetHoveredNode(n1)), SetHoveredNode(n2)) == Apply(s, SetHoveredNode(n2))
    ensures Apply(s, SetTimeOfDay(t1)).timeOfDay == t1
    ensures Apply(Apply(s, SetTimeOfDay(t1)), SetTimeOfDay(t2)) == Apply(s, SetTimeOfDay(t2))
    ensures Apply(s, SetZoomLevel(z1)).zoomLevel == z1
    ensures Apply(Apply(s, SetZoomLevel(z1)), SetZoomLevel(z2)) == Apply(s, SetZoomLevel(z2))
    ensures Apply(s, SetAnimationSpeed(z1)).animationSpeed == z1
    ensures Apply(Apply(s, SetAnimationSpeed(z1)), SetAnimationSpeed(z2)) == Apply(s, SetAnimationSpeed(z2))
  {
  }

  // ----- any sequence of actions -----

  /** After any sequence of actions the discovered nodes are the old ones
      together with every node the sequence discovers, and likewise for the
      achievements: nothing is ever removed. */
  lemma {:induction false} DiscoveryGrowsByInsertion(s: StoreState, actions: seq<Action>)
    ensures Replay(s, actions).discoveredNodes == s.discoveredNodes + DiscoveredBy(actions)
    ensures Replay(s, actions).achievements == s.achievements + UnlockedBy(actions)
    decreases |actions|
  {
    if actions != [] {
      DiscoveryGrowsByInsertion(Apply(s, actions[0]), actions[1..]);
    }
  }

  /** No sequence of actions shrinks either discovery set. */
  lemma DiscoverySetsNeverShrink(s: StoreState, actions: seq<Action>)
    ensures s.discoveredNodes <= Replay(s, actions).discoveredNodes
    ensures s.achievements <= Replay(s, actions).achievements
  {
    DiscoveryGrowsByInsertion(s, actions);
  }

  /** The store, whose fields each action overwrites in place. */
  class AppStore {
    var viewMode: ViewMode
    var cameraPosition: Vec3
    var zoomLevel: real
    var metrics: Metrics
    var selectedNode: Option<string>
    var hoveredNode: Option<string>
    var animationSpeed: real
    var isPaused: bool
    var discoveredNodes: set<string>
    var achievements: set<string>
    var soundEnabled: bool
    var timeOfDay: TimeOfDay

    function Snapshot(): StoreState
      reads this
    {
      StoreState(viewMode, cameraPosition, zoomLevel, metrics, selectedNode, hoveredNode,
                 animationSpeed, isPaused, discoveredNodes, achievements, soundEnabled, timeOfDay)
    }

    /** `create(...)`: the store with its initial values. */
    constructor ()
      ensures Snapshot() == Initial
    {
      viewMode := ViewMode(Exploration, None, None);
      cameraPosition := Vec3(0.0, 50.0, 100.0);
      zoomLevel := 1.0;
      metrics := InitialMetrics;
      selectedNode := None;
      hoveredNode := None;
      animationSpeed := 1.0;
      isPaused := false;
      discoveredNodes := {};
      achievements := {};
      soundEnabled := true;
      timeOfDay := Morning;
    }

    method SetViewMode(mode: ViewMode)
      modifies this
      ensures Snapshot() == Apply(old(Snapshot()), Action.SetViewMode(mode))
    {
      viewMode := mode;
    }

    method SetCameraPosition(position: Vec3)
      modifies this
      ensures Snapshot() == Apply(old(Snapshot()), Action.SetCameraPosition(position))
    {
      cameraPosition := position;
    }

    method SetZoomLevel(level: real)
      modifies this
      ensures Snapshot() == Apply(old(Snapshot()), Action.SetZoomLevel(level))
    {
      zoomLevel := level;
    }

    method UpdateMetrics(patch: MetricsPatch)
      modifies this
      ensures Snapshot() == Apply(old(Snapshot()), Action.UpdateMetrics(patch))
    {
      metrics := Merge(metrics, patch);
    }

    method SetSelectedNode(node: Option<string>)
      modifies this
      ensures Snapshot() == Apply(old(Snapshot()), Action.SetSelectedNode(node))
    {
      selectedNode := node;
    }

    method SetHoveredNode(node: Option<string>)
      modifies this
      ensures Snapshot() == Apply(old(Snapshot()), Action.SetHoveredNode(node))
    {
      hoveredNode := node;
    }

    method SetAnimationSpeed(speed: real)
      modifies this
      ensures Snapshot() == Apply(old(Snapshot()), Action.SetAnimationSpeed(speed))
    {
      animationSpeed := speed;
    }

    method TogglePause()
      modifies this
      ensures Snapshot() == Apply(old(Snapshot()), Action.TogglePause)
    {
      isPaused := !isPaused;
    }

    method DiscoverNode(name: string)
      modifies this
      ensures Snapshot() == Apply(old(Snapshot()), Action.DiscoverNode(name))
    {
      discoveredNodes := discoveredNodes + {name};
    }

    method UnlockAchievement(achievement: string)
      modifies this
      ensures Snapshot() == Apply(old(Snapshot()), Action.UnlockAchievement(achievement))
    {
      achievements := achievements + {achievement};
    }

    method ToggleSound()
      modifies this
      ensures Snapshot() == Apply(old(Snapshot()), Action.ToggleSound)
    {
      soundEnabled := !soundEnabled;
    }

    method SetTimeOfDay(time: TimeOfDay)
      modifies this
      ensures Snapshot() == Apply(old(Snapshot()), Action.SetTimeOfDay(time))
    {
      timeOfDay := time;
    }
  }
}
