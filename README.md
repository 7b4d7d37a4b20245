# Talent Systems AI showcase — a verified model of its state machines and tables

The showcase is a single-page React application presenting an AI transformation
programme. Almost all of it is presentation. This project models the parts that
carry logic:

- **The workflow step player.** Five walkthrough components repeat it: a list of six
  steps, an index `currentStep`, the flags `isPlaying` and `showDetails`, a timer tick,
  play/pause, details and reset buttons, and render conditions derived from the index.
  It is modelled once (`StepPlayer`, parameterised by the number of steps `n`).
  Each component's module instantiates it with its own step list.
- **The agent workflow panel.** This is a variant of the player. It runs over the
  selected agent's workflow, wraps to step 0 and stops when it finishes, has no timer
  for an agent without a workflow, and re-selects its agent by id.
- **The ROI calculator.** Seven implementations, each toggled by id. The totals are sums
  over the enabled entries, and a toggle pushes savings, FTE and hours into the store.
- **The global store.** One state record, with an action per setter, toggle and set
  insertion.
- **The agent, department and integration tables, and the executive dashboard.**
  The dashboard shows counts over the agents and savings grouped by department, plus
  its expanded-department and timeframe state.
- **Three floating overlays.** The guided tour, the department detail card and the
  collapsible metrics panel.
- **The welcome overlay.** Four introduction cards, shown only until the visitor has
  dismissed them once.

## How the model is built

Each source file is one module. A component whose handlers update state becomes a
pure state datatype with a transition function (`Next`, `Apply`, `Press`, `Step`)
and a replay over event sequences. Next to it is a class with the component's
fields, whose methods are proved to move the fields exactly as the transition
function says. The properties are lemmas about the transition functions.

- Timers are not modelled; each timer expiry is an explicit `Tick` event.
- The browser's `localStorage` flag is an abstract boolean held by a `Storage` object.
- The React store is an `AppStore` object, passed to the components that write to it.

Money and hours are integers. FTE figures are integers in hundredths (1.5 → 150),
and payback months in tenths (4.1 → 41). Camera position, zoom and animation speed
are `real`. The store only ever replaces them.

Where a component depends on a table, the table is written out as a constant
(`AiAgents.Agents`, `ROICalculator.Table`). Facts about its columns are proved by
folding prefix sums over literal copies of those columns (`CostColumn`,
`KindColumn`).

At the last step the play button still flips `isPlaying`; the next tick clears it
again without moving the index (`StepPlayer.Next`; `StepPlayer.RunPlaying` gives the
closed form).

## Model

| member | source | states |
|---|---|---|
| `StepPlayer.StepStatus` | components/SupportDeflectionWorkflow.tsx:151-155 | a step is completed iff its position is below the index, processing iff equal, waiting iff above; exactly one holds |
| `StepPlayer.TickAdvances` | components/SupportDeflectionWorkflow.tsx:136-149 | a tick while playing below the last step raises the index by exactly one and changes nothing else |
| `StepPlayer.TickStopsAtLast` | components/SupportDeflectionWorkflow.tsx:139-142 | a tick while playing at the last step keeps the index and clears `isPlaying` |
| `StepPlayer.PausedTickIsInert` | components/LeadQualificationWorkflow.tsx:135-137 | without playing no timer runs, so a tick changes nothing |
| `StepPlayer.GuardOnlyTestsPlaying` | components/SupportDeflectionWorkflow.tsx:137 | while the index is in range, the effect's guard holds iff `isPlaying` |
| `StepPlayer.ResetFromAnyState` | components/SupportDeflectionWorkflow.tsx:157-160 | reset yields index 0 and not playing from any state, keeping the details flag |
| `StepPlayer.TogglePlayIsInvolution` | components/HighValueJobWorkflow.tsx:251 | the play button negates only `isPlaying`; pressing it twice restores the state |
| `StepPlayer.ToggleDetailsOnlyFlipsDetails` | components/TestGenerationWorkflow.tsx:286 | the details button negates only `showDetails`; twice restores the state |
| `StepPlayer.InRangeForever` | components/SupportDeflectionWorkflow.tsx:137-144 | `0 <= currentStep <= n-1` holds after every sequence of ticks, toggles and resets |
| `StepPlayer.IndexMonotoneWithoutReset` | components/HighValueJobWorkflow.tsx:138-144 | without Reset the index never decreases |
| `StepPlayer.RunPaused` | components/LeadQualificationWorkflow.tsx:136 | a paused player stays unchanged through any number of ticks |
| `StepPlayer.RunPlaying` | components/SupportDeflectionWorkflow.tsx:136-149 | from index c while playing, k ticks reach index min(c+k, n-1); it still plays iff c+k < n; details kept |
| `StepPlayer.LastStepIsAbsorbing` | components/SpotlightComplianceWorkflow.tsx:139-142 | once at the last step, no number of ticks moves the index |
| `StepPlayer.VisibilityByPosition` | components/SupportDeflectionWorkflow.tsx:384-399 | details show iff the flag is set and the position is at most the index; output shows iff the position is below the index and an output exists |
| `StepPlayer.SummaryAndProgress` | components/SupportDeflectionWorkflow.tsx:301-424 | in range, the summary shows exactly at the last step, and the progress numerator lies in [1, n] |
| `StepPlayer.Player.constructor` | components/SupportDeflectionWorkflow.tsx:38-40 | a mounted player is at index 0, not playing, details shown |
| `StepPlayer.Player.Tick` | components/SupportDeflectionWorkflow.tsx:136-149 | the timer callback moves the fields exactly as `Next` and keeps the index in range |
| `StepPlayer.Player.TogglePlay` | components/SupportDeflectionWorkflow.tsx:251 | the play button moves the fields exactly as the TogglePlay event |
| `StepPlayer.Player.ToggleDetails` | components/SupportDeflectionWorkflow.tsx:286 | the details button moves the fields exactly as the ToggleDetails event |
| `StepPlayer.Player.Reset` | components/SupportDeflectionWorkflow.tsx:157-160 | `resetWorkflow` moves the fields exactly as the Reset event |
| `StepPlayer.Player.StatusOf` | components/SupportDeflectionWorkflow.tsx:151-155 | the status computed for a position satisfies the three-way comparison with the index |
| `SupportDeflectionWorkflow.Mount` | components/SupportDeflectionWorkflow.tsx:38-133 | the component mounts a six-step player at (0, not playing, details shown) |
| `SupportDeflectionWorkflow.TickRule` | components/SupportDeflectionWorkflow.tsx:136-149 | with six steps, a playing tick below 5 increments and keeps playing; at 5 it only clears `isPlaying` |
| `SupportDeflectionWorkflow.BadgeAndPanel` | components/SupportDeflectionWorkflow.tsx:384-399 | every step has an output, so the badge shows iff the step is completed; the panel iff details on and not waiting |
| `SupportDeflectionWorkflow.SummaryShownAtLastStep` | components/SupportDeflectionWorkflow.tsx:301-424 | the summary shows iff the index is 5, and the progress numerator lies in [1, 6] |
| `LeadQualificationWorkflow.Mount` | components/LeadQualificationWorkflow.tsx:37-132 | the component mounts a six-step player at (0, not playing, details shown) |
| `LeadQualificationWorkflow.PausedPlayerStaysPut` | components/LeadQualificationWorkflow.tsx:135-137 | when not playing, no number of ticks changes the state |
| `LeadQualificationWorkflow.WaitingStepShowsNothing` | components/LeadQualificationWorkflow.tsx:383-398 | a waiting step shows no details; output shows iff the step is completed |
| `LeadQualificationWorkflow.RealExampleFromIndexFive` | components/LeadQualificationWorkflow.tsx:423 | the Real Example block shows iff the index is at least 5 |
| `HighValueJobWorkflow.Mount` | components/HighValueJobWorkflow.tsx:37-132 | the component mounts a six-step player at (0, not playing, details shown) |
| `HighValueJobWorkflow.FullRun` | components/HighValueJobWorkflow.tsx:135-148 | from (0, playing), five ticks reach index 5 still playing; six or more give index 5, stopped |
| `HighValueJobWorkflow.IndexOnlyGrows` | components/HighValueJobWorkflow.tsx:137-159 | without Reset the index never decreases and stays within [0, 5] |
| `HighValueJobWorkflow.CardContents` | components/HighValueJobWorkflow.tsx:384-399 | output shows iff completed and present; details iff the flag is on and the step is not waiting |
| `SpotlightComplianceWorkflow.Mount` | components/SpotlightComplianceWorkflow.tsx:37-132 | the component mounts a six-step player at (0, not playing, details shown) |
| `SpotlightComplianceWorkflow.StaysAtLastStep` | components/SpotlightComplianceWorkflow.tsx:139-142 | once the index is 5, no number of ticks changes it |
| `SpotlightComplianceWorkflow.ResetThenTicks` | components/SpotlightComplianceWorkflow.tsx:156-159 | after reset the player is at (0, not playing), and ticks leave it there |
| `SpotlightComplianceWorkflow.ExampleBlockAndProcessingStep` | components/SpotlightComplianceWorkflow.tsx:150-154 | the example block shows iff the index is at least 5; exactly the indexed step is processing |
| `TestGenerationWorkflow.Mount` | components/TestGenerationWorkflow.tsx:38-133 | the component mounts a six-step player at (0, not playing, details shown) |
| `TestGenerationWorkflow.ConnectorRule` | components/TestGenerationWorkflow.tsx:322-325 | a connector exists after step i iff i < 5, and a drawn one is highlighted iff step i is completed |
| `TestGenerationWorkflow.ButtonsAndBounds` | components/TestGenerationWorkflow.tsx:137-160 | the index stays at most 5 under any events; each toggle flips only its own flag |
| `AgentWorkflow.CycleLength` | components/AgentWorkflow.tsx:117 | the cycle length is the workflow's length when the agent has a non-empty workflow, and 5 when the workflow is absent or empty; so it is at least 1 |
| `AgentWorkflow.DrawnSteps` | components/AgentWorkflow.tsx:250 | an agent with a workflow draws one circle per workflow step; one without draws the five built-in steps |
| `AgentWorkflow.CycleMatchesDrawing` | components/AgentWorkflow.tsx:117-250 | the cycle runs over exactly the drawn circles unless the workflow list is empty, in which case it cycles through 5 steps while drawing none |
| `AgentWorkflow.Find` | components/AgentWorkflow.tsx:152 | a found agent is in the table and carries the id; none is found iff no agent has the id |
| `AgentWorkflow.Offered` | components/AgentWorkflow.tsx:161 | the drop-down offers exactly the agents that have a workflow, never more entries than the table |
| `AgentWorkflow.StepStatus` | components/AgentWorkflow.tsx:128-132 | completed iff below the index, processing iff at it, pending iff above |
| `AgentWorkflow.FindFirst` | components/AgentWorkflow.tsx:152 | `find` returns the first agent carrying the id |
| `AgentWorkflow.FindTableAgent` | components/AgentWorkflow.tsx:152 | the ids are distinct, so looking up any agent's id yields that agent |
| `AgentWorkflow.InitialAgent` | components/AgentWorkflow.tsx:33-36 | the panel starts on the high-value job agent, which has a five-step workflow and is offered, at index 0, stopped, comparison shown |
| `AgentWorkflow.WorkflowAgentsCycleFive` | components/AgentWorkflow.tsx:117-250 | every agent with a workflow cycles through five steps and draws exactly five |
| `AgentWorkflow.TickAdvances` | components/AgentWorkflow.tsx:121 | a playing tick below the last step raises the index by exactly one |
| `AgentWorkflow.TickWraps` | components/AgentWorkflow.tsx:117-120 | a playing tick at or past the last step sets the index to 0 and stops |
| `AgentWorkflow.NoTickWithoutTimer` | components/AgentWorkflow.tsx:113 | paused, or with an agent without a workflow, a tick changes nothing |
| `AgentWorkflow.SelectKnown` | components/AgentWorkflow.tsx:151-158 | choosing a table agent's id switches to it, sets index 0 and stops, keeping the comparison flag |
| `AgentWorkflow.SelectUnknown` | components/AgentWorkflow.tsx:152-153 | an id that names no agent leaves the whole state unchanged |
| `AgentWorkflow.ResetFromAnyState` | components/AgentWorkflow.tsx:215-218 | the rewind button gives index 0, not playing, keeping agent and comparison flag |
| `AgentWorkflow.TogglesAreInvolutions` | components/AgentWorkflow.tsx:169-224 | play and comparison buttons each negate one flag, and pressing twice restores the state |
| `AgentWorkflow.InRangeForever` | components/AgentWorkflow.tsx:112-158 | the index stays below the selected agent's cycle length after any sequence of events |
| `AgentWorkflow.AgentFixedWithoutSelect` | components/AgentWorkflow.tsx:151-158 | only Select changes the agent |
| `AgentWorkflow.RunStopped` | components/AgentWorkflow.tsx:113 | a stopped panel stays unchanged through any number of ticks |
| `AgentWorkflow.RunPlaying` | components/AgentWorkflow.tsx:115-122 | from index c in a cycle of n, ticks below n-c advance one each; from tick n-c on, the state is index 0, stopped |
| `AgentWorkflow.InitialFullCycle` | components/AgentWorkflow.tsx:33-126 | after Play on the initial panel, four ticks reach step 4 and the fifth returns to step 0, stopped |
| `AgentWorkflow.AgentWorkflowPanel.constructor` | components/AgentWorkflow.tsx:33-36 | the mounted panel is the initial state, in range |
| `AgentWorkflow.AgentWorkflowPanel.Tick` | components/AgentWorkflow.tsx:112-126 | the interval callback moves the fields exactly as `Next` and keeps them in range |
| `AgentWorkflow.AgentWorkflowPanel.SelectAgent` | components/AgentWorkflow.tsx:151-158 | the change handler moves the fields exactly as the Select event |
| `AgentWorkflow.AgentWorkflowPanel.TogglePlay` | components/AgentWorkflow.tsx:224 | the play button moves the fields exactly as the TogglePlay event |
| `AgentWorkflow.AgentWorkflowPanel.ToggleComparison` | components/AgentWorkflow.tsx:169 | the comparison button moves the fields exactly as the ToggleComparison event |
| `AgentWorkflow.AgentWorkflowPanel.Reset` | components/AgentWorkflow.tsx:215-218 | the rewind button moves the fields exactly as the Reset event |
| `AgentWorkflow.AgentWorkflowPanel.StatusOf` | components/AgentWorkflow.tsx:128-132 | the status computed for a position satisfies the three-way comparison |
| `AiAgents.KindUpTo` | lib/aiAgents.ts:6 | the count of one type among the first k agents is at most k (its value is fixed by `AiAgents.KindUpToCounts`) |
| `AiAgents.CountKind` | lib/aiAgents.ts:6 | the number of agents of one type is at most the number of agents |
| `AiAgents.CountStatus` | lib/aiAgents.ts:7 | the number of agents with one status is at most the number of agents |
| `AiAgents.CostUpToAgrees` | lib/aiAgents.ts:18-303 | two tables whose first k costs agree have equal cost prefix sums |
| `AiAgents.TotalCostSnoc` | lib/aiAgents.ts:18-303 | appending an agent adds its `costSaved` to the total |
| `AiAgents.KindsCoverAll` | lib/aiAgents.ts:6 | quick wins plus big swings among the first k agents is k |
| `AiAgents.CountUniformStatus` | lib/aiAgents.ts:7 | if every agent has one status, counting that status gives the prefix length |
| `AiAgents.KindUpToCounts` | components/ExecutiveDashboard.tsx:59-60 | the type count among the first k agents is the number of positions below k holding an agent of that type |
| `AiAgents.StatusUpToCounts` | components/ExecutiveDashboard.tsx:58 | the status count among the first k agents is the number of positions below k holding an agent with that status |
| `AiAgents.StatusUpToAgrees` | components/ExecutiveDashboard.tsx:58 | the status count of a prefix depends only on that prefix |
| `AiAgents.CountStatusSnoc` | components/ExecutiveDashboard.tsx:76 | appending an agent raises the count of its own status by one and leaves every other status count unchanged |
| `AiAgents.DistinctIds` | lib/aiAgents.ts:18-303 | the table has 17 entries with pairwise distinct ids |
| `AiAgents.StatusesActive` | lib/aiAgents.ts:18-303 | every agent's status is active |
| `AiAgents.AllActive` | lib/aiAgents.ts:18-303 | 17 of the 17 agents are active |
| `AiAgents.KindUpToMatchesColumn` | lib/aiAgents.ts:18-303 | counting a type over the agents equals counting it over their type column |
| `AiAgents.KindCounts` | lib/aiAgents.ts:18-303 | there are 12 quick wins and 5 big swings |
| `AiAgents.KindColumnCount` | lib/aiAgents.ts:18-303 | twelve entries of the type column are quick wins |
| `AiAgents.WorkflowAgents` | lib/aiAgents.ts:32-270 | exactly the agents at positions 0, 2, 5, 9 and 14 carry a workflow |
| `AiAgents.WorkflowLengths` | lib/aiAgents.ts:32-270 | each workflow has five steps |
| `AiAgents.CostUpToMatchesColumn` | lib/aiAgents.ts:18-303 | the cost prefix sum over the agents equals the prefix sum of their cost column |
| `AiAgents.CostTotal` | lib/aiAgents.ts:18-303 | the `costSaved` figures total 2,138,000 |
| `AiAgents.CostColumnSum` | lib/aiAgents.ts:18-303 | the cost column sums to 2,138,000 |
| `AiAgents.DepartmentIdsNameAgents` | lib/aiAgents.ts:306-361 | every id a department lists is the id of an agent in the table |
| `AiAgents.DepartmentsPartitionAgents` | lib/aiAgents.ts:306-361 | the six department lists are pairwise disjoint, and every agent is listed by one of them |
| `ExecutiveDashboard.MembersUpTo` | components/ExecutiveDashboard.tsx:74 | the members among the first k agents number at most k |
| `ExecutiveDashboard.MembersUpToMembership` | components/ExecutiveDashboard.tsx:74 | every member has its id in the department's list, and every one of the first k agents whose id is listed is a member |
| `ExecutiveDashboard.MembersUpToCount` | components/ExecutiveDashboard.tsx:74-82 | the number of members is the number of positions whose agent the department lists |
| `ExecutiveDashboard.MembersUpToActive` | components/ExecutiveDashboard.tsx:74-81 | the number of active members is the number of positions whose agent is listed and active |
| `ExecutiveDashboard.MetricCounts` | components/ExecutiveDashboard.tsx:73-85 | a row's `totalAgents` counts the agents whose id the department lists, and its `activeAgents` those of them that are active |
| `ExecutiveDashboard.InDevelopment` | components/ExecutiveDashboard.tsx:214 | "In Development" plus the active count is the number of agents, so it is never negative |
| `ExecutiveDashboard.MetricOf` | components/ExecutiveDashboard.tsx:73-85 | a row keeps its department, has active ≤ total, and has no top agent iff it has no members |
| `ExecutiveDashboard.DepartmentMetrics` | components/ExecutiveDashboard.tsx:73-85 | there is one row per department, in order, each computed from that department |
| `ExecutiveDashboard.TopAgentIsFirstMember` | components/ExecutiveDashboard.tsx:83 | there are no members iff no agent's id is listed; otherwise the first member is the first listed agent in table order |
| `ExecutiveDashboard.QuickWinsPlusBigSwings` | components/ExecutiveDashboard.tsx:59-60 | quick wins plus big swings equals the number of agents |
| `ExecutiveDashboard.HitsUpTo` | components/ExecutiveDashboard.tsx:74 | an id is listed by at most as many departments as are counted |
| `ExecutiveDashboard.ListedCostIsHits` | components/ExecutiveDashboard.tsx:73-75 | an agent's cost counted once per listing is its cost times its number of listings |
| `ExecutiveDashboard.SavingsStep` | components/ExecutiveDashboard.tsx:73-75 | taking one more agent into account adds its cost once per department that lists it |
| `ExecutiveDashboard.MembersStepCost` | components/ExecutiveDashboard.tsx:74-75 | one more agent adds its cost to a department's savings iff the department lists it |
| `ExecutiveDashboard.SavingsByPartition` | components/ExecutiveDashboard.tsx:73-85 | when every agent is listed exactly once, the department savings sum to the total cost |
| `ExecutiveDashboard.SingleHome` | lib/aiAgents.ts:306-361 | an id listed only by department h is counted once among the first m departments iff h < m |
| `ExecutiveDashboard.RowSavingsMatch` | components/ExecutiveDashboard.tsx:73-85 | the sum of the rows' savings equals the grouped savings sum |
| `ExecutiveDashboard.DepartmentSavingsCoverTotal` | components/ExecutiveDashboard.tsx:73-85 | the dashboard's department savings sum to the total `costSaved` of all agents, 2,138,000 |
| `ExecutiveDashboard.HeadlineCounts` | components/ExecutiveDashboard.tsx:58-60 | 17 agents, 17 active, 0 in development, 12 quick wins, 5 big swings |
| `ExecutiveDashboard.ToggleExpandedRules` | components/ExecutiveDashboard.tsx:260-262 | clicking the open department closes it, clicking another opens that one, so at most that one is open |
| `ExecutiveDashboard.Dashboard.constructor` | components/ExecutiveDashboard.tsx:54-55 | nothing is expanded and the timeframe is year |
| `ExecutiveDashboard.Dashboard.ClickDepartment` | components/ExecutiveDashboard.tsx:260-262 | a header click applies the toggle rule and keeps the timeframe |
| `ExecutiveDashboard.Dashboard.SelectTimeframe` | components/ExecutiveDashboard.tsx:105 | a timeframe button sets the timeframe and keeps the expanded department |
| `ROICalculator.EnabledUpTo` | components/ROICalculator.tsx:83 | the filter keeps at most k entries, all enabled, and keeps every enabled entry among the first k |
| `ROICalculator.Toggle` | components/ROICalculator.tsx:95-99 | the list keeps its length, order, ids and figures; an entry's flag flips iff its id matches |
| `ROICalculator.SumSnoc` | components/ROICalculator.tsx:85-87 | appending an entry adds its value to the fold |
| `ROICalculator.EnabledStep` | components/ROICalculator.tsx:83-87 | one more entry adds its value to the enabled total iff it is enabled |
| `ROICalculator.EnabledAtMostAll` | components/ROICalculator.tsx:82-91 | the enabled total of a prefix is at most the prefix's total |
| `ROICalculator.AllEnabledKeepsAll` | components/ROICalculator.tsx:83 | when every entry is enabled, the filter keeps them all in order |
| `ROICalculator.TotalsBounded` | components/ROICalculator.tsx:82-91 | each total is at most the all-enabled total, and `roi` = 293 and payback = 4.1 for every list |
| `ROICalculator.ToggleDeltaUpTo` | components/ROICalculator.tsx:82-99 | toggling a uniquely-named entry changes a prefix's enabled total by its value iff the prefix covers it |
| `ROICalculator.ToggleDelta` | components/ROICalculator.tsx:82-99 | enabling an entry adds exactly its savings, FTE and hours to the totals; disabling subtracts them |
| `ROICalculator.ToggleTwice` | components/ROICalculator.tsx:95-99 | toggling the same id twice restores the list |
| `ROICalculator.ToggleUnknown` | components/ROICalculator.tsx:95-99 | an id naming no entry leaves the list unchanged |
| `ROICalculator.ToggleFlipsOne` | components/ROICalculator.tsx:95-99 | toggling a uniquely-named entry flips it and leaves every other entry and the order unchanged |
| `ROICalculator.TableShape` | components/ROICalculator.tsx:18-75 | seven entries with distinct ids, all starting enabled |
| `ROICalculator.TablePrefixSums` | components/ROICalculator.tsx:18-50 | the first four entries total $871,000, 9.25 FTE and 19,240 hours |
| `ROICalculator.TableSums` | components/ROICalculator.tsx:18-75 | the seven entries total $1,500,000, 15.73 FTE and 32,852 hours |
| `ROICalculator.TableTotals` | components/ROICalculator.tsx:18-91 | with all entries enabled the totals are (1,500,000, 15.73, 32,852, 293, 4.1), and the savings equal the store's initial `annualSavings` |
| `ROICalculator.StaleTotalsAfterToggle` | components/ROICalculator.tsx:95-106 | switching off support deflection in the fresh table pushes 1,500,000 (the pre-toggle total), while the new list totals 1,220,000 |
| `ROICalculator.Calculator.constructor` | components/ROICalculator.tsx:79 | the calculator mounts with the full table |
| `ROICalculator.Calculator.ToggleImplementation` | components/ROICalculator.tsx:95-107 | as written: the list is toggled, and the store receives savings, FTE and hours of the pre-toggle list through `updateMetrics` |
| `ROICalculator.Calculator.ToggleImplementationSynced` | components/ROICalculator.tsx:95-107 | as intended: the store receives the post-toggle totals, so its three figures equal the displayed totals and ROI and payback are untouched |
| `Store.Merge` | lib/store.ts:78-80 | every key present in the patch takes the patch's value, and every absent key keeps its old value |
| `Store.Override` | lib/store.ts:78-80 | combining two patches, the second's present keys win |
| `Store.MetricsByKey` | lib/store.ts:9-15 | two metric records agreeing on every key are equal |
| `Store.MergeLaws` | lib/store.ts:78-80 | an empty patch is the identity, merging twice is merging once, and two merges compose into one |
| `Store.FullPatchReplaces` | lib/store.ts:78-80 | a patch naming every key replaces the whole record |
| `Store.OnlyOwnFieldChanges` | lib/store.ts:59-111 | every action leaves every store field other than its own unchanged |
| `Store.UpdateMetricsByKey` | lib/store.ts:78-80 | `updateMetrics(p)` overwrites exactly the keys present in p and keeps the others |
| `Store.TogglesAreInvolutions` | lib/store.ts:92-106 | `togglePause` and `toggleSound` negate their flag, and each undoes itself |
| `Store.InsertionsAreIdempotent` | lib/store.ts:96-102 | `discoverNode(x)` yields old ∪ {x} and a repeat changes nothing; likewise `unlockAchievement` |
| `Store.SettersReplace` | lib/store.ts:62-110 | each setter writes its argument, and of two calls the later wins |
| `Store.DiscoveryGrowsByInsertion` | lib/store.ts:95-102 | after any actions the discovered nodes and achievements are the old sets plus exactly those inserted |
| `Store.DiscoverySetsNeverShrink` | lib/store.ts:44-48 | no sequence of actions removes an element from either discovery set |
| `Store.AppStore.constructor` | lib/store.ts:59-111 | the initial store: exploration, camera (0, 50, 100), zoom 1, the initial metrics, nothing selected or hovered, speed 1, not paused, empty sets, sound on, morning |
| `Store.AppStore.SetViewMode` | lib/store.ts:62 | writes the view mode as the action says |
| `Store.AppStore.SetCameraPosition` | lib/store.ts:66 | writes the camera position as the action says |
| `Store.AppStore.SetZoomLevel` | lib/store.ts:68 | writes the zoom level as the action says |
| `Store.AppStore.UpdateMetrics` | lib/store.ts:78-80 | merges the patch into the metrics as the action says |
| `Store.AppStore.SetSelectedNode` | lib/store.ts:84 | writes the selected node as the action says |
| `Store.AppStore.SetHoveredNode` | lib/store.ts:86 | writes the hovered node as the action says |
| `Store.AppStore.SetAnimationSpeed` | lib/store.ts:90 | writes the animation speed as the action says |
| `Store.AppStore.TogglePause` | lib/store.ts:92 | flips the pause flag as the action says |
| `Store.AppStore.DiscoverNode` | lib/store.ts:96-98 | inserts the node as the action says |
| `Store.AppStore.UnlockAchievement` | lib/store.ts:100-102 | inserts the achievement as the action says |
| `Store.AppStore.ToggleSound` | lib/store.ts:106 | flips the sound flag as the action says |
| `Store.AppStore.SetTimeOfDay` | lib/store.ts:110 | writes the time of day as the action says |
| `FloatingUI.ShownStep` | components/FloatingUI.tsx:264-290 | the "Step k of 5" label appears iff the view mode is tour, with k the local index plus one |
| `FloatingUI.Max0` | components/FloatingUI.tsx:305 | `Math.max(0, n)` is at least n and is either 0 or n |
| `FloatingUI.PreviousClamps` | components/FloatingUI.tsx:305-306 | Previous lowers the index by one but not below 0, so at step 0, where it is disabled, it would change nothing |
| `FloatingUI.NextOrFinish` | components/FloatingUI.tsx:323-338 | in a tour exactly one of Next and Finish is offered |
| `FloatingUI.ModeButtons` | components/FloatingUI.tsx:270-333 | Close and Finish both set exploration mode and keep the index; Start sets `{type: 'tour', tourStep: 0}` |
| `FloatingUI.StoreTourStepIsUnread` | components/FloatingUI.tsx:279-290 | the shown step does not depend on the store's `tourStep` |
| `FloatingUI.TourStaysInRange` | components/FloatingUI.tsx:305-326 | pressing only offered buttons keeps the index in [0, 4] |
| `FloatingUI.TourStaysInRangeIntended` | components/FloatingUI.tsx:305-326 | the same holds with the intended start button |
| `FloatingUI.SecondTourResumesAtLastCard` | components/FloatingUI.tsx:234-290 | as written, Start, Next×4, Finish, Start are all offered and show "Step 5 of 5" |
| `FloatingUI.IntendedStartShowsFirstCard` | components/FloatingUI.tsx:264-290 | with the intended start, every tour opens on "Step 1 of 5", including after that sequence |
| `FloatingUI.TourGuide.constructor` | components/FloatingUI.tsx:234 | the local index starts at 0 |
| `FloatingUI.TourGuide.CurrentTarget` | components/FloatingUI.tsx:279 | the shown card is the one the local index names, and it exists |
| `FloatingUI.TourGuide.StartTour` | components/FloatingUI.tsx:264-270 | as written: writes the tour mode to the store and leaves the local index |
| `FloatingUI.TourGuide.StartTourFromFirst` | components/FloatingUI.tsx:264-270 | as intended: writes the tour mode and rewinds the local index to 0 |
| `FloatingUI.TourGuide.Close` | components/FloatingUI.tsx:294 | sets exploration mode, index kept |
| `FloatingUI.TourGuide.Previous` | components/FloatingUI.tsx:305-306 | sets the index to max(0, step−1), staying in range |
| `FloatingUI.TourGuide.Next` | components/FloatingUI.tsx:323-325 | raises the index by one, staying in range, since it is offered only before the last card |
| `FloatingUI.TourGuide.Finish` | components/FloatingUI.tsx:332-333 | sets exploration mode |
| `FloatingUI.DetailFor` | components/FloatingUI.tsx:349-399 | a card renders iff the selected node is casting-tower, marketing-engine or sales-intelligence |
| `FloatingUI.CloseDetail` | components/FloatingUI.tsx:416 | closing sets `selectedNode` to null, after which no card renders |
| `FloatingUI.DetailTitles` | components/FloatingUI.tsx:349-395 | each of the three keys opens its own card; other nodes and null open none |
| `FloatingUI.MetricsPanel.constructor` | components/FloatingUI.tsx:63 | the metrics panel starts expanded |
| `FloatingUI.MetricsPanel.ToggleExpanded` | components/FloatingUI.tsx:121 | the header button flips `isExpanded` |
| `WelcomeOverlay.AfterMount` | components/WelcomeOverlay.tsx:8-17 | after mounting, the overlay is visible iff the seen-flag is absent, on the first card |
| `WelcomeOverlay.DismissButtons` | components/WelcomeOverlay.tsx:19-22 | Begin Exploration and Skip both record the flag and hide the overlay |
| `WelcomeOverlay.NextOrBegin` | components/WelcomeOverlay.tsx:122-149 | on each card exactly one of Next and Begin Exploration is offered, and Skip only on the first |
| `WelcomeOverlay.StepStaysInRange` | components/WelcomeOverlay.tsx:109-125 | the card index stays in [0, 3] under all offered events, and the progress numerator in [1, 4] |
| `WelcomeOverlay.SeenIsPermanent` | components/WelcomeOverlay.tsx:19-22 | once recorded, the flag is never cleared |
| `WelcomeOverlay.DismissedStaysHidden` | components/WelcomeOverlay.tsx:11-22 | after a dismissal, the overlay stays hidden through any later mounts and presses |
| `WelcomeOverlay.FirstVisitThenReturn` | components/WelcomeOverlay.tsx:11-22 | a first visit shows the overlay; Skip then a remount shows nothing |
| `WelcomeOverlay.Storage.constructor` | components/WelcomeOverlay.tsx:13 | the storage holds the given flag |
| `WelcomeOverlay.WelcomeOverlayCard.constructor` | components/WelcomeOverlay.tsx:8-17 | mounting gives visible iff the flag is absent, on card 0 |
| `WelcomeOverlay.WelcomeOverlayCard.CurrentTitle` | components/WelcomeOverlay.tsx:47 | the card the index names exists |
| `WelcomeOverlay.WelcomeOverlayCard.Next` | components/WelcomeOverlay.tsx:122-125 | raises the index by one, staying in range |
| `WelcomeOverlay.WelcomeOverlayCard.GoTo` | components/WelcomeOverlay.tsx:109-119 | a dot sets the index to its own card, which is valid |
| `WelcomeOverlay.WelcomeOverlayCard.HandleDismiss` | components/WelcomeOverlay.tsx:19-22 | records the flag in storage and hides the overlay |
| `WelcomeOverlay.VisitTwice` | components/WelcomeOverlay.tsx:11-22 | dismissing on a first visit makes the next mount hidden |

## Left out

- Timers: the `setTimeout`/`setInterval` durations (2000 ms and 2500 ms), effect cleanup and re-arming. Each expiry is a `Tick` event.
- The animated counters (`AnimatedMetric`, `AnimatedCounter`). They accumulate floating-point increments under an interval.
- The three.js scenes (`EcosystemWorld`, `OrganizationView`), `CallToAction` (browser share/clipboard calls only), `BrandLogos` (static list) and `app/page.tsx` (layout; its accordion toggle follows the same rule as `ExecutiveDashboard.ToggleExpanded`).
- Formatting and chrome: `toLocaleString`, `toFixed`, progress-bar percentages, icons, CSS classes, framer-motion props, and every title, description and duration string, which are kept only where a property needs them.
- Floating point: FTE and payback are fixed-point integers. The ROI calculator's FTE sum is exact here, whereas JavaScript adds binary doubles.
- Camera position, zoom and animation speed are `real` values that the store only replaces. The `parseFloat` of the speed slider and the `ControlPanel` buttons that call the store's toggles are not modelled.
- `Store.Merge`: a key present in a patch with the value `undefined` overwrites the metric in JavaScript. Here an absent and an undefined key are the same `None`, since no caller passes `undefined`.
- The ROI calculator's modal open/close flag (`isOpen`) is not modelled. It only shows or hides the dialog.
- `FloatingUI.DetailFor`: JavaScript's object lookup would also find inherited prototype keys such as `constructor`. The model's map holds only the three department keys.
- The unread literal `status: 'waiting'` fields of the five step arrays are not modelled.
- The model does not relate the ROI table's hours and FTE to the store's initial metrics (32,852 vs 33,852 hours, 15.73 vs 16.28 FTE). Nothing in the program compares them.
- Which components the page mounts: `app/page.tsx` renders only `ExecutiveDashboard` and the support-deflection, lead-qualification, high-value-job and test-generation workflows (lines 21-45, 517-537). `ROICalculator`, `AgentWorkflow`, `WelcomeOverlay`, the floating overlays (including `TourGuide`) and `SpotlightComplianceWorkflow` are modelled as components in their own right, so both findings below are latent in the page as supplied.
- `ExecutiveDashboard.MembersUpTo`, `ROICalculator.EnabledUpTo`: the contracts and lemmas fix which entries the filters keep and how many, but not their order beyond the first member (`ExecutiveDashboard.TopAgentIsFirstMember`). The sums do not depend on the order.

## Findings

| source | as written | input that shows it | evidently intended | confidence | as-written member | corrected member |
|---|---|---|---|---|---|---|
| components/ROICalculator.tsx:95-106 | `calculateTotals()` closes over the `implementations` of the current render, so after `setImplementations(updated)` it still sums the pre-toggle list and pushes stale totals to the store | from the fresh table, switch off `support-deflection`: the store receives 1,500,000 while the list now totals 1,220,000 | the store receives the totals of `updated`, matching the figures the calculator then displays | high, not executed | `ROICalculator.Calculator.ToggleImplementation`, `ROICalculator.StaleTotalsAfterToggle` | `ROICalculator.Calculator.ToggleImplementationSynced` |
| components/FloatingUI.tsx:234-290 | Start Tour writes `{type: 'tour', tourStep: 0}` to the store, but the card shows the component's own `tourStep`, which it never resets | Start, Next ×4, Finish Tour, Start: the new tour opens on "Step 5 of 5" | each tour opens on its first card, as the `tourStep: 0` written to the store indicates | medium, not executed | `FloatingUI.TourGuide.StartTour`, `FloatingUI.SecondTourResumesAtLastCard` | `FloatingUI.TourGuide.StartTourFromFirst`, `FloatingUI.IntendedStartShowsFirstCard` |
