/** The executive dashboard: agent counts, the per-department metrics (grouped
    by membership of the agent's id in the department's list, not by the
    agent's `department` label), and the two pieces of click state. */
module ExecutiveDashboard {
  import opened Common
  import opened AiAgents

  /** The timeframe buttons. No figure of the dashboard takes it as input. */
  datatype Timeframe = Month | Quarter | Year

  /** One row of `departmentMetrics`. */
  datatype DepartmentMetric = DepartmentMetric(
    dept: Department,
    savings: nat,
    activeAgents: nat,
    totalAgents: nat,
    topAgent: Option<Agent>)

  /** `filter(agent => ids.includes(agent.id))` over the first `k` agents,
      keeping their order. */
  function MembersUpTo(agents: seq<Agent>, k: nat, ids: seq<string>): (r: seq<Agent>)
    requires k <= |agents|
    ensures |r| <= k
  {
    if k == 0 then []
    else MembersUpTo(agents, k - 1, ids) + (if agents[k - 1].id in ids then [agents[k - 1]] else [])
  }

  /** The agents a department lists, in `AI_AGENTS` order. */
  function Members(agents: seq<Agent>, ids: seq<string>): seq<Agent>
  {
    MembersUpTo(agents, |agents|, ids)
  }

  /** The dashboard's `activeAgents`. */
  function ActiveAgents(agents: seq<Agent>): nat
  {
    CountStatus(agents, Active)
  }

  /** "In Development": total minus active, which is never negative. */
  function InDevelopment(agents: seq<Agent>): (r: nat)
    ensures r + ActiveAgents(agents) == |agents|
  {
    |agents| - ActiveAgents(agents)
  }

  /** One department's row: savings and counts over its members, and the
      first member as the top agent. */
  function MetricOf(agents: seq<Agent>, dept: Department): (m: DepartmentMetric)
    ensures m.dept == dept
    ensures m.activeAgents <= m.totalAgents
    ensures m.topAgent.None? <==> m.totalAgents == 0
  {
    var members := Members(agents, dept.agents);
    DepartmentMetric(
      dept,
      TotalCost(members),
      CountStatus(members, Active),
      |members|,
      if members == [] then None else Some(members[0]))
  }

  /** `DEPARTMENTS.map(...)`: one row per department, in order. */
  function DepartmentMetrics(agents: seq<Agent>, depts: seq<Department>): (r: seq<DepartmentMetric>)
    ensures |r| == |depts|
    ensures forall d :: 0 <= d < |depts| ==> r[d] == MetricOf(agents, depts[d])
  {
    seq(|depts|, d requires 0 <= d < |depts| => MetricOf(agents, depts[d]))
  }

  /** The top agent is the first agent, in table order, whose id the
      department lists; there is none iff no agent's id is listed. */
  lemma {:induction false} TopAgentIsFirstMember(agents: seq<Agent>, ids: seq<string>, k: nat)
    requires k <= |agents|
    ensures MembersUpTo(agents, k, ids) == [] <==> forall i :: 0 <= i < k ==> agents[i].id !in ids
    ensures MembersUpTo(agents, k, ids) != [] ==>
      exists i :: 0 <= i < k && agents[i].id in ids && MembersUpTo(agents, k, ids)[0] == agents[i] &&
        forall j :: 0 <= j < i ==> agents[j].id !in ids
  {
    if k > 0 {
      TopAgentIsFirstMember(agents, ids, k - 1);
      var prev := MembersUpTo(agents, k - 1, ids);
      if prev == [] && agents[k - 1].id in ids {
        assert MembersUpTo(agents, k, ids)[0] == agents[k - 1];
      } else if prev != [] {
        assert MembersUpTo(agents, k, ids)[0] == prev[0];
      }
    }
  }

  /** The members are listed by the department, and every one of the first
      `k` agents whose id the department lists is among them. */
  lemma {:induction false} MembersUpToMembership(agents: seq<Agent>, k: nat, ids: seq<string>)
    requires k <= |agents|
    ensures forall j :: 0 <= j < |MembersUpTo(agents, k, ids)| ==> MembersUpTo(agents, k, ids)[j].id in ids
    ensures forall i :: 0 <= i < k && agents[i].id in ids ==> agents[i] in MembersUpTo(agents, k, ids)
  {
    if k > 0 {
      MembersUpToMembership(agents, k - 1, ids);
    }
  }

  /** The listed positions below `k` are those below `k - 1` and, when it
      is listed, position `k - 1`. */
  lemma ListedStep(agents: seq<Agent>, k: nat, ids: seq<string>)
    requires 0 < k <= |agents|
    ensures |set i | 0 <= i < k && agents[i].id in ids| ==
      |set i | 0 <= i < k - 1 && agents[i].id in ids| + (if agents[k - 1].id in ids then 1 else 0)
  {
    var before := set i | 0 <= i < k - 1 && agents[i].id in ids;
    var now := set i | 0 <= i < k && agents[i].id in ids;
    if agents[k - 1].id in ids {
      assert now == before + {k - 1};
    } else {
      assert now == before;
    }
  }

  /** A department's members are as many as the positions whose agent it
      lists. */
  lemma {:induction false} MembersUpToCount(agents: seq<Agent>, k: nat, ids: seq<string>)
    requires k <= |agents|
    ensures |MembersUpTo(agents, k, ids)| == |set i | 0 <= i < k && agents[i].id in ids|
  {
    if k > 0 {
      MembersUpToCount(agents, k - 1, ids);
      ListedStep(agents, k, ids);
    }
  }

  /** The listed active positions below `k` are those below `k - 1` and,
      when it qualifies, position `k - 1`. */
  lemma ListedActiveStep(agents: seq<Agent>, k: nat, ids: seq<string>)
    requires 0 < k <= |agents|
    ensures |set i | 0 <= i < k && agents[i].id in ids && agents[i].status == Active| ==
      |set i | 0 <= i < k - 1 && agents[i].id in ids && agents[i].status == Active| +
      (if agents[k - 1].id in ids && agents[k - 1].status == Active then 1 else 0)
  {
    var before := set i | 0 <= i < k - 1 && agents[i].id in ids && agents[i].status == Active;
    var now := set i | 0 <= i < k && agents[i].id in ids && agents[i].status == Active;
    if agents[k - 1].id in ids && agents[k - 1].status == Active {
      assert now == before + {k - 1};
    } else {
      assert now == before;
    }
  }

  /** A department's active members are as many as the positions whose agent
      it lists and which is active. */
  lemma {:induction false} MembersUpToActive(agents: seq<Agent>, k: nat, ids: seq<string>)
    requires k <= |agents|
    ensures CountStatus(MembersUpTo(agents, k, ids), Active) ==
      |set i | 0 <= i < k && agents[i].id in ids && agents[i].status == Active|
  {
    if k > 0 {
      MembersUpToActive(agents, k - 1, ids);
      ListedActiveStep(agents, k, ids);
      var prev := MembersUpTo(agents, k - 1, ids);
      if agents[k - 1].id in ids {
        assert MembersUpTo(agents, k, ids) == prev + [agents[k - 1]];
        CountStatusSnoc(prev, agents[k - 1], Active);
      } else {
        assert MembersUpTo(agents, k, ids) == prev;
      }
    }
  }

  /** A row's `totalAgents` counts the agents whose id the department lists,
      and its `activeAgents` those of them that are active. */
  lemma MetricCounts(agents: seq<Agent>, dept: Department)
    ensures MetricOf(agents, dept).totalAgents == |set i | 0 <= i < |agents| && agents[i].id in dept.agents|
    ensures MetricOf(agents, dept).activeAgents ==
      |set i | 0 <= i < |agents| && agents[i].id in dept.agents && agents[i].status == Active|
  {
    MembersUpToCount(agents, |agents|, dept.agents);
    MembersUpToActive(agents, |agents|, dept.agents);
  }

  /** Quick wins plus big swings is the number of agents. */
  lemma QuickWinsPlusBigSwings(agents: seq<Agent>)
    ensures CountKind(agents, QuickWin) + CountKind(agents, BigSwing) == |agents|
  {
    KindsCoverAll(agents, |agents|);
  }

  // ----- department savings add up to the total -----

  /** How many of the first `m` departments list `id`. */
  function HitsUpTo(depts: seq<Department>, m: nat, id: string): (r: nat)
    requires m <= |depts|
    ensures r <= m
  {
    if m == 0 then 0 else HitsUpTo(depts, m - 1, id) + (if id in depts[m - 1].agents then 1 else 0)
  }

  /** Sum, over the first `m` departments, of the savings of their members
      among the first `k` agents. */
  function SavingsUpTo(agents: seq<Agent>, k: nat, depts: seq<Department>, m: nat): nat
    requires k <= |agents| && m <= |depts|
  {
    if m == 0 then 0
    else SavingsUpTo(agents, k, depts, m - 1) + TotalCost(MembersUpTo(agents, k, depts[m - 1].agents))
  }

  /** Sum of the `savings` column of the first `m` rows. */
  function RowSavingsUpTo(rows: seq<DepartmentMetric>, m: nat): nat
    requires m <= |rows|
  {
    if m == 0 then 0 else RowSavingsUpTo(rows, m - 1) + rows[m - 1].savings
  }

  /** Cost of agent `a` counted once for each of the first `m` departments
      that lists it. */
  function ListedCost(depts: seq<Department>, m: nat, a: Agent): nat
    requires m <= |depts|
  {
    if m == 0 then 0 else ListedCost(depts, m - 1, a) + (if a.id in depts[m - 1].agents then a.costSaved else 0)
  }

  /** The repeated cost is the agent's cost times the number of listings. */
  lemma {:induction false} ListedCostIsHits(depts: seq<Department>, m: nat, a: Agent)
    requires m <= |depts|
    ensures ListedCost(depts, m, a) == HitsUpTo(depts, m, a.id) * a.costSaved
  {
    if m > 0 {
      ListedCostIsHits(depts, m - 1, a);
      var h := HitsUpTo(depts, m - 1, a.id);
      if a.id in depts[m - 1].agents {
        assert (h + 1) * a.costSaved == h * a.costSaved + a.costSaved;
      }
    }
  }

  /** Taking one more agent into account adds its cost once per department
      that lists it. */
  lemma {:induction false} SavingsStep(agents: seq<Agent>, k: nat, depts: seq<Department>, m: nat)
    requires k < |agents| && m <= |depts|
    ensures SavingsUpTo(agents, k + 1, depts, m) == SavingsUpTo(agents, k, depts, m) + ListedCost(depts, m, agents[k])
  {
    if m > 0 {
      SavingsStep(agents, k, depts, m - 1);
      MembersStepCost(agents, k, depts[m - 1].agents);
    }
  }

  /** Taking one more agent into account adds its cost to a department's
      savings exactly when the department lists it. */
  lemma MembersStepCost(agents: seq<Agent>, k: nat, ids: seq<string>)
    requires k < |agents|
    ensures TotalCost(MembersUpTo(agents, k + 1, ids))
         == TotalCost(MembersUpTo(agents, k, ids)) + (if agents[k].id in ids then agents[k].costSaved else 0)
  {
    if agents[k].id in ids {
      TotalCostSnoc(MembersUpTo(agents, k, ids), agents[k]);
    } else {
      assert MembersUpTo(agents, k + 1, ids) == MembersUpTo(agents, k, ids);
    }
  }

  /** When every agent is listed by exactly one department, the department
      savings add up to the total over all agents. */
  lemma {:induction false} SavingsByPartition(agents: seq<Agent>, depts: seq<Department>, k: nat)
    requires k <= |agents|
    requires forall i :: 0 <= i < |agents| ==> HitsUpTo(depts, |depts|, agents[i].id) == 1
    ensures SavingsUpTo(agents, k, depts, |depts|) == CostUpTo(agents, k)
  {
    if k == 0 {
      EmptyPrefixSavings(agents, depts, |depts|);
    } else {
      SavingsByPartition(agents, depts, k - 1);
      assert HitsUpTo(depts, |depts|, agents[k - 1].id) == 1;
      SingleListingStep(agents, depts, k - 1);
    }
  }

  /** An agent listed by exactly one department adds its cost once. */
  lemma SingleListingStep(agents: seq<Agent>, depts: seq<Department>, k: nat)
    requires k < |agents|
    requires HitsUpTo(depts, |depts|, agents[k].id) == 1
    ensures SavingsUpTo(agents, k + 1, depts, |depts|) == SavingsUpTo(agents, k, depts, |depts|) + agents[k].costSaved
  {
    SavingsStep(agents, k, depts, |depts|);
    ListedCostIsHits(depts, |depts|, agents[k]);
  }

  /** With no agents taken into account every department saves nothing. */
  lemma {:induction false} EmptyPrefixSavings(agents: seq<Agent>, depts: seq<Department>, m: nat)
    requires m <= |depts|
    ensures SavingsUpTo(agents, 0, depts, m) == 0
  {
    if m > 0 {
      EmptyPrefixSavings(agents, depts, m - 1);
    }
  }

  /** An id listed by department `h` and by no other is counted once. */
  lemma {:induction false} SingleHome(depts: seq<Department>, m: nat, id: string, h: nat)
    requires m <= |depts| && h < |depts| && id in depts[h].agents
    requires forall e :: 0 <= e < |depts| && e != h ==> id !in depts[e].agents
    ensures HitsUpTo(depts, m, id) == if h < m then 1 else 0
  {
    if m > 0 {
      SingleHome(depts, m - 1, id, h);
    }
  }

  /** The rows' savings column sums what `SavingsUpTo` sums. */
  lemma {:induction false} RowSavingsMatch(agents: seq<Agent>, depts: seq<Department>, m: nat)
    requires m <= |depts|
    ensures RowSavingsUpTo(DepartmentMetrics(agents, depts), m) == SavingsUpTo(agents, |agents|, depts, m)
  {
    if m > 0 {
      RowSavingsMatch(agents, depts, m - 1);
    }
  }

  /** Over the constant tables, the six department savings add up to the
      2,138,000 of all agents together. */
  lemma DepartmentSavingsCoverTotal()
    ensures RowSavingsUpTo(DepartmentMetrics(Agents, Departments), |Departments|) == TotalCost(Agents) == 2138000
  {
    DepartmentsPartitionAgents();
    forall i | 0 <= i < |Agents| ensures HitsUpTo(Departments, |Departments|, Agents[i].id) == 1 {
      var h := Home[i];
      forall e | 0 <= e < |Departments| && e != h ensures Agents[i].id !in Departments[e].agents {
      }
      SingleHome(Departments, |Departments|, Agents[i].id, h);
    }
    SavingsByPartition(Agents, Departments, |Agents|);
    RowSavingsMatch(Agents, Departments, |Departments|);
    CostTotal();
  }

  /** Over the constant tables: 17 agents, all active, none in development,
      12 quick wins and 5 big swings. */
  lemma HeadlineCounts()
    ensures |Agents| == 17 && ActiveAgents(Agents) == 17 && InDevelopment(Agents) == 0
    ensures CountKind(Agents, QuickWin) == 12 && CountKind(Agents, BigSwing) == 5
  {
    AllActive();
    KindCounts();
  }

  // ----- click state -----

  /** The department card's click handler: the open card closes, any other
      card opens. */
  function ToggleExpanded(expanded: Option<string>, id: string): Option<string>
  {
    if expanded == Some(id) then None else Some(id)
  }

  /** Clicking the open department closes it; clicking another (or any when
      none is open) opens that one; so the result is the clicked id or
      nothing, and at most one department is ever expanded. */
  lemma ToggleExpandedRules(expanded: Option<string>, id: string)
    ensures expanded == Some(id) ==> ToggleExpanded(expanded, id) == None
    ensures expanded != Some(id) ==> ToggleExpanded(expanded, id) == Some(id)
    ensures ToggleExpanded(expanded, id) == None || ToggleExpanded(expanded, id).value == id
  {
  }

  class Dashboard {
    var expandedDepartment: Option<string>
    var selectedTimeframe: Timeframe

    constructor ()
      ensures expandedDepartment == None && selectedTimeframe == Year
    {
      expandedDepartment := None;
      selectedTimeframe := Year;
    }

    method ClickDepartment(id: string)
      modifies this
      ensures expandedDepartment == ToggleExpanded(old(expandedDepartment), id)
      ensures selectedTimeframe == old(selectedTimeframe)
    {
      expandedDepartment := if expandedDepartment == Some(id) then None else Some(id);
    }

    method SelectTimeframe(tf: Timeframe)
      modifies this
      ensures selectedTimeframe == tf
      ensures expandedDepartment == old(expandedDepartment)
    {
      selectedTimeframe := tf;
    }
  }
}
