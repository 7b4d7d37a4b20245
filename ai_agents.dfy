/** The constant configuration tables: the seventeen agents, the six
    departments that group them by agent id, and the platform integrations. */
module AiAgents {
  import opened Common

  datatype AgentType = QuickWin | BigSwing

  datatype AgentStatus = Active | Planned | InDevelopment

  /** An agent record. `department` is a display label; the grouping that the
      dashboard uses is the id lists of `Departments`. Name, description,
      colour and the `timeSaved`/`efficiency` texts are display strings. */
  datatype Agent = Agent(
    id: string,
    department: string,
    kind: AgentType,
    status: AgentStatus,
    costSaved: nat,
    workflow: Option<seq<string>>)

  datatype Department = Department(id: string, name: string, agents: seq<string>)

  datatype Integration = Integration(id: string, name: string)

  const Agents: seq<Agent> := [
    Agent("snowflake-cortex", "Data", BigSwing, Active, 250000, Some([
      "Receive natural language query", "Parse intent and entities",
      "Query across 7 platforms", "Generate insights", "Return visualization"])),
    Agent("executive-dashboard", "Data", BigSwing, Active, 180000, None),
    Agent("high-value-job-agent", "Marketing", QuickWin, Active, 156000, Some([
      "Scan new jobs at 8AM/2PM daily", "Identify brands (Toyota, Amazon, MAX)",
      "Generate creative via Canva API", "Distribute to social/paid channels",
      "Track performance metrics"])),
    Agent("agentic-marketing-suite", "Marketing", BigSwing, Active, 120000, None),
    Agent("aeo-geo-agent", "Marketing", QuickWin, Active, 45000, None),
    Agent("lead-qualification", "Sales", QuickWin, Active, 195000, Some([
      "Receive lead from India team", "Verify identity via Clearbit",
      "Check industry databases", "Score based on patterns", "Route to sales team"])),
    Agent("name-verification", "Customer Success", QuickWin, Active, 52000, None),
    Agent("compliance-agent", "Customer Success", QuickWin, Active, 48000, None),
    Agent("hubspot-agent", "Sales", BigSwing, Active, 85000, None),
    Agent("tier1-support", "Support", QuickWin, Active, 280000, Some([
      "Receive customer inquiry", "Identify issue type", "Access knowledge base",
      "Provide resolution", "Escalate if needed"])),
    Agent("job-approval", "Support", BigSwing, Active, 120000, None),
    Agent("cast-it-reach-forms", "Support", QuickWin, Active, 65000, None),
    Agent("ai-prd-templates", "Product", QuickWin, Active, 45000, None),
    Agent("ai-dev-copilot", "Engineering", QuickWin, Active, 240000, None),
    Agent("test-generation", "QA", QuickWin, Active, 180000, Some([
      "Read JIRA ticket/PRD", "Generate test cases", "Create Playwright code",
      "Execute in parallel", "Report results"])),
    Agent("employee-bot", "HR/IT", QuickWin, Active, 35000, None),
    Agent("vendor-management", "IT", QuickWin, Active, 42000, None)
  ]

  const Departments: seq<Department> := [
    Department("data", "Data & Analytics", ["snowflake-cortex", "executive-dashboard"]),
    Department("marketing", "Marketing", ["high-value-job-agent", "agentic-marketing-suite", "aeo-geo-agent"]),
    Department("sales", "Sales & Success", ["lead-qualification", "name-verification", "compliance-agent", "hubspot-agent"]),
    Department("support", "Customer Support", ["tier1-support", "job-approval", "cast-it-reach-forms"]),
    Department("product", "Product & Engineering", ["ai-prd-templates", "ai-dev-copilot", "test-generation"]),
    Department("operations", "HR/IT/Operations", ["employee-bot", "vendor-management"])
  ]

  const PlatformIntegrations: seq<Integration> := [
    Integration("casting-networks", "Casting Networks"),
    Integration("spotlight", "Spotlight UK"),
    Integration("cast-it", "Cast It Systems"),
    Integration("cast-it-reach", "Cast It Reach"),
    Integration("staff-me-up", "Staff Me Up"),
    Integration("casting-frontier", "Casting Frontier"),
    Integration("tagmin", "Tagmin")
  ]

  /** The reduce of `costSaved` over the first `k` agents: a left fold from 0,
      as JavaScript's `reduce((sum, agent) => sum + agent.impact.costSaved, 0)`. */
  function CostUpTo(agents: seq<Agent>, k: nat): nat
    requires k <= |agents|
  {
    if k == 0 then 0 else CostUpTo(agents, k - 1) + agents[k - 1].costSaved
  }

  /** Sum of `costSaved` over a whole list. */
  function TotalCost(agents: seq<Agent>): nat
  {
    CostUpTo(agents, |agents|)
  }

  /** Number of agents of type `t` among the first `k`. */
  function KindUpTo(agents: seq<Agent>, k: nat, t: AgentType): (r: nat)
    requires k <= |agents|
    ensures r <= k
  {
    if k == 0 then 0 else KindUpTo(agents, k - 1, t) + (if agents[k - 1].kind == t then 1 else 0)
  }

  /** `agents.filter(a => a.type === t).length`. */
  function CountKind(agents: seq<Agent>, t: AgentType): (r: nat)
    ensures r <= |agents|
  {
    KindUpTo(agents, |agents|, t)
  }

  /** Number of agents with status `st` among the first `k`. */
  function StatusUpTo(agents: seq<Agent>, k: nat, st: AgentStatus): (r: nat)
    requires k <= |agents|
    ensures r <= k
  {
    if k == 0 then 0 else StatusUpTo(agents, k - 1, st) + (if agents[k - 1].status == st then 1 else 0)
  }

  /** `agents.filter(a => a.status === st).length`. */
  function CountStatus(agents: seq<Agent>, st: AgentStatus): (r: nat)
    ensures r <= |agents|
  {
    StatusUpTo(agents, |agents|, st)
  }

  /** The folds only look at the first `k` agents. */
  lemma {:induction false} CostUpToAgrees(s: seq<Agent>, t: seq<Agent>, k: nat)
    requires k <= |s| && k <= |t| && s[..k] == t[..k]
    ensures CostUpTo(s, k) == CostUpTo(t, k)
  {
    if k > 0 {
      assert s[k - 1] == s[..k][k - 1] == t[..k][k - 1] == t[k - 1];
      assert s[..k - 1] == s[..k][..k - 1] == t[..k][..k - 1] == t[..k - 1];
      CostUpToAgrees(s, t, k - 1);
    }
  }

  /** Appending one agent adds its `costSaved`. */
  lemma TotalCostSnoc(s: seq<Agent>, a: Agent)
    ensures TotalCost(s + [a]) == TotalCost(s) + a.costSaved
  {
    assert (s + [a])[..|s|] == s[..|s|];
    CostUpToAgrees(s + [a], s, |s|);
  }

  /** Quick wins and big swings together are all the agents, since each agent
      is exactly one of the two. */
  lemma {:induction false} KindsCoverAll(agents: seq<Agent>, k: nat)
    requires k <= |agents|
    ensures KindUpTo(agents, k, QuickWin) + KindUpTo(agents, k, BigSwing) == k
  {
    if k > 0 {
      KindsCoverAll(agents, k - 1);
    }
  }

  /** When every agent has status `st`, counting that status counts them all. */
  lemma {:induction false} CountUniformStatus(agents: seq<Agent>, k: nat, st: AgentStatus)
    requires k <= |agents|
    requires forall i :: 0 <= i < |agents| ==> agents[i].status == st
    ensures StatusUpTo(agents, k, st) == k
  {
    if k > 0 {
      CountUniformStatus(agents, k - 1, st);
    }
  }

  /** The positions below `k` holding type `t` are those below `k - 1` and,
      when it qualifies, position `k - 1`. */
  lemma KindPositionsStep(agents: seq<Agent>, k: nat, t: AgentType)
    requires 0 < k <= |agents|
    ensures |set i | 0 <= i < k && agents[i].kind == t| ==
      |set i | 0 <= i < k - 1 && agents[i].kind == t| + (if agents[k - 1].kind == t then 1 else 0)
  {
    var before := set i | 0 <= i < k - 1 && agents[i].kind == t;
    var now := set i | 0 <= i < k && agents[i].kind == t;
    if agents[k - 1].kind == t {
      assert now == before + {k - 1};
    } else {
      assert now == before;
    }
  }

  /** The type count among the first `k` agents is the number of positions
      below `k` that hold an agent of that type. */
  lemma {:induction false} KindUpToCounts(agents: seq<Agent>, k: nat, t: AgentType)
    requires k <= |agents|
    ensures KindUpTo(agents, k, t) == |set i | 0 <= i < k && agents[i].kind == t|
  {
    if k > 0 {
      KindUpToCounts(agents, k - 1, t);
      KindPositionsStep(agents, k, t);
    }
  }

  /** The positions below `k` holding status `st` are those below `k - 1`
      and, when it qualifies, position `k - 1`. */
  lemma StatusPositionsStep(agents: seq<Agent>, k: nat, st: AgentStatus)
    requires 0 < k <= |agents|
    ensures |set i | 0 <= i < k && agents[i].status == st| ==
      |set i | 0 <= i < k - 1 && agents[i].status == st| + (if agents[k - 1].status == st then 1 else 0)
  {
    var before := set i | 0 <= i < k - 1 && agents[i].status == st;
    var now := set i | 0 <= i < k && agents[i].status == st;
    if agents[k - 1].status == st {
      assert now == before + {k - 1};
    } else {
      assert now == before;
    }
  }

  /** The status count among the first `k` agents is the number of positions
      below `k` that hold an agent with that status. */
  lemma {:induction false} StatusUpToCounts(agents: seq<Agent>, k: nat, st: AgentStatus)
    requires k <= |agents|
    ensures StatusUpTo(agents, k, st) == |set i | 0 <= i < k && agents[i].status == st|
  {
    if k > 0 {
      StatusUpToCounts(agents, k - 1, st);
      StatusPositionsStep(agents, k, st);
    }
  }

  /** The status count only looks at the first `k` agents. */
  lemma {:induction false} StatusUpToAgrees(s: seq<Agent>, t: seq<Agent>, k: nat, st: AgentStatus)
    requires k <= |s| && k <= |t| && s[..k] == t[..k]
    ensures StatusUpTo(s, k, st) == StatusUpTo(t, k, st)
  {
    if k > 0 {
      assert s[k - 1] == s[..k][k - 1] == t[..k][k - 1] == t[k - 1];
      assert s[..k - 1] == s[..k][..k - 1] == t[..k][..k - 1] == t[..k - 1];
      StatusUpToAgrees(s, t, k - 1, st);
    }
  }

  /** Appending one agent adds one to the count of its own status only. */
  lemma CountStatusSnoc(s: seq<Agent>, a: Agent, st: AgentStatus)
    ensures CountStatus(s + [a], st) == CountStatus(s, st) + (if a.status == st then 1 else 0)
  {
    assert (s + [a])[..|s|] == s[..|s|];
    StatusUpToAgrees(s + [a], s, |s|, st);
  }

  /** For each agent position, the position of its department in `Departments`. */
  const Home: seq<nat> := [0, 0, 1, 1, 1, 2, 2, 2, 2, 3, 3, 3, 4, 4, 4, 5, 5]

  /** Each department lists a contiguous run of `Agents`, starting here. */
  const Start: seq<nat> := [0, 2, 5, 9, 12, 15]

  /** Seventeen agents, with pairwise distinct ids. */
  lemma DistinctIds()
    ensures |Agents| == 17
    ensures forall i, j :: 0 <= i < j < |Agents| ==> Agents[i].id != Agents[j].id
  {
    DistinctIdsLow();
    DistinctIdsAcross();
    DistinctIdsHigh();
  }

  /** No two of the first nine agents share an id. */
  lemma DistinctIdsLow()
    ensures forall i, j :: 0 <= i < j < 9 ==> Agents[i].id != Agents[j].id
  {
  }

  /** No two agents from position 9 on share an id. */
  lemma DistinctIdsHigh()
    ensures forall i, j :: 9 <= i < j < |Agents| ==> Agents[i].id != Agents[j].id
  {
  }

  /** No agent below position 9 shares an id with one from 9 on. */
  lemma DistinctIdsAcross()
    ensures forall i, j :: 0 <= i < 9 <= j < |Agents| ==> Agents[i].id != Agents[j].id
  {
  }

  /** Every agent's status is `active`. */
  lemma StatusesActive()
    ensures forall i :: 0 <= i < |Agents| ==> Agents[i].status == Active
  {
  }

  /** All seventeen agents are counted as active. */
  lemma AllActive()
    ensures CountStatus(Agents, Active) == |Agents| == 17
  {
    StatusesActive();
    CountUniformStatus(Agents, |Agents|, Active);
  }

  /** The `type` column of `Agents`, in order. */
  const KindColumn: seq<AgentType> := [BigSwing, BigSwing, QuickWin, BigSwing, QuickWin, QuickWin, QuickWin, QuickWin, BigSwing, QuickWin, BigSwing, QuickWin, QuickWin, QuickWin, QuickWin, QuickWin, QuickWin]

  /** Number of occurrences of `t` among the first `k` entries of a column. */
  function OccurrencesUpTo(col: seq<AgentType>, k: nat, t: AgentType): nat
    requires k <= |col|
  {
    if k == 0 then 0 else OccurrencesUpTo(col, k - 1, t) + (if col[k - 1] == t then 1 else 0)
  }

  /** Counting a type over agents is counting it over their `type` column. */
  lemma {:induction false} KindUpToMatchesColumn(agents: seq<Agent>, col: seq<AgentType>, k: nat, t: AgentType)
    requires |agents| == |col| && k <= |agents|
    requires forall i :: 0 <= i < |agents| ==> agents[i].kind == col[i]
    ensures KindUpTo(agents, k, t) == OccurrencesUpTo(col, k, t)
  {
    if k > 0 {
      KindUpToMatchesColumn(agents, col, k - 1, t);
    }
  }

  /** Twelve quick wins and five big swings. */
  lemma KindCounts()
    ensures CountKind(Agents, QuickWin) == 12
    ensures CountKind(Agents, BigSwing) == 5
  {
    KindColumnAgrees();
    KindUpToMatchesColumn(Agents, KindColumn, |Agents|, QuickWin);
    KindColumnCount();
    KindsCoverAll(Agents, |Agents|);
  }

  /** `KindColumn` is the `type` column of `Agents`. */
  lemma KindColumnAgrees()
    ensures |KindColumn| == |Agents|
    ensures forall i :: 0 <= i < |Agents| ==> Agents[i].kind == KindColumn[i]
  {
  }

  /** Twelve entries of the type column are quick wins. */
  lemma KindColumnCount()
    ensures OccurrencesUpTo(KindColumn, |KindColumn|, QuickWin) == 12
  {
    assert OccurrencesUpTo(KindColumn, 1, QuickWin) == 0;
    assert OccurrencesUpTo(KindColumn, 2, QuickWin) == 0;
    assert OccurrencesUpTo(KindColumn, 3, QuickWin) == 1;
    assert OccurrencesUpTo(KindColumn, 4, QuickWin) == 1;
    assert OccurrencesUpTo(KindColumn, 5, QuickWin) == 2;
    assert OccurrencesUpTo(KindColumn, 6, QuickWin) == 3;
    assert OccurrencesUpTo(KindColumn, 7, QuickWin) == 4;
    assert OccurrencesUpTo(KindColumn, 8, QuickWin) == 5;
    assert OccurrencesUpTo(KindColumn, 9, QuickWin) == 5;
    assert OccurrencesUpTo(KindColumn, 10, QuickWin) == 6;
    assert OccurrencesUpTo(KindColumn, 11, QuickWin) == 6;
    assert OccurrencesUpTo(KindColumn, 12, QuickWin) == 7;
    assert OccurrencesUpTo(KindColumn, 13, QuickWin) == 8;
    assert OccurrencesUpTo(KindColumn, 14, QuickWin) == 9;
    assert OccurrencesUpTo(KindColumn, 15, QuickWin) == 10;
    assert OccurrencesUpTo(KindColumn, 16, QuickWin) == 11;
  }

  /** Exactly five agents carry a workflow, those at positions 0, 2, 5, 9 and
      14. */
  lemma WorkflowAgents()
    ensures forall i :: 0 <= i < |Agents| ==> (Agents[i].workflow.Some? <==> i in {0, 2, 5, 9, 14})
  {
  }

  /** Each workflow has five steps. */
  lemma WorkflowLengths()
    ensures forall i :: 0 <= i < |Agents| && Agents[i].workflow.Some? ==> |Agents[i].workflow.value| == 5
  {
  }

  /** The `costSaved` column of `Agents`, in order. */
  const CostColumn: seq<nat> := [250000, 180000, 156000, 120000, 45000, 195000, 52000, 48000, 85000, 280000, 120000, 65000, 45000, 240000, 180000, 35000, 42000]

  /** Sum of the first `k` entries of a column. */
  function SumUpTo(col: seq<nat>, k: nat): nat
    requires k <= |col|
  {
    if k == 0 then 0 else SumUpTo(col, k - 1) + col[k - 1]
  }

  /** Folding `costSaved` over agents is summing their cost column. */
  lemma {:induction false} CostUpToMatchesColumn(agents: seq<Agent>, col: seq<nat>, k: nat)
    requires |agents| == |col| && k <= |agents|
    requires forall i :: 0 <= i < |agents| ==> agents[i].costSaved == col[i]
    ensures CostUpTo(agents, k) == SumUpTo(col, k)
  {
    if k > 0 {
      CostUpToMatchesColumn(agents, col, k - 1);
    }
  }

  /** The `costSaved` figures are non-negative whole numbers adding up to
      2,138,000. */
  lemma CostTotal()
    ensures TotalCost(Agents) == 2138000
  {
    CostColumnAgrees();
    CostUpToMatchesColumn(Agents, CostColumn, |Agents|);
    CostColumnSum();
  }

  /** `CostColumn` is the `costSaved` column of `Agents`. */
  lemma CostColumnAgrees()
    ensures |CostColumn| == |Agents|
    ensures forall i :: 0 <= i < |Agents| ==> Agents[i].costSaved == CostColumn[i]
  {
  }

  /** The cost column adds up to 2,138,000. */
  lemma CostColumnSum()
    ensures SumUpTo(CostColumn, |CostColumn|) == 2138000
  {
    assert SumUpTo(CostColumn, 1) == 250000;
    assert SumUpTo(CostColumn, 2) == 430000;
    assert SumUpTo(CostColumn, 3) == 586000;
    assert SumUpTo(CostColumn, 4) == 706000;
    assert SumUpTo(CostColumn, 5) == 751000;
    assert SumUpTo(CostColumn, 6) == 946000;
    assert SumUpTo(CostColumn, 7) == 998000;
    assert SumUpTo(CostColumn, 8) == 1046000;
    assert SumUpTo(CostColumn, 9) == 1131000;
    assert SumUpTo(CostColumn, 10) == 1411000;
    assert SumUpTo(CostColumn, 11) == 1531000;
    assert SumUpTo(CostColumn, 12) == 1596000;
    assert SumUpTo(CostColumn, 13) == 1641000;
    assert SumUpTo(CostColumn, 14) == 1881000;
    assert SumUpTo(CostColumn, 15) == 2061000;
    assert SumUpTo(CostColumn, 16) == 2096000;
  }

  /** Every id a department lists names an agent: the `k`-th id of
      department `d` is the id of agent `Start[d] + k`. */
  lemma DepartmentIdsNameAgents()
    ensures |Start| == |Departments| == 6
    ensures forall d, k :: 0 <= d < |Departments| && 0 <= k < |Departments[d].agents| ==>
      Start[d] + k < |Agents| && Departments[d].agents[k] == Agents[Start[d] + k].id
  {
  }

  /** The six lists are pairwise disjoint and together list every agent:
      agent `i` appears in department `Home[i]` and in no other. */
  lemma DepartmentsPartitionAgents()
    ensures |Home| == |Agents| && |Departments| == 6
    ensures forall d, e, x :: 0 <= d < e < |Departments| && x in Departments[d].agents ==> x !in Departments[e].agents
    ensures forall i :: 0 <= i < |Agents| ==> Home[i] < |Departments| && Agents[i].id in Departments[Home[i]].agents
  {
    DepartmentsDisjoint();
    HomesListAgents();
  }

  /** No id is listed by two departments. */
  lemma DepartmentsDisjoint()
    ensures forall d, e, x :: 0 <= d < e < |Departments| && x in Departments[d].agents ==> x !in Departments[e].agents
  {
  }

  /** Agent `i` is listed by department `Home[i]`. */
  lemma HomesListAgents()
    ensures forall i :: 0 <= i < |Agents| ==> Home[i] < |Departments| && Agents[i].id in Departments[Home[i]].agents
  {
  }
}
