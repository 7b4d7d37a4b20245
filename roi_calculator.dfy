/** The ROI calculator: a list of seven AI implementations, each switched on
    or off by id; the totals are sums over the switched-on entries, and each
    toggle pushes savings, FTE and hours into the store. */
module ROICalculator {
  import opened Common
  import Store

  /** One implementation; `fteImpact` in hundredths of a full-time
      equivalent. Name and department are display text. */
  datatype Implementation = Implementation(id: string, annualSavings: nat, fteImpact: nat, hoursAutomated: nat, enabled: bool)

  /** The three summed columns. */
  datatype Column = Savings | Fte | Hours

  /** The value `calculateTotals` returns; `payback` in tenths of a month. */
  datatype Totals = Totals(totalSavings: nat, totalFte: nat, totalHours: nat, roi: nat, payback: nat)

  /** `AI_IMPLEMENTATIONS` after `.map(impl => ({ ...impl, enabled: true }))`. */
  const Table: seq<Implementation> := [
    Implementation("high-value-job-agent", 156000, 150, 3120, true),
    Implementation("support-deflection", 280000, 350, 7280, true),
    Implementation("lead-qualification", 195000, 225, 4680, true),
    Implementation("test-automation", 240000, 200, 4160, true),
    Implementation("content-generation", 180000, 220, 4576, true),
    Implementation("data-insights", 210000, 180, 3744, true),
    Implementation("casting-matching", 239000, 248, 5292, true)
  ]

  /** The `roi` and `payback` constants of `calculateTotals`. */
  const Roi := 293
  const PaybackTenths := 41

  /** One column of one entry. */
  function Value(x: Implementation, c: Column): nat
  {
    match c
    case Savings => x.annualSavings
    case Fte => x.fteImpact
    case Hours => x.hoursAutomated
  }

  /** `reduce((acc, impl) => acc + impl.<column>, 0)`, a left fold. */
  function Sum(s: seq<Implementation>, c: Column): nat
    decreases |s|
  {
    if s == [] then 0 else Sum(s[..|s| - 1], c) + Value(s[|s| - 1], c)
  }

  /** The enabled entries among the first `k`, in order. */
  function EnabledUpTo(impls: seq<Implementation>, k: nat): (r: seq<Implementation>)
    requires k <= |impls|
    ensures |r| <= k
    ensures forall j :: 0 <= j < |r| ==> r[j].enabled
    ensures forall i :: 0 <= i < k && impls[i].enabled ==> impls[i] in r
  {
    if k == 0 then []
    else EnabledUpTo(impls, k - 1) + (if impls[k - 1].enabled then [impls[k - 1]] else [])
  }

  /** `implementations.filter(impl => impl.enabled)`. */
  function Enabled(impls: seq<Implementation>): seq<Implementation>
  {
    EnabledUpTo(impls, |impls|)
  }

  /** `calculateTotals()` over a given list. */
  function CalculateTotals(impls: seq<Implementation>): Totals
  {
    var e := Enabled(impls);
    Totals(Sum(e, Savings), Sum(e, Fte), Sum(e, Hours), Roi, PaybackTenths)
  }

  /** One summed column of the totals. */
  function TotalOf(t: Totals, c: Column): nat
  {
    match c
    case Savings => t.totalSavings
    case Fte => t.totalFte
    case Hours => t.totalHours
  }

  /** `implementations.map(impl => impl.id === id ? { ...impl, enabled: !impl.enabled } : impl)`. */
  function Toggle(impls: seq<Implementation>, id: string): (r: seq<Implementation>)
    ensures |r| == |impls|
    ensures forall i :: 0 <= i < |impls| ==>
      r[i].id == impls[i].id && r[i].annualSavings == impls[i].annualSavings &&
      r[i].fteImpact == impls[i].fteImpact && r[i].hoursAutomated == impls[i].hoursAutomated &&
      (r[i].enabled <==> (impls[i].enabled != (impls[i].id == id)))
  {
    seq(|impls|, i requires 0 <= i < |impls| =>
      if impls[i].id == id then impls[i].(enabled := !impls[i].enabled) else impls[i])
  }

  /** The object handed to `updateMetrics`: savings, FTE and hours only. */
  function Pushed(t: Totals): Store.MetricsPatch
  {
    Store.MetricsPatch(Some(t.totalSavings), Some(t.totalFte), Some(t.totalHours), None, None)
  }

  // ----- sums -----

  /** Appending an entry adds its value to the fold. */
  lemma SumSnoc(s: seq<Implementation>, x: Implementation, c: Column)
    ensures Sum(s + [x], c) == Sum(s, c) + Value(x, c)
  {
    assert (s + [x])[..|s|] == s;
  }

  /** The total of the first `k + 1` enabled entries is the total of the
      first `k` plus the next entry's value if it is enabled. */
  lemma EnabledStep(impls: seq<Implementation>, k: nat, c: Column)
    requires k < |impls|
    ensures Sum(EnabledUpTo(impls, k + 1), c)
         == Sum(EnabledUpTo(impls, k), c) + (if impls[k].enabled then Value(impls[k], c) else 0)
  {
    if impls[k].enabled {
      SumSnoc(EnabledUpTo(impls, k), impls[k], c);
    } else {
      assert EnabledUpTo(impls, k + 1) == EnabledUpTo(impls, k);
    }
  }

  /** Filtering first never adds: the enabled total is at most the total
      with every entry switched on. */
  lemma {:induction false} EnabledAtMostAll(impls: seq<Implementation>, k: nat, c: Column)
    requires k <= |impls|
    ensures Sum(EnabledUpTo(impls, k), c) <= Sum(impls[..k], c)
  {
    if k > 0 {
      EnabledAtMostAll(impls, k - 1, c);
      EnabledStep(impls, k - 1, c);
      assert impls[..k] == impls[..k - 1] + [impls[k - 1]];
      SumSnoc(impls[..k - 1], impls[k - 1], c);
    }
  }

  /** When every entry is enabled the filter keeps them all. */
  lemma {:induction false} AllEnabledKeepsAll(impls: seq<Implementation>, k: nat)
    requires k <= |impls|
    requires forall i :: 0 <= i < |impls| ==> impls[i].enabled
    ensures EnabledUpTo(impls, k) == impls[..k]
  {
    if k > 0 {
      AllEnabledKeepsAll(impls, k - 1);
      assert impls[..k] == impls[..k - 1] + [impls[k - 1]];
    }
  }

  /** The totals never exceed the totals with every entry switched on, and
      `roi` and `payback` do not depend on the list. */
  lemma TotalsBounded(impls: seq<Implementation>, c: Column)
    ensures TotalOf(CalculateTotals(impls), c) <= Sum(impls, c)
    ensures CalculateTotals(impls).roi == 293 && CalculateTotals(impls).payback == 41
  {
    EnabledAtMostAll(impls, |impls|, c);
    assert impls[..|impls|] == impls;
  }

  /** Toggling the entry at `p` changes the sum of the first `k` enabled
      entries by its value if `k` covers `p`, and by nothing otherwise. */
  lemma {:induction false} ToggleDeltaUpTo(impls: seq<Implementation>, p: nat, k: nat, c: Column)
    requires p < |impls| && k <= |impls|
    requires forall i :: 0 <= i < |impls| && i != p ==> impls[i].id != impls[p].id
    ensures Sum(EnabledUpTo(Toggle(impls, impls[p].id), k), c) + (if k > p && impls[p].enabled then Value(impls[p], c) else 0)
         == Sum(EnabledUpTo(impls, k), c) + (if k > p && !impls[p].enabled then Value(impls[p], c) else 0)
  {
    if k > 0 {
      var t := Toggle(impls, impls[p].id);
      ToggleDeltaUpTo(impls, p, k - 1, c);
      EnabledStep(impls, k - 1, c);
      EnabledStep(t, k - 1, c);
      if k - 1 == p {
        assert t[p] == impls[p].(enabled := !impls[p].enabled);
      } else {
        assert t[k - 1] == impls[k - 1];
      }
    }
  }

  /** Enabling an entry adds exactly its savings, FTE and hours to the
      totals; disabling subtracts them. */
  lemma ToggleDelta(impls: seq<Implementation>, p: nat, c: Column)
    requires p < |impls|
    requires forall i :: 0 <= i < |impls| && i != p ==> impls[i].id != impls[p].id
    ensures var before := TotalOf(CalculateTotals(impls), c);
            var after := TotalOf(CalculateTotals(Toggle(impls, impls[p].id)), c);
            if impls[p].enabled then after + Value(impls[p], c) == before
            else after == before + Value(impls[p], c)
  {
    ToggleDeltaUpTo(impls, p, |impls|, c);
  }

  // ----- toggling -----

  /** Toggling the same id twice restores the list. */
  lemma ToggleTwice(impls: seq<Implementation>, id: string)
    ensures Toggle(Toggle(impls, id), id) == impls
  {
  }

  /** An id that names no entry leaves the list unchanged. */
  lemma ToggleUnknown(impls: seq<Implementation>, id: string)
    requires forall i :: 0 <= i < |impls| ==> impls[i].id != id
    ensures Toggle(impls, id) == impls
  {
  }

  /** Toggling an id the list holds once flips that entry and leaves every
      other entry, and the order, as it was. */
  lemma ToggleFlipsOne(impls: seq<Implementation>, p: nat)
    requires p < |impls|
    requires forall i :: 0 <= i < |impls| && i != p ==> impls[i].id != impls[p].id
    ensures Toggle(impls, impls[p].id) == impls[p := impls[p].(enabled := !impls[p].enabled)]
  {
  }

  // ----- the table -----

  /** The seven ids are pairwise distinct and every entry starts enabled. */
  lemma TableShape()
    ensures |Table| == 7
    ensures forall i, j :: 0 <= i < j < |Table| ==> Table[i].id != Table[j].id
    ensures forall i :: 0 <= i < |Table| ==> Table[i].enabled
  {
  }

  /** The running column sums over the first four entries. */
  lemma TablePrefixSums()
    ensures Sum(Table[..4], Savings) == 871000 && Sum(Table[..4], Fte) == 925 && Sum(Table[..4], Hours) == 19240
  {
    var e := Table;
    assert e[..1][..0] == [];
    assert Sum(e[..1], Savings) == 156000;
    assert Sum(e[..1], Fte) == 150;
    assert Sum(e[..1], Hours) == 3120;
    assert e[..2][..1] == e[..1];
    assert Sum(e[..2], Savings) == 436000;
    assert Sum(e[..2], Fte) == 500;
    assert Sum(e[..2], Hours) == 10400;
    assert e[..3][..2] == e[..2];
    assert Sum(e[..3], Savings) == 631000;
    assert Sum(e[..3], Fte) == 725;
    assert Sum(e[..3], Hours) == 15080;
    assert e[..4][..3] == e[..3];
  }

  /** The column sums over the whole table: $1,500,000, 15.73 FTE and
      32,852 hours. */
  lemma TableSums()
    ensures Sum(Table, Savings) == 1500000 && Sum(Table, Fte) == 1573 && Sum(Table, Hours) == 32852
  {
    TablePrefixSums();
    var e := Table;
    assert e[..5][..4] == e[..4];
    assert Sum(e[..5], Savings) == 1051000;
    assert Sum(e[..5], Fte) == 1145;
    assert Sum(e[..5], Hours) == 23816;
    assert e[..6][..5] == e[..5];
    assert Sum(e[..6], Savings) == 1261000;
    assert Sum(e[..6], Fte) == 1325;
    assert Sum(e[..6], Hours) == 27560;
    assert e[..6] == e[..|e| - 1];
  }

  /** With every entry enabled the totals are $1,500,000, 15.73 FTE and
      32,852 hours; the savings equal the store's initial `annualSavings`. */
  lemma TableTotals()
    ensures CalculateTotals(Table) == Totals(1500000, 1573, 32852, 293, 41)
    ensures CalculateTotals(Table).totalSavings == Store.InitialMetrics.annualSavings
  {
    TableShape();
    AllEnabledKeepsAll(Table, |Table|);
    assert Table[..|Table|] == Table;
    TableSums();
  }

  /** What the as-written toggle pushes: switching off the support
      deflection entry of the fresh table pushes $1,500,000, the total of the
      list before the flip, while the list after the flip totals $1,220,000. */
  lemma StaleTotalsAfterToggle()
    ensures Pushed(CalculateTotals(Table)).annualSavings == Some(1500000)
    ensures CalculateTotals(Toggle(Table, "support-deflection")).totalSavings == 1220000
  {
    TableTotals();
    TableShape();
    ToggleDelta(Table, 1, Savings);
  }

  /** The calculator component: its list state and the store it writes to. */
  class Calculator {
    var implementations: seq<Implementation>
    const store: Store.AppStore

    /** Mounting: the full table, every entry enabled. */
    constructor (store: Store.AppStore)
      ensures implementations == Table && this.store == store
    {
      implementations := Table;
      this.store := store;
    }

    /** `const totals = calculateTotals()`, the figures on screen. */
    function Displayed(): Totals
      reads this
    {
      CalculateTotals(implementations)
    }

    /** `toggleImplementation` as written: the list is flipped, but the
        totals pushed to the store are computed from the list as it was
        before the flip, since `calculateTotals` still sees the old state. */
    method ToggleImplementation(id: string)
      modifies this, store
      ensures implementations == Toggle(old(implementations), id)
      ensures store.Snapshot() == Store.Apply(old(store.Snapshot()), Store.UpdateMetrics(Pushed(CalculateTotals(old(implementations)))))
    {
      var before := implementations;
      implementations := Toggle(implementations, id);
      var newTotals := CalculateTotals(before);
      store.UpdateMetrics(Pushed(newTotals));
    }

    /** `toggleImplementation` as intended: the pushed totals are those of
        the flipped list, so the store's savings, FTE and hours agree with
        the figures on screen and its ROI and payback are untouched. */
    method ToggleImplementationSynced(id: string)
      modifies this, store
      ensures implementations == Toggle(old(implementations), id)
      ensures store.Snapshot() == Store.Apply(old(store.Snapshot()), Store.UpdateMetrics(Pushed(CalculateTotals(implementations))))
      ensures store.metrics.annualSavings == Displayed().totalSavings
      ensures store.metrics.fteCapacity == Displayed().totalFte
      ensures store.metrics.hoursAutomated == Displayed().totalHours
      ensures store.metrics.roi == old(store.metrics.roi) && store.metrics.paybackMonths == old(store.metrics.paybackMonths)
    {
      implementations := Toggle(implementations, id);
      var newTotals := CalculateTotals(implementations);
      store.UpdateMetrics(Pushed(newTotals));
    }
  }
}
