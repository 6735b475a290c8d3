/** The portfolio overview (components/Dashboard.tsx): totals over all
    projects and over the values of `allFinancials`, the overall risk flag,
    and the rows of the budget-versus-spend bar chart. */
module Dashboard {
  import opened Types
  import opened Records
  import opened Financials
  import opened FinancialsProps

  // ---------------------------------------------------------------------------
  // Sums (left folds, as `reduce` computes them)

  /** `projects.reduce((acc, p) => acc + p.totalBudget, 0)` */
  function TotalBudget(ps: seq<Project>): real
  {
    if ps == [] then 0.0 else TotalBudget(ps[..|ps| - 1]) + ps[|ps| - 1].totalBudget
  }

  /** The sum of `totalCost` over a list of summaries. */
  function TotalSpend(fs: seq<ProjectFinancials>): real
  {
    if fs == [] then 0.0 else TotalSpend(fs[..|fs| - 1]) + fs[|fs| - 1].totalCost
  }

  /** The sum of `totalMaterials` over a list of summaries. */
  function TotalMaterials(fs: seq<ProjectFinancials>): real
  {
    if fs == [] then 0.0 else TotalMaterials(fs[..|fs| - 1]) + fs[|fs| - 1].totalMaterials
  }

  /** The sum of `totalLabor` over a list of summaries. */
  function TotalLabor(fs: seq<ProjectFinancials>): real
  {
    if fs == [] then 0.0 else TotalLabor(fs[..|fs| - 1]) + fs[|fs| - 1].totalLabor
  }

  /** The sum of `projectedProfit` over a list of summaries. */
  function TotalProfit(fs: seq<ProjectFinancials>): real
  {
    if fs == [] then 0.0 else TotalProfit(fs[..|fs| - 1]) + fs[|fs| - 1].projectedProfit
  }

  // ---------------------------------------------------------------------------
  // The key figures

  datatype Overview = Overview(
    totalBudget: real,
    totalSpend: real,
    totalMaterials: real,
    totalLabor: real,
    overallProfit: real,
    isOverallRisk: bool)

  /** The figures of the KPI cards, from the project list and the dictionary of
      summaries the dashboard receives. */
  function Figures(projects: seq<Project>, financials: Record<ProjectFinancials>): Overview
  {
    var budget := TotalBudget(projects);
    var list := Values(financials);
    var spend := TotalSpend(list);
    Overview(budget, spend, TotalMaterials(list), TotalLabor(list), budget - spend, spend > budget * 0.8)
  }

  /** The dashboard as App.tsx renders it: all projects and `allFinancials`. */
  function PortfolioOverview(db: Db): Overview
  {
    Figures(db.projects, FinancialsRecord(db))
  }

  // ---------------------------------------------------------------------------
  // The bar chart

  datatype BarRow = BarRow(name: string, budget: real, spend: real)

  /** `name.substring(0, 10) + '...'` */
  function BarLabel(name: string): (shown: string)
    ensures |shown| == (if |name| < 10 then |name| else 10) + 3
    ensures shown[..|shown| - 3] == name[..|shown| - 3]
    ensures shown[|shown| - 3..] == "..."
  {
    (if |name| < 10 then name else name[..10]) + "..."
  }

  /** `financials[p.id]?.totalCost || 0` */
  function SpendOf(financials: Record<ProjectFinancials>, pid: string): real
  {
    match Lookup(financials, pid)
    case Some(f) => f.totalCost
    case None => 0.0
  }

  /** `barData`: one row per project, in project order. */
  function BarData(projects: seq<Project>, financials: Record<ProjectFinancials>): (rows: seq<BarRow>)
    ensures |rows| == |projects|
    ensures forall i :: 0 <= i < |projects| ==>
      rows[i] == BarRow(BarLabel(projects[i].name), projects[i].totalBudget, SpendOf(financials, projects[i].id))
  {
    seq(|projects|, i requires 0 <= i < |projects| =>
      BarRow(BarLabel(projects[i].name), projects[i].totalBudget, SpendOf(financials, projects[i].id)))
  }

  function SumBarBudget(rows: seq<BarRow>): real
  {
    if rows == [] then 0.0 else SumBarBudget(rows[..|rows| - 1]) + rows[|rows| - 1].budget
  }

  function SumBarSpend(rows: seq<BarRow>): real
  {
    if rows == [] then 0.0 else SumBarSpend(rows[..|rows| - 1]) + rows[|rows| - 1].spend
  }

  // ---------------------------------------------------------------------------
  // Properties

  /** Every summary splits its cost into materials and labor, so the portfolio
      spend does too. */
  lemma {:induction false} SpendSplit(fs: seq<ProjectFinancials>)
    requires forall i :: 0 <= i < |fs| ==> fs[i].totalCost == fs[i].totalMaterials + fs[i].totalLabor
    ensures TotalSpend(fs) == TotalMaterials(fs) + TotalLabor(fs)
  {
    if fs != [] {
      SpendSplit(fs[..|fs| - 1]);
    }
  }

  /** Each value of `allFinancials` is the summary of the project under whose id it is stored. */
  lemma RecordValuesAreSummaries(db: Db)
    ensures forall k :: 0 <= k < |FinancialsRecord(db)| ==>
      FinancialsRecord(db)[k].value == CalculateFinancials(db, FinancialsRecord(db)[k].key)
  {
    var r := FinancialsRecord(db);
    FinancialsRecordEntries(db);
    forall k | 0 <= k < |r| ensures r[k].value == CalculateFinancials(db, r[k].key) {
      LookupAt(r, k);
      assert Keys(r)[k] == r[k].key;
      var i :| 0 <= i < |db.projects| && db.projects[i].id == r[k].key;
    }
  }

  /** On the dashboard, total spend is total materials plus total labor. */
  lemma PortfolioSpendSplit(db: Db)
    ensures var o := PortfolioOverview(db);
      o.totalSpend == o.totalMaterials + o.totalLabor
  {
    var r := FinancialsRecord(db);
    RecordValuesAreSummaries(db);
    var vs := Values(r);
    forall i | 0 <= i < |vs| ensures vs[i].totalCost == vs[i].totalMaterials + vs[i].totalLabor {
      assert vs[i] == CalculateFinancials(db, r[i].key);
    }
    SpendSplit(vs);
  }

  /** The bar of every project shows that project's summarized cost. */
  lemma BarSpendIsProjectCost(db: Db)
    ensures forall i :: 0 <= i < |db.projects| ==>
      BarData(db.projects, FinancialsRecord(db))[i].spend == CalculateFinancials(db, db.projects[i].id).totalCost
  {
    FinancialsRecordEntries(db);
  }

  lemma {:induction false} BarBudgetSum(rows: seq<BarRow>, ps: seq<Project>)
    requires |rows| == |ps|
    requires forall i :: 0 <= i < |ps| ==> rows[i].budget == ps[i].totalBudget
    ensures SumBarBudget(rows) == TotalBudget(ps)
  {
    if ps != [] {
      BarBudgetSum(rows[..|rows| - 1], ps[..|ps| - 1]);
    }
  }

  lemma {:induction false} BarSpendSum(rows: seq<BarRow>, fs: seq<ProjectFinancials>)
    requires |rows| == |fs|
    requires forall i :: 0 <= i < |fs| ==> rows[i].spend == fs[i].totalCost
    ensures SumBarSpend(rows) == TotalSpend(fs)
  {
    if fs != [] {
      BarSpendSum(rows[..|rows| - 1], fs[..|fs| - 1]);
    }
  }

  /** The bars' budgets add up to the total budget card. */
  lemma BarBudgetsAddUp(db: Db)
    ensures SumBarBudget(BarData(db.projects, FinancialsRecord(db))) == PortfolioOverview(db).totalBudget
  {
    BarBudgetSum(BarData(db.projects, FinancialsRecord(db)), db.projects);
  }

  /** When project ids are distinct, the bars' spends add up to the total spend card. */
  lemma BarSpendsAddUp(db: Db)
    requires DistinctProjectIds(db.projects)
    ensures SumBarSpend(BarData(db.projects, FinancialsRecord(db))) == PortfolioOverview(db).totalSpend
  {
    FinancialsRecordInOrder(db);
    BarSpendIsProjectCost(db);
    BarSpendSum(BarData(db.projects, FinancialsRecord(db)), Summaries(db, db.projects));
  }

  /** With distinct ids, `find` returns the project itself. */
  lemma FindProjectDistinct(ps: seq<Project>, i: nat)
    requires DistinctProjectIds(ps)
    requires i < |ps|
    ensures FindProject(ps, ps[i].id) == Some(ps[i])
  {
    var r := FindProject(ps, ps[i].id);
    var j :| 0 <= j < |ps| && ps[j] == r.value && r.value.id == ps[i].id
             && forall j' :: 0 <= j' < j ==> ps[j'].id != ps[i].id;
    if j < i {
      assert ps[j].id != ps[i].id;
    }
  }

  /** Each project is budgeted with its own budget. */
  predicate BudgetsMatch(db: Db, ps: seq<Project>)
  {
    forall i :: 0 <= i < |ps| ==> ProjectBudget(db.projects, ps[i].id) == ps[i].totalBudget
  }

  lemma DistinctIdsBudgetsMatch(db: Db)
    requires DistinctProjectIds(db.projects)
    ensures BudgetsMatch(db, db.projects)
  {
    forall i | 0 <= i < |db.projects| ensures ProjectBudget(db.projects, db.projects[i].id) == db.projects[i].totalBudget {
      FindProjectDistinct(db.projects, i);
    }
  }

  lemma {:induction false} ProfitSum(fs: seq<ProjectFinancials>, ps: seq<Project>)
    requires |fs| == |ps|
    requires forall i :: 0 <= i < |ps| ==> fs[i].projectedProfit == ps[i].totalBudget - fs[i].totalCost
    ensures TotalProfit(fs) == TotalBudget(ps) - TotalSpend(fs)
  {
    if ps != [] {
      ProfitSum(fs[..|fs| - 1], ps[..|ps| - 1]);
    }
  }

  /** When no project's cost is above 80% of its budget, the portfolio's
      spend is not above 80% of the portfolio's budget. */
  lemma {:induction false} NoRiskyProjectBound(fs: seq<ProjectFinancials>, ps: seq<Project>)
    requires |fs| == |ps|
    requires forall i :: 0 <= i < |ps| ==> fs[i].totalCost <= ps[i].totalBudget * 0.8
    ensures TotalSpend(fs) <= TotalBudget(ps) * 0.8
  {
    if ps != [] {
      NoRiskyProjectBound(fs[..|fs| - 1], ps[..|ps| - 1]);
    }
  }

  /** The risk flag alone, from `FinancialsProps.RatiosAndFlags`: calling that
      lemma for every project in `PortfolioRisk` costs the solver more than this
      one fact, which `PortfolioRisk` needs. */
  lemma RiskThreshold(db: Db, pid: string)
    ensures CalculateFinancials(db, pid).isRisk <==>
      CalculateFinancials(db, pid).totalCost > ProjectBudget(db.projects, pid) * 0.8
  {
  }

  /** With distinct project ids the overall profit is the sum of the projects'
      projected profits. */
  lemma PortfolioProfit(db: Db)
    requires DistinctProjectIds(db.projects)
    ensures PortfolioOverview(db).overallProfit == TotalProfit(Summaries(db, db.projects))
  {
    FinancialsRecordInOrder(db);
    DistinctIdsBudgetsMatch(db);
    ProfitSum(Summaries(db, db.projects), db.projects);
  }

  /** With distinct project ids the portfolio is at risk only when some project is. */
  lemma PortfolioRisk(db: Db)
    requires DistinctProjectIds(db.projects)
    ensures PortfolioOverview(db).isOverallRisk ==>
      exists i :: 0 <= i < |db.projects| && CalculateFinancials(db, db.projects[i].id).isRisk
  {
    var fs := Summaries(db, db.projects);
    if forall i :: 0 <= i < |db.projects| ==> !fs[i].isRisk {
      DistinctIdsBudgetsMatch(db);
      forall i | 0 <= i < |db.projects| ensures fs[i].totalCost <= db.projects[i].totalBudget * 0.8 {
        RiskThreshold(db, db.projects[i].id);
      }
      NoRiskyProjectBound(fs, db.projects);
      FinancialsRecordInOrder(db);
    }
  }
}
