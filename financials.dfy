/** The financial aggregator of App.tsx (`calculateFinancials`), the filtered
    views handed to the detail screen, and the dictionary of summaries that
    `allFinancials` builds, all as pure functions of one snapshot of the store. */
module Financials {
  import opened Types
  import opened Records

  /** The four in-memory collections of the application. */
  datatype Db = Db(
    projects: seq<Project>,
    stages: seq<Stage>,
    materials: seq<Material>,
    labor: seq<Labor>)

  // ---------------------------------------------------------------------------
  // Sums (`reduce((acc, x) => acc + cost(x), 0)`, a left fold)

  function SumMaterialCost(ms: seq<Material>): real
  {
    if ms == [] then 0.0 else SumMaterialCost(ms[..|ms| - 1]) + MaterialCost(ms[|ms| - 1])
  }

  function SumLaborCost(ls: seq<Labor>): real
  {
    if ls == [] then 0.0 else SumLaborCost(ls[..|ls| - 1]) + LaborCost(ls[|ls| - 1])
  }

  lemma SumMaterialCostAppend(ms: seq<Material>, m: Material)
    ensures SumMaterialCost(ms + [m]) == SumMaterialCost(ms) + MaterialCost(m)
  {
    assert (ms + [m])[..|ms|] == ms;
  }

  lemma SumLaborCostAppend(ls: seq<Labor>, l: Labor)
    ensures SumLaborCost(ls + [l]) == SumLaborCost(ls) + LaborCost(l)
  {
    assert (ls + [l])[..|ls|] == ls;
  }

  // ---------------------------------------------------------------------------
  // Filters

  /** `stages.filter(s => s.projectId === projectId)` */
  function StagesOfProject(stages: seq<Stage>, pid: string): (r: seq<Stage>)
    ensures forall s :: s in r <==> s in stages && s.projectId == pid
  {
    if stages == [] then []
    else
      var last := stages[|stages| - 1];
      assert stages == stages[..|stages| - 1] + [last];
      StagesOfProject(stages[..|stages| - 1], pid) + (if last.projectId == pid then [last] else [])
  }

  /** `projectStages.map(s => s.id)` */
  function StageIds(stages: seq<Stage>): (ids: seq<string>)
    ensures |ids| == |stages|
    ensures forall i :: 0 <= i < |stages| ==> ids[i] == stages[i].id
  {
    seq(|stages|, i requires 0 <= i < |stages| => stages[i].id)
  }

  /** `materials.filter(m => stageIds.includes(m.stageId))` */
  function MaterialsOfStages(ms: seq<Material>, ids: seq<string>): (r: seq<Material>)
    ensures |r| <= |ms|
    ensures forall m :: m in r <==> m in ms && m.stageId in ids
  {
    if ms == [] then []
    else
      var last := ms[|ms| - 1];
      assert ms == ms[..|ms| - 1] + [last];
      MaterialsOfStages(ms[..|ms| - 1], ids) + (if last.stageId in ids then [last] else [])
  }

  /** `labor.filter(l => stageIds.includes(l.stageId))` */
  function LaborOfStages(ls: seq<Labor>, ids: seq<string>): (r: seq<Labor>)
    ensures |r| <= |ls|
    ensures forall l :: l in r <==> l in ls && l.stageId in ids
  {
    if ls == [] then []
    else
      var last := ls[|ls| - 1];
      assert ls == ls[..|ls| - 1] + [last];
      LaborOfStages(ls[..|ls| - 1], ids) + (if last.stageId in ids then [last] else [])
  }

  /** `projects.find(p => p.id === projectId)`: the first project with that id. */
  function FindProject(projects: seq<Project>, pid: string): (r: Option<Project>)
    ensures r.None? <==> forall p :: p in projects ==> p.id != pid
    ensures r.Some? ==> exists i :: 0 <= i < |projects| && projects[i] == r.value && r.value.id == pid
                                   && forall j :: 0 <= j < i ==> projects[j].id != pid
  {
    if projects == [] then None
    else if projects[0].id == pid then Some(projects[0])
    else
      var r := FindProject(projects[1..], pid);
      assert r.Some? ==> exists i :: 0 <= i < |projects[1..]| && projects[1..][i] == r.value && r.value.id == pid
                                     && forall j :: 0 <= j < i ==> projects[1..][j].id != pid;
      assert forall i :: 0 <= i < |projects[1..]| ==> projects[1..][i] == projects[i + 1];
      r
  }

  /** `project ? project.totalBudget : 0` */
  function ProjectBudget(projects: seq<Project>, pid: string): real
  {
    match FindProject(projects, pid)
    case Some(p) => p.totalBudget
    case None => 0.0
  }

  // ---------------------------------------------------------------------------
  // The aggregator

  /** The materials and labor entries the aggregator attributes to a project. */
  function ProjectStageIds(db: Db, pid: string): seq<string>
  {
    StageIds(StagesOfProject(db.stages, pid))
  }

  /** `calculateFinancials(projectId)` */
  function CalculateFinancials(db: Db, pid: string): (f: ProjectFinancials)
    ensures f.totalCost == f.totalMaterials + f.totalLabor
    ensures f.projectedProfit == ProjectBudget(db.projects, pid) - f.totalCost
    ensures f.isOverBudget <==> f.projectedProfit < 0.0
  {
    var ids := ProjectStageIds(db, pid);
    Summarize(
      SumMaterialCost(MaterialsOfStages(db.materials, ids)),
      SumLaborCost(LaborOfStages(db.labor, ids)),
      ProjectBudget(db.projects, pid))
  }

  /** The returned record, from the two totals and the budget. */
  function Summarize(totalMaterials: real, totalLabor: real, budget: real): ProjectFinancials
  {
    var totalCost := totalMaterials + totalLabor;
    ProjectFinancials(
      totalMaterials,
      totalLabor,
      totalCost,
      budget - totalCost,
      if budget > 0.0 then (budget - totalCost) / budget * 100.0 else 0.0,
      if budget > 0.0 then totalCost / budget * 100.0 else 0.0,
      totalCost > budget,
      totalCost > budget * 0.8)
  }

  // ---------------------------------------------------------------------------
  // The filtered views handed to the detail screen

  /** `stages.some(s => s.id === sid && s.projectId === pid)` */
  predicate OnProjectStage(stages: seq<Stage>, sid: string, pid: string)
  {
    exists i :: 0 <= i < |stages| && stages[i].id == sid && stages[i].projectId == pid
  }

  function DetailStages(db: Db, pid: string): seq<Stage>
  {
    StagesOfProject(db.stages, pid)
  }

  /** `materials.filter(m => stages.some(s => s.id === m.stageId && s.projectId === pid))` */
  function DetailMaterials(db: Db, pid: string): (r: seq<Material>)
    ensures forall m :: m in r <==> m in db.materials && OnProjectStage(db.stages, m.stageId, pid)
  {
    MaterialsOnProject(db.materials, db.stages, pid)
  }

  function MaterialsOnProject(ms: seq<Material>, stages: seq<Stage>, pid: string): (r: seq<Material>)
    ensures forall m :: m in r <==> m in ms && OnProjectStage(stages, m.stageId, pid)
  {
    if ms == [] then []
    else
      var last := ms[|ms| - 1];
      assert ms == ms[..|ms| - 1] + [last];
      MaterialsOnProject(ms[..|ms| - 1], stages, pid)
        + (if OnProjectStage(stages, last.stageId, pid) then [last] else [])
  }

  /** `labor.filter(l => stages.some(s => s.id === l.stageId && s.projectId === pid))` */
  function DetailLabor(db: Db, pid: string): (r: seq<Labor>)
    ensures forall l :: l in r <==> l in db.labor && OnProjectStage(db.stages, l.stageId, pid)
  {
    LaborOnProject(db.labor, db.stages, pid)
  }

  function LaborOnProject(ls: seq<Labor>, stages: seq<Stage>, pid: string): (r: seq<Labor>)
    ensures forall l :: l in r <==> l in ls && OnProjectStage(stages, l.stageId, pid)
  {
    if ls == [] then []
    else
      var last := ls[|ls| - 1];
      assert ls == ls[..|ls| - 1] + [last];
      LaborOnProject(ls[..|ls| - 1], stages, pid)
        + (if OnProjectStage(stages, last.stageId, pid) then [last] else [])
  }

  // ---------------------------------------------------------------------------
  // The dictionary built by `allFinancials`

  /** The assignments `acc[p.id] = calculateFinancials(p.id)`, one per project, in order. */
  function FinancialsEntries(db: Db, ps: seq<Project>): (es: Record<ProjectFinancials>)
    ensures |es| == |ps|
    ensures forall i :: 0 <= i < |ps| ==> es[i] == Entry(ps[i].id, CalculateFinancials(db, ps[i].id))
  {
    seq(|ps|, i requires 0 <= i < |ps| => Entry(ps[i].id, CalculateFinancials(db, ps[i].id)))
  }

  /** `allFinancials`: the object after the `forEach` has made those assignments. */
  function FinancialsRecord(db: Db): Record<ProjectFinancials>
  {
    PutAll([], FinancialsEntries(db, db.projects))
  }

  predicate DistinctProjectIds(ps: seq<Project>)
  {
    forall i, j :: 0 <= i < j < |ps| ==> ps[i].id != ps[j].id
  }

  predicate DistinctStageIds(ss: seq<Stage>)
  {
    forall i, j :: 0 <= i < j < |ss| ==> ss[i].id != ss[j].id
  }
}
