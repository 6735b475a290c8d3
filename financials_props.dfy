/** Properties of the aggregator of App.tsx: which entries it counts, the
    budget guard, the flags, how appending to the store moves the totals, and
    what the dictionary of summaries holds. */
module FinancialsProps {
  import opened Types
  import opened Records
  import opened Financials

  // ---------------------------------------------------------------------------
  // Which entries are counted

  /** A stage id is among the ids of a project's stages exactly when some stage
      of the store has that id and belongs to the project. */
  lemma InProjectStageIds(stages: seq<Stage>, pid: string, sid: string)
    ensures sid in StageIds(StagesOfProject(stages, pid)) <==> OnProjectStage(stages, sid, pid)
  {
    var ps := StagesOfProject(stages, pid);
    if sid in StageIds(ps) {
      var k :| 0 <= k < |ps| && StageIds(ps)[k] == sid;
      assert ps[k] in stages;
      var i :| 0 <= i < |stages| && stages[i] == ps[k];
    }
    if OnProjectStage(stages, sid, pid) {
      var i :| 0 <= i < |stages| && stages[i].id == sid && stages[i].projectId == pid;
      assert stages[i] in ps;
      var k :| 0 <= k < |ps| && ps[k] == stages[i];
      assert StageIds(ps)[k] == sid;
    }
  }

  lemma {:induction false} MaterialFiltersAgree(ms: seq<Material>, stages: seq<Stage>, pid: string)
    ensures MaterialsOfStages(ms, StageIds(StagesOfProject(stages, pid))) == MaterialsOnProject(ms, stages, pid)
  {
    if ms != [] {
      MaterialFiltersAgree(ms[..|ms| - 1], stages, pid);
      InProjectStageIds(stages, pid, ms[|ms| - 1].stageId);
    }
  }

  lemma {:induction false} LaborFiltersAgree(ls: seq<Labor>, stages: seq<Stage>, pid: string)
    ensures LaborOfStages(ls, StageIds(StagesOfProject(stages, pid))) == LaborOnProject(ls, stages, pid)
  {
    if ls != [] {
      LaborFiltersAgree(ls[..|ls| - 1], stages, pid);
      InProjectStageIds(stages, pid, ls[|ls| - 1].stageId);
    }
  }

  /** The aggregator's `stageIds.includes` filters select exactly the entries
      the detail screen receives, so the totals are the sums over those. */
  lemma TotalsOverDetailEntries(db: Db, pid: string)
    ensures MaterialsOfStages(db.materials, ProjectStageIds(db, pid)) == DetailMaterials(db, pid)
    ensures LaborOfStages(db.labor, ProjectStageIds(db, pid)) == DetailLabor(db, pid)
    ensures CalculateFinancials(db, pid).totalMaterials == SumMaterialCost(DetailMaterials(db, pid))
    ensures CalculateFinancials(db, pid).totalLabor == SumLaborCost(DetailLabor(db, pid))
  {
    MaterialFiltersAgree(db.materials, db.stages, pid);
    LaborFiltersAgree(db.labor, db.stages, pid);
  }

  // ---------------------------------------------------------------------------
  // Budget guard and flags

  /** The record built from the two totals and a budget: the ratios are
      guarded against a budget that is not positive, and the two flags compare
      the cost with the budget and with 80% of it. */
  lemma SummarizeRatiosAndFlags(totalMaterials: real, totalLabor: real, b: real)
    ensures var f := Summarize(totalMaterials, totalLabor, b);
      && (f.isOverBudget <==> f.totalCost > b)
      && (f.isRisk <==> f.totalCost > 0.8 * b)
      && (b > 0.0 ==>
            && f.realMargin == (b - f.totalCost) / b * 100.0
            && f.budgetUtilization == f.totalCost / b * 100.0
            && f.realMargin + f.budgetUtilization == 100.0
            && (f.isRisk <==> f.budgetUtilization > 80.0)
            && (f.isOverBudget <==> f.budgetUtilization > 100.0))
      && (b <= 0.0 ==> f.realMargin == 0.0 && f.budgetUtilization == 0.0)
      && (b >= 0.0 && f.isOverBudget ==> f.isRisk)
  {
    var f := Summarize(totalMaterials, totalLabor, b);
    if b > 0.0 {
      RatioArithmetic(b, f.totalCost);
    }
  }

  lemma RatioArithmetic(b: real, c: real)
    requires b > 0.0
    ensures (b - c) / b * 100.0 + c / b * 100.0 == 100.0
    ensures c > 0.8 * b <==> c / b * 100.0 > 80.0
    ensures c > b <==> c / b * 100.0 > 100.0
  {
    var u, w := c / b, (b - c) / b;
    assert u * b == c;
    assert w * b == b - c;
    assert (w + u - 1.0) * b == 0.0;
    if u <= 0.8 { assert (0.8 - u) * b >= 0.0; }
    if u > 0.8 { assert (u - 0.8) * b > 0.0; }
    if u <= 1.0 { assert (1.0 - u) * b >= 0.0; }
    if u > 1.0 { assert (u - 1.0) * b > 0.0; }
  }

  /** The same facts for the summary of a project, with the project's budget. */
  lemma RatiosAndFlags(db: Db, pid: string)
    ensures var f, b := CalculateFinancials(db, pid), ProjectBudget(db.projects, pid);
      && (f.isOverBudget <==> f.totalCost > b)
      && (f.isRisk <==> f.totalCost > 0.8 * b)
      && (b > 0.0 ==>
            && f.realMargin == (b - f.totalCost) / b * 100.0
            && f.budgetUtilization == f.totalCost / b * 100.0
            && f.realMargin + f.budgetUtilization == 100.0
            && (f.isRisk <==> f.budgetUtilization > 80.0)
            && (f.isOverBudget <==> f.budgetUtilization > 100.0))
      && (b <= 0.0 ==> f.realMargin == 0.0 && f.budgetUtilization == 0.0)
      && (b >= 0.0 && f.isOverBudget ==> f.isRisk)
  {
    var ids := ProjectStageIds(db, pid);
    SummarizeRatiosAndFlags(SumMaterialCost(MaterialsOfStages(db.materials, ids)),
      SumLaborCost(LaborOfStages(db.labor, ids)), ProjectBudget(db.projects, pid));
  }

  /** A project id that no project carries has budget 0: its ratios are 0 and
      any positive cost makes it over budget and at risk. */
  lemma UnknownProject(db: Db, pid: string)
    requires forall p :: p in db.projects ==> p.id != pid
    ensures ProjectBudget(db.projects, pid) == 0.0
    ensures var f := CalculateFinancials(db, pid);
      && f.realMargin == 0.0 && f.budgetUtilization == 0.0
      && (f.isOverBudget <==> f.totalCost > 0.0) && (f.isRisk <==> f.totalCost > 0.0)
  {
  }

  // ---------------------------------------------------------------------------
  // Appending to the store

  lemma {:induction false} MaterialsOfStagesAppend(ms: seq<Material>, m: Material, ids: seq<string>)
    ensures MaterialsOfStages(ms + [m], ids) == MaterialsOfStages(ms, ids) + (if m.stageId in ids then [m] else [])
  {
    assert (ms + [m])[..|ms|] == ms;
  }

  lemma {:induction false} LaborOfStagesAppend(ls: seq<Labor>, l: Labor, ids: seq<string>)
    ensures LaborOfStages(ls + [l], ids) == LaborOfStages(ls, ids) + (if l.stageId in ids then [l] else [])
  {
    assert (ls + [l])[..|ls|] == ls;
  }

  /** Appending a material raises the totals of the project that owns its stage
      by exactly its cost and leaves every other project's summary unchanged. */
  lemma AddMaterialEffect(db: Db, m: Material, pid: string)
    ensures var f, f' := CalculateFinancials(db, pid), CalculateFinancials(db.(materials := db.materials + [m]), pid);
      if OnProjectStage(db.stages, m.stageId, pid) then
        && f'.totalMaterials == f.totalMaterials + MaterialCost(m)
        && f'.totalCost == f.totalCost + MaterialCost(m)
        && f'.totalLabor == f.totalLabor
      else f' == f
  {
    var ids := ProjectStageIds(db, pid);
    MaterialsOfStagesAppend(db.materials, m, ids);
    InProjectStageIds(db.stages, pid, m.stageId);
    if m.stageId in ids {
      SumMaterialCostAppend(MaterialsOfStages(db.materials, ids), m);
    } else {
      assert MaterialsOfStages(db.materials + [m], ids) == MaterialsOfStages(db.materials, ids);
    }
  }

  /** The same for a labor entry and its cost hourlyRate * hoursWorked. */
  lemma AddLaborEffect(db: Db, l: Labor, pid: string)
    ensures var f, f' := CalculateFinancials(db, pid), CalculateFinancials(db.(labor := db.labor + [l]), pid);
      if OnProjectStage(db.stages, l.stageId, pid) then
        && f'.totalLabor == f.totalLabor + LaborCost(l)
        && f'.totalCost == f.totalCost + LaborCost(l)
        && f'.totalMaterials == f.totalMaterials
      else f' == f
  {
    var ids := ProjectStageIds(db, pid);
    LaborOfStagesAppend(db.labor, l, ids);
    InProjectStageIds(db.stages, pid, l.stageId);
    if l.stageId in ids {
      SumLaborCostAppend(LaborOfStages(db.labor, ids), l);
    } else {
      assert LaborOfStages(db.labor + [l], ids) == LaborOfStages(db.labor, ids);
    }
  }

  lemma {:induction false} FindProjectAppend(ps: seq<Project>, p: Project, pid: string)
    ensures FindProject(ps + [p], pid) ==
      if FindProject(ps, pid).Some? then FindProject(ps, pid)
      else if p.id == pid then Some(p) else None
  {
    if ps != [] {
      assert (ps + [p])[1..] == ps[1..] + [p];
      if ps[0].id != pid {
        FindProjectAppend(ps[1..], p, pid);
      }
    }
  }

  /** Appending a project changes no existing summary: `find` keeps returning the
      first project with a given id, and the stages, materials and labor are the same. */
  lemma AddProjectEffect(db: Db, p: Project, pid: string)
    requires pid != p.id || FindProject(db.projects, pid).Some?
    ensures CalculateFinancials(db.(projects := db.projects + [p]), pid) == CalculateFinancials(db, pid)
  {
    FindProjectAppend(db.projects, p, pid);
  }

  lemma StageIdsAppend(ss: seq<Stage>, s: Stage)
    ensures StageIds(ss + [s]) == StageIds(ss) + [s.id]
  {
  }

  lemma {:induction false} MaterialsOfStagesUnusedId(ms: seq<Material>, ids: seq<string>, x: string)
    requires forall m :: m in ms ==> m.stageId != x
    ensures MaterialsOfStages(ms, ids + [x]) == MaterialsOfStages(ms, ids)
  {
    if ms != [] {
      assert ms[|ms| - 1] in ms;
      MaterialsOfStagesUnusedId(ms[..|ms| - 1], ids, x);
    }
  }

  lemma {:induction false} LaborOfStagesUnusedId(ls: seq<Labor>, ids: seq<string>, x: string)
    requires forall l :: l in ls ==> l.stageId != x
    ensures LaborOfStages(ls, ids + [x]) == LaborOfStages(ls, ids)
  {
    if ls != [] {
      assert ls[|ls| - 1] in ls;
      LaborOfStagesUnusedId(ls[..|ls| - 1], ids, x);
    }
  }

  lemma StagesOfProjectAppend(stages: seq<Stage>, s: Stage, pid: string)
    ensures StagesOfProject(stages + [s], pid) == StagesOfProject(stages, pid) + (if s.projectId == pid then [s] else [])
  {
    assert (stages + [s])[..|stages|] == stages;
  }

  /** Appending a stage that no material or labor entry refers to yet (a new
      stage has a fresh id) leaves every project's summary unchanged. */
  lemma AddStageEffect(db: Db, s: Stage, pid: string)
    requires forall m :: m in db.materials ==> m.stageId != s.id
    requires forall l :: l in db.labor ==> l.stageId != s.id
    ensures CalculateFinancials(db.(stages := db.stages + [s]), pid) == CalculateFinancials(db, pid)
  {
    var db' := db.(stages := db.stages + [s]);
    StagesOfProjectAppend(db.stages, s, pid);
    if s.projectId == pid {
      var ids := ProjectStageIds(db, pid);
      StageIdsAppend(StagesOfProject(db.stages, pid), s);
      assert ProjectStageIds(db', pid) == ids + [s.id];
      MaterialsOfStagesUnusedId(db.materials, ids, s.id);
      LaborOfStagesUnusedId(db.labor, ids, s.id);
    } else {
      assert StagesOfProject(db'.stages, pid) == StagesOfProject(db.stages, pid);
    }
  }

  // ---------------------------------------------------------------------------
  // The dictionary of summaries

  /** `allFinancials` holds exactly one entry for every project id, equal to
      that project's summary, and no entry for any other id. */
  lemma FinancialsRecordEntries(db: Db)
    ensures DistinctKeys(FinancialsRecord(db))
    ensures forall k :: k in Keys(FinancialsRecord(db)) <==> exists i :: 0 <= i < |db.projects| && db.projects[i].id == k
    ensures forall i :: 0 <= i < |db.projects| ==>
      Lookup(FinancialsRecord(db), db.projects[i].id) == Some(CalculateFinancials(db, db.projects[i].id))
  {
    var es := FinancialsEntries(db, db.projects);
    PutAllKeepsKeysDistinct([], es);
    forall k ensures k in Keys(FinancialsRecord(db)) <==> exists i :: 0 <= i < |db.projects| && db.projects[i].id == k {
      PutAllKeys(es, k);
      if k in Keys(es) {
        var i :| 0 <= i < |es| && Keys(es)[i] == k;
        assert db.projects[i].id == k;
      }
      if exists i :: 0 <= i < |db.projects| && db.projects[i].id == k {
        var i :| 0 <= i < |db.projects| && db.projects[i].id == k;
        assert Keys(es)[i] == k;
      }
    }
    forall i | 0 <= i < |db.projects|
      ensures Lookup(FinancialsRecord(db), db.projects[i].id) == Some(CalculateFinancials(db, db.projects[i].id))
    {
      PutAllLookup(es, i);
    }
  }

  /** The summaries of the projects `ps`, in order. */
  function Summaries(db: Db, ps: seq<Project>): (fs: seq<ProjectFinancials>)
    ensures |fs| == |ps|
    ensures forall i :: 0 <= i < |ps| ==> fs[i] == CalculateFinancials(db, ps[i].id)
  {
    seq(|ps|, i requires 0 <= i < |ps| => CalculateFinancials(db, ps[i].id))
  }

  /** With distinct project ids (ids are random UUIDs), the object lists one
      entry per project in project order, so `Object.values` is the list of the
      projects' summaries. */
  lemma FinancialsRecordInOrder(db: Db)
    requires DistinctProjectIds(db.projects)
    ensures Values(FinancialsRecord(db)) == Summaries(db, db.projects)
  {
    var es := FinancialsEntries(db, db.projects);
    PutAllFreshKeys(es);
  }
}
