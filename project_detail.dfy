/** The detail screen of one project (components/ProjectDetail.tsx): the
    records its three forms build, the actual cost and variance of each stage
    in the stage table, and the remaining balance in the summary bar.  The
    screen receives the filtered views of App.tsx (`DetailStages`,
    `DetailMaterials`, `DetailLabor`) and the project's entry of `allFinancials`. */
module ProjectDetail {
  import opened Types
  import opened Records
  import opened Financials
  import opened FinancialsProps

  // ---------------------------------------------------------------------------
  // Records built by the forms (ids and timestamps are inputs)

  /** `submitStage`: a new stage of the shown project, pending, owned by "Eu". */
  function SubmitStage(project: Project, id: string, name: string, estimatedCost: real, now: string): (s: Stage)
    ensures s.projectId == project.id && s.status == Pending
    ensures s.id == id && s.name == name && s.estimatedCost == estimatedCost
    ensures s.responsible == "Eu" && s.deadline == now
  {
    Stage(id, project.id, name, estimatedCost, Pending, "Eu", now)
  }

  /** `submitMaterial`: an empty unit field becomes "un". */
  function SubmitMaterial(id: string, stageId: string, name: string, unit: string,
                          quantity: real, cost: real, now: string): (m: Material)
    ensures m.unit == (if unit == "" then "un" else unit)
    ensures m.stageId == stageId && m.name == name && m.id == id
    ensures m.quantity == quantity && m.unitPrice == cost && MaterialCost(m) == quantity * cost
    ensures m.supplier == "Fornecedor Padrão" && m.purchaseDate == now
  {
    Material(id, stageId, name, if unit == "" then "un" else unit, quantity, cost, "Fornecedor Padrão", now)
  }

  /** `submitLabor`: the name field is the role, the cost field the hourly rate
      and the quantity field the hours worked. */
  function SubmitLabor(id: string, stageId: string, name: string, cost: real, quantity: real, now: string): (l: Labor)
    ensures l.role == name && l.hourlyRate == cost && l.hoursWorked == quantity && LaborCost(l) == cost * quantity
    ensures l.stageId == stageId && l.id == id
    ensures l.workerName == "Trabalhador" && l.date == now
  {
    Labor(id, stageId, name, "Trabalhador", cost, quantity, now)
  }

  // ---------------------------------------------------------------------------
  // The stage table

  /** `materials.filter(m => m.stageId === stage.id)` */
  function MaterialsOfStage(ms: seq<Material>, sid: string): (r: seq<Material>)
    ensures forall m :: m in r <==> m in ms && m.stageId == sid
  {
    if ms == [] then []
    else
      var last := ms[|ms| - 1];
      assert ms == ms[..|ms| - 1] + [last];
      MaterialsOfStage(ms[..|ms| - 1], sid) + (if last.stageId == sid then [last] else [])
  }

  /** `labor.filter(l => l.stageId === stage.id)` */
  function LaborOfStage(ls: seq<Labor>, sid: string): (r: seq<Labor>)
    ensures forall l :: l in r <==> l in ls && l.stageId == sid
  {
    if ls == [] then []
    else
      var last := ls[|ls| - 1];
      assert ls == ls[..|ls| - 1] + [last];
      LaborOfStage(ls[..|ls| - 1], sid) + (if last.stageId == sid then [last] else [])
  }

  /** `totalReal = stageMaterialsCost + stageLaborCost` */
  function TotalReal(stage: Stage, ms: seq<Material>, ls: seq<Labor>): real
  {
    SumMaterialCost(MaterialsOfStage(ms, stage.id)) + SumLaborCost(LaborOfStage(ls, stage.id))
  }

  /** `variance = totalReal - stage.estimatedCost` */
  function Variance(stage: Stage, ms: seq<Material>, ls: seq<Labor>): real
  {
    TotalReal(stage, ms, ls) - stage.estimatedCost
  }

  /** The variance cell is red and prefixed with "+". */
  predicate ShowsOverrun(stage: Stage, ms: seq<Material>, ls: seq<Labor>)
  {
    Variance(stage, ms, ls) > 0.0
  }

  /** The sum of `totalReal` over a list of stages. */
  function SumTotalReal(ss: seq<Stage>, ms: seq<Material>, ls: seq<Labor>): real
  {
    if ss == [] then 0.0 else SumTotalReal(ss[..|ss| - 1], ms, ls) + TotalReal(ss[|ss| - 1], ms, ls)
  }

  /** "Saldo Restante": `project.totalBudget - financials.totalCost` */
  function RemainingBalance(project: Project, f: ProjectFinancials): real
  {
    project.totalBudget - f.totalCost
  }

  // ---------------------------------------------------------------------------
  // Properties

  /** A stage is shown as over its estimate exactly when its actual cost exceeds
      the estimate, and the variance is that excess. */
  lemma OverrunIffOverEstimate(stage: Stage, ms: seq<Material>, ls: seq<Labor>)
    ensures ShowsOverrun(stage, ms, ls) <==> TotalReal(stage, ms, ls) > stage.estimatedCost
    ensures TotalReal(stage, ms, ls) == stage.estimatedCost + Variance(stage, ms, ls)
  {
  }

  lemma {:induction false} MaterialsOfStageAppend(ms: seq<Material>, m: Material, sid: string)
    ensures MaterialsOfStage(ms + [m], sid) == MaterialsOfStage(ms, sid) + (if m.stageId == sid then [m] else [])
  {
    assert (ms + [m])[..|ms|] == ms;
  }

  lemma {:induction false} LaborOfStageAppend(ls: seq<Labor>, l: Labor, sid: string)
    ensures LaborOfStage(ls + [l], sid) == LaborOfStage(ls, sid) + (if l.stageId == sid then [l] else [])
  {
    assert (ls + [l])[..|ls|] == ls;
  }

  /** A stage's actual cost counts only the entries with its id: appending a
      material raises it by the material's cost when the material is on the
      stage, and leaves it unchanged otherwise; the same for labor. */
  lemma TotalRealAppend(stage: Stage, ms: seq<Material>, ls: seq<Labor>, m: Material, l: Labor)
    ensures TotalReal(stage, ms + [m], ls) ==
      TotalReal(stage, ms, ls) + (if m.stageId == stage.id then MaterialCost(m) else 0.0)
    ensures TotalReal(stage, ms, ls + [l]) ==
      TotalReal(stage, ms, ls) + (if l.stageId == stage.id then LaborCost(l) else 0.0)
  {
    MaterialsOfStageAppend(ms, m, stage.id);
    LaborOfStageAppend(ls, l, stage.id);
    if m.stageId == stage.id {
      SumMaterialCostAppend(MaterialsOfStage(ms, stage.id), m);
    } else {
      assert MaterialsOfStage(ms + [m], stage.id) == MaterialsOfStage(ms, stage.id);
    }
    if l.stageId == stage.id {
      SumLaborCostAppend(LaborOfStage(ls, stage.id), l);
    } else {
      assert LaborOfStage(ls + [l], stage.id) == LaborOfStage(ls, stage.id);
    }
  }

  lemma {:induction false} MaterialsOfNoStages(ms: seq<Material>)
    ensures MaterialsOfStages(ms, []) == []
  {
    if ms != [] { MaterialsOfNoStages(ms[..|ms| - 1]); }
  }

  lemma {:induction false} LaborOfNoStages(ls: seq<Labor>)
    ensures LaborOfStages(ls, []) == []
  {
    if ls != [] { LaborOfNoStages(ls[..|ls| - 1]); }
  }

  /** Adding a stage id that is not yet in the list adds that stage's entries to
      the aggregated material cost. */
  lemma {:induction false} MaterialSumSplit(ms: seq<Material>, ids: seq<string>, x: string)
    requires x !in ids
    ensures SumMaterialCost(MaterialsOfStages(ms, ids + [x]))
         == SumMaterialCost(MaterialsOfStages(ms, ids)) + SumMaterialCost(MaterialsOfStage(ms, x))
  {
    if ms != [] {
      var init, m := ms[..|ms| - 1], ms[|ms| - 1];
      assert ms == init + [m];
      MaterialSumSplit(init, ids, x);
      MaterialsOfStagesAppend(init, m, ids + [x]);
      MaterialsOfStagesAppend(init, m, ids);
      MaterialsOfStageAppend(init, m, x);
      if m.stageId in ids {
        SumMaterialCostAppend(MaterialsOfStages(init, ids + [x]), m);
        SumMaterialCostAppend(MaterialsOfStages(init, ids), m);
        assert MaterialsOfStage(ms, x) == MaterialsOfStage(init, x);
      } else if m.stageId == x {
        SumMaterialCostAppend(MaterialsOfStages(init, ids + [x]), m);
        SumMaterialCostAppend(MaterialsOfStage(init, x), m);
        assert MaterialsOfStages(ms, ids) == MaterialsOfStages(init, ids);
      } else {
        assert MaterialsOfStages(ms, ids + [x]) == MaterialsOfStages(init, ids + [x]);
        assert MaterialsOfStages(ms, ids) == MaterialsOfStages(init, ids);
        assert MaterialsOfStage(ms, x) == MaterialsOfStage(init, x);
      }
    }
  }

  /** The same for labor. */
  lemma {:induction false} LaborSumSplit(ls: seq<Labor>, ids: seq<string>, x: string)
    requires x !in ids
    ensures SumLaborCost(LaborOfStages(ls, ids + [x]))
         == SumLaborCost(LaborOfStages(ls, ids)) + SumLaborCost(LaborOfStage(ls, x))
  {
    if ls != [] {
      var init, l := ls[..|ls| - 1], ls[|ls| - 1];
      assert ls == init + [l];
      LaborSumSplit(init, ids, x);
      LaborOfStagesAppend(init, l, ids + [x]);
      LaborOfStagesAppend(init, l, ids);
      LaborOfStageAppend(init, l, x);
      if l.stageId in ids {
        SumLaborCostAppend(LaborOfStages(init, ids + [x]), l);
        SumLaborCostAppend(LaborOfStages(init, ids), l);
        assert LaborOfStage(ls, x) == LaborOfStage(init, x);
      } else if l.stageId == x {
        SumLaborCostAppend(LaborOfStages(init, ids + [x]), l);
        SumLaborCostAppend(LaborOfStage(init, x), l);
        assert LaborOfStages(ls, ids) == LaborOfStages(init, ids);
      } else {
        assert LaborOfStages(ls, ids + [x]) == LaborOfStages(init, ids + [x]);
        assert LaborOfStages(ls, ids) == LaborOfStages(init, ids);
        assert LaborOfStage(ls, x) == LaborOfStage(init, x);
      }
    }
  }

  /** Over stages with distinct ids, the actual costs of the stages add up to
      the cost of all entries whose stage id is one of theirs. */
  lemma {:induction false} SumTotalRealIsFilteredSum(ss: seq<Stage>, ms: seq<Material>, ls: seq<Labor>)
    requires DistinctStageIds(ss)
    ensures SumTotalReal(ss, ms, ls)
         == SumMaterialCost(MaterialsOfStages(ms, StageIds(ss))) + SumLaborCost(LaborOfStages(ls, StageIds(ss)))
  {
    if ss == [] {
      MaterialsOfNoStages(ms);
      LaborOfNoStages(ls);
      assert StageIds(ss) == [];
    } else {
      var init, s := ss[..|ss| - 1], ss[|ss| - 1];
      assert ss == init + [s];
      assert DistinctStageIds(init);
      SumTotalRealIsFilteredSum(init, ms, ls);
      StageIdsAppend(init, s);
      assert s.id !in StageIds(init) by {
        forall i | 0 <= i < |init| ensures StageIds(init)[i] != s.id {
          assert init[i] == ss[i];
        }
      }
      MaterialSumSplit(ms, StageIds(init), s.id);
      LaborSumSplit(ls, StageIds(init), s.id);
    }
  }

  lemma {:induction false} MaterialsOfStagesIdempotent(ms: seq<Material>, ids: seq<string>)
    ensures MaterialsOfStages(MaterialsOfStages(ms, ids), ids) == MaterialsOfStages(ms, ids)
  {
    if ms != [] {
      var init, m := ms[..|ms| - 1], ms[|ms| - 1];
      assert ms == init + [m];
      MaterialsOfStagesIdempotent(init, ids);
      MaterialsOfStagesAppend(init, m, ids);
      if m.stageId in ids {
        assert MaterialsOfStages(ms, ids) == MaterialsOfStages(init, ids) + [m];
        MaterialsOfStagesAppend(MaterialsOfStages(init, ids), m, ids);
      } else {
        assert MaterialsOfStages(ms, ids) == MaterialsOfStages(init, ids);
      }
    }
  }

  lemma {:induction false} LaborOfStagesIdempotent(ls: seq<Labor>, ids: seq<string>)
    ensures LaborOfStages(LaborOfStages(ls, ids), ids) == LaborOfStages(ls, ids)
  {
    if ls != [] {
      var init, l := ls[..|ls| - 1], ls[|ls| - 1];
      assert ls == init + [l];
      LaborOfStagesIdempotent(init, ids);
      LaborOfStagesAppend(init, l, ids);
      if l.stageId in ids {
        assert LaborOfStages(ls, ids) == LaborOfStages(init, ids) + [l];
        LaborOfStagesAppend(LaborOfStages(init, ids), l, ids);
      } else {
        assert LaborOfStages(ls, ids) == LaborOfStages(init, ids);
      }
    }
  }

  /** The stage table adds up to the project total: when the project's stages
      have distinct ids, the sum of `totalReal` over the stages the screen shows,
      computed from the entries the screen receives, is the aggregator's
      `totalCost` for the project. */
  lemma StageTotalsSumToProjectCost(db: Db, pid: string)
    requires DistinctStageIds(DetailStages(db, pid))
    ensures SumTotalReal(DetailStages(db, pid), DetailMaterials(db, pid), DetailLabor(db, pid))
         == CalculateFinancials(db, pid).totalCost
  {
    var ids := ProjectStageIds(db, pid);
    TotalsOverDetailEntries(db, pid);
    SumTotalRealIsFilteredSum(DetailStages(db, pid), DetailMaterials(db, pid), DetailLabor(db, pid));
    MaterialsOfStagesIdempotent(db.materials, ids);
    LaborOfStagesIdempotent(db.labor, ids);
  }

  /** The screen shows the project found by `projects.find` with its entry of
      `allFinancials`; the remaining balance it displays is that entry's
      projected profit. */
  lemma RemainingBalanceIsProjectedProfit(db: Db, pid: string, project: Project)
    requires FindProject(db.projects, pid) == Some(project)
    ensures Lookup(FinancialsRecord(db), project.id) == Some(CalculateFinancials(db, project.id))
    ensures RemainingBalance(project, CalculateFinancials(db, project.id)) == CalculateFinancials(db, project.id).projectedProfit
  {
    var i :| 0 <= i < |db.projects| && db.projects[i] == project && project.id == pid
             && forall j :: 0 <= j < i ==> db.projects[j].id != pid;
    FinancialsRecordEntries(db);
  }

  /** A material entered on the form for one of the project's stages raises the
      project's material total and total cost by quantity * cost. */
  lemma SubmittedMaterialRaisesTotals(db: Db, pid: string, id: string, stageId: string, name: string,
                                      unit: string, quantity: real, cost: real, now: string)
    requires OnProjectStage(db.stages, stageId, pid)
    ensures var f, f' := CalculateFinancials(db, pid),
      CalculateFinancials(db.(materials := db.materials + [SubmitMaterial(id, stageId, name, unit, quantity, cost, now)]), pid);
      f'.totalMaterials == f.totalMaterials + quantity * cost && f'.totalCost == f.totalCost + quantity * cost
  {
    var m := SubmitMaterial(id, stageId, name, unit, quantity, cost, now);
    AddMaterialEffect(db, m, pid);
  }

  /** A labor entry entered on the form for one of the project's stages raises
      the project's labor total and total cost by cost * quantity. */
  lemma SubmittedLaborRaisesTotals(db: Db, pid: string, id: string, stageId: string, name: string,
                                   cost: real, quantity: real, now: string)
    requires OnProjectStage(db.stages, stageId, pid)
    ensures var f, f' := CalculateFinancials(db, pid),
      CalculateFinancials(db.(labor := db.labor + [SubmitLabor(id, stageId, name, cost, quantity, now)]), pid);
      f'.totalLabor == f.totalLabor + cost * quantity && f'.totalCost == f.totalCost + cost * quantity
  {
    var l := SubmitLabor(id, stageId, name, cost, quantity, now);
    AddLaborEffect(db, l, pid);
  }

  /** A stage entered on the form joins the shown project's stage list at the
      end; while no entry refers to its fresh id, the project's summary is unchanged. */
  lemma SubmittedStageJoinsProject(db: Db, project: Project, id: string, name: string, estimatedCost: real, now: string)
    ensures var s := SubmitStage(project, id, name, estimatedCost, now);
      DetailStages(db.(stages := db.stages + [s]), project.id) == DetailStages(db, project.id) + [s]
    ensures (forall m :: m in db.materials ==> m.stageId != id) && (forall l :: l in db.labor ==> l.stageId != id) ==>
      var s := SubmitStage(project, id, name, estimatedCost, now);
      CalculateFinancials(db.(stages := db.stages + [s]), project.id) == CalculateFinancials(db, project.id)
  {
    var s := SubmitStage(project, id, name, estimatedCost, now);
    StagesOfProjectAppend(db.stages, s, project.id);
    if (forall m :: m in db.materials ==> m.stageId != id) && (forall l :: l in db.labor ==> l.stageId != id) {
      AddStageEffect(db, s, project.id);
    }
  }
}
