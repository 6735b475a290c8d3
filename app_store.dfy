/** The in-memory database of App.tsx: four collections held as component
    state, the handlers that replace them, and the `allFinancials` loop. */
module AppStore {
  import opened Types
  import opened Records
  import opened Financials
  import opened FinancialsProps

  /** `stages.map(s => s.id === id ? { ...s, status } : s)` */
  function WithStageStatus(stages: seq<Stage>, id: string, status: StageStatus): (r: seq<Stage>)
    ensures |r| == |stages|
    ensures forall i :: 0 <= i < |stages| ==>
      r[i] == if stages[i].id == id then stages[i].(status := status) else stages[i]
  {
    seq(|stages|, i requires 0 <= i < |stages| =>
      if stages[i].id == id then stages[i].(status := status) else stages[i])
  }

  lemma {:induction false} StatusUpdateKeepsProjectStageIds(stages: seq<Stage>, id: string, status: StageStatus, pid: string)
    ensures StageIds(StagesOfProject(WithStageStatus(stages, id, status), pid)) == StageIds(StagesOfProject(stages, pid))
  {
    if stages != [] {
      var n := |stages| - 1;
      var r := WithStageStatus(stages, id, status);
      assert r[..n] == WithStageStatus(stages[..n], id, status);
      StatusUpdateKeepsProjectStageIds(stages[..n], id, status, pid);
      var rest, rest' := StagesOfProject(stages[..n], pid), StagesOfProject(r[..n], pid);
      assert r[n].id == stages[n].id && r[n].projectId == stages[n].projectId;
      if stages[n].projectId == pid {
        assert StagesOfProject(r, pid) == rest' + [r[n]];
        assert StagesOfProject(stages, pid) == rest + [stages[n]];
        StageIdsAppend(rest', r[n]);
        StageIdsAppend(rest, stages[n]);
      } else {
        assert StagesOfProject(r, pid) == rest';
        assert StagesOfProject(stages, pid) == rest;
      }
    }
  }

  /** Changing the status of a stage changes no project's summary: the
      aggregator looks only at the stages' ids and project ids. */
  lemma StatusUpdateKeepsFinancials(db: Db, id: string, status: StageStatus, pid: string)
    ensures CalculateFinancials(db.(stages := WithStageStatus(db.stages, id, status)), pid) == CalculateFinancials(db, pid)
  {
    StatusUpdateKeepsProjectStageIds(db.stages, id, status, pid);
  }

  /** Setting the same status twice is the same as setting it once. */
  lemma StatusUpdateIdempotent(stages: seq<Stage>, id: string, status: StageStatus)
    ensures WithStageStatus(WithStageStatus(stages, id, status), id, status) == WithStageStatus(stages, id, status)
  {
  }

  // ---------------------------------------------------------------------------
  // The initial contents (MOCK_PROJECTS, MOCK_STAGES, MOCK_MATERIALS, MOCK_LABOR)

  const MockProjects: seq<Project> := [
    Project("1", "Residencial Villa Verde", "Av. Paulista, 1000", "Eng. Carlos", "2023-10-01", "2024-05-01", 250000.0, 20.0, ProjectInProgress),
    Project("2", "Reforma Apto 402", "Rua Augusta, 500", "Arq. Ana", "2024-01-15", "2024-03-01", 45000.0, 15.0, Planning)
  ]

  const MockStages: seq<Stage> := [
    Stage("s1", "1", "Fundação", 50000.0, Completed, "Carlos", "2023-11-01"),
    Stage("s2", "1", "Alvenaria", 80000.0, InProgress, "Carlos", "2024-01-01"),
    Stage("s3", "2", "Demolição", 5000.0, Pending, "Ana", "2024-01-20")
  ]

  const MockMaterials: seq<Material> := [
    Material("m1", "s1", "Concreto Usinado", "m3", 50.0, 450.0, "Polimix", "2023-10-10"),
    Material("m2", "s1", "Aço CA-50", "kg", 1000.0, 8.0, "Gerdau", "2023-10-12"),
    Material("m3", "s2", "Tijolo Cerâmico", "milheiro", 10.0, 900.0, "Olaria", "2023-12-05")
  ]

  const MockLabor: seq<Labor> := [
    Labor("l1", "s1", "Pedreiro", "João", 30.0, 160.0, "2023-10-30"),
    Labor("l2", "s1", "Servente", "Pedro", 15.0, 160.0, "2023-10-30")
  ]

  const MockDb: Db := Db(MockProjects, MockStages, MockMaterials, MockLabor)

  lemma MockFirstProjectStageIds()
    ensures ProjectStageIds(MockDb, "1") == ["s1", "s2"]
  {
    assert MockStages[..2][..1] == MockStages[..1];
    assert MockStages[..1][..0] == [];
    assert StagesOfProject(MockStages[..1], "1") == MockStages[..1];
    assert StagesOfProject(MockStages[..2], "1") == MockStages[..1] + [MockStages[1]];
    assert StagesOfProject(MockStages, "1") == MockStages[..2];
  }

  lemma MockFirstProjectMaterials()
    ensures SumMaterialCost(MaterialsOfStages(MockMaterials, ["s1", "s2"])) == 39500.0
  {
    var ids := ["s1", "s2"];
    assert MockMaterials[..2][..1] == MockMaterials[..1];
    assert MockMaterials[..1][..0] == [];
    assert MaterialsOfStages(MockMaterials, ids) == MockMaterials;
    assert SumMaterialCost(MockMaterials[..1]) == 22500.0;
    assert SumMaterialCost(MockMaterials[..2]) == 30500.0;
  }

  lemma MockFirstProjectLabor()
    ensures SumLaborCost(LaborOfStages(MockLabor, ["s1", "s2"])) == 7200.0
  {
    assert MockLabor[..1] == [MockLabor[0]];
    assert LaborOfStages(MockLabor, ["s1", "s2"]) == MockLabor;
  }

  /** The worked example of the mock data: the first project's materials cost
      22500 + 8000 + 9000, its labor 4800 + 2400, and it uses 18.68% of its
      budget of 250000. */
  lemma MockFirstProject()
    ensures var f := CalculateFinancials(MockDb, "1");
      && f.totalMaterials == 39500.0 && f.totalLabor == 7200.0 && f.totalCost == 46700.0
      && f.projectedProfit == 203300.0 && f.budgetUtilization == 18.68
      && !f.isOverBudget && !f.isRisk
  {
    MockFirstProjectStageIds();
    MockFirstProjectMaterials();
    MockFirstProjectLabor();
    assert ProjectBudget(MockProjects, "1") == 250000.0;
  }

  // ---------------------------------------------------------------------------
  // The store

  class Store {
    var projects: seq<Project>
    var stages: seq<Stage>
    var materials: seq<Material>
    var labor: seq<Labor>

    /** The four collections as one value. */
    function Snapshot(): Db
      reads this
    {
      Db(projects, stages, materials, labor)
    }

    /** The state starts out holding the mock data. */
    constructor ()
      ensures Snapshot() == MockDb
    {
      projects, stages, materials, labor := MockProjects, MockStages, MockMaterials, MockLabor;
    }

    /** `handleAddProject` */
    method AddProject(p: Project)
      modifies this
      ensures projects == old(projects) + [p]
      ensures stages == old(stages) && materials == old(materials) && labor == old(labor)
    {
      projects := projects + [p];
    }

    /** `handleAddStage` */
    method AddStage(s: Stage)
      modifies this
      ensures stages == old(stages) + [s]
      ensures projects == old(projects) && materials == old(materials) && labor == old(labor)
    {
      stages := stages + [s];
    }

    /** `handleAddMaterial` */
    method AddMaterial(m: Material)
      modifies this
      ensures materials == old(materials) + [m]
      ensures projects == old(projects) && stages == old(stages) && labor == old(labor)
    {
      materials := materials + [m];
    }

    /** `handleAddLabor` */
    method AddLabor(l: Labor)
      modifies this
      ensures labor == old(labor) + [l]
      ensures projects == old(projects) && stages == old(stages) && materials == old(materials)
    {
      labor := labor + [l];
    }

    /** `handleUpdateStageStatus` */
    method UpdateStageStatus(id: string, status: StageStatus)
      modifies this
      ensures stages == WithStageStatus(old(stages), id, status)
      ensures projects == old(projects) && materials == old(materials) && labor == old(labor)
      ensures forall pid :: CalculateFinancials(Snapshot(), pid) == CalculateFinancials(old(Snapshot()), pid)
    {
      ghost var before := Snapshot();
      stages := WithStageStatus(stages, id, status);
      forall pid ensures CalculateFinancials(Snapshot(), pid) == CalculateFinancials(before, pid) {
        StatusUpdateKeepsFinancials(before, id, status, pid);
      }
    }

    /** `allFinancials`: the `forEach` that assigns `acc[p.id] = calculateFinancials(p.id)`
        for every project in turn. */
    method AllFinancials() returns (acc: Record<ProjectFinancials>)
      ensures acc == FinancialsRecord(Snapshot())
      ensures DistinctKeys(acc)
      ensures forall k :: k in Keys(acc) <==> exists i :: 0 <= i < |projects| && projects[i].id == k
      ensures forall i :: 0 <= i < |projects| ==> Lookup(acc, projects[i].id) == Some(CalculateFinancials(Snapshot(), projects[i].id))
    {
      acc := [];
      var i := 0;
      while i < |projects|
        invariant 0 <= i <= |projects|
        invariant acc == PutAll([], FinancialsEntries(Snapshot(), projects[..i]))
      {
        var p := projects[i];
        ghost var es := FinancialsEntries(Snapshot(), projects[..i + 1]);
        assert es[..i] == FinancialsEntries(Snapshot(), projects[..i]);
        acc := Put(acc, p.id, CalculateFinancials(Snapshot(), p.id));
        i := i + 1;
      }
      assert projects[..i] == projects;
      FinancialsRecordEntries(Snapshot());
    }
  }
}
