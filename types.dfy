/** The records and enumerations of the construction dashboard (types.ts).
    Identifiers, names and dates are strings; every amount of money, quantity
    and rate is an exact `real` instead of an IEEE-754 double. */
module Types {

  datatype Option<T> = None | Some(value: T)

  /** Status of a project (types.ts ProjectStatus). */
  datatype ProjectStatus = Planning | ProjectInProgress | ProjectCompleted | Paused

  /** Status of a stage (types.ts StageStatus); any value may be set at any time. */
  datatype StageStatus = Pending | InProgress | Completed

  /** A purchase of material attributed to a stage; its cost is quantity * unitPrice. */
  datatype Material = Material(
    id: string,
    stageId: string,
    name: string,
    unit: string,
    quantity: real,
    unitPrice: real,
    supplier: string,
    purchaseDate: string)

  /** Hours of work attributed to a stage; its cost is hourlyRate * hoursWorked. */
  datatype Labor = Labor(
    id: string,
    stageId: string,
    role: string,
    workerName: string,
    hourlyRate: real,
    hoursWorked: real,
    date: string)

  /** A phase of construction work inside a project. */
  datatype Stage = Stage(
    id: string,
    projectId: string,
    name: string,
    estimatedCost: real,
    status: StageStatus,
    responsible: string,
    deadline: string)

  datatype Project = Project(
    id: string,
    name: string,
    address: string,
    responsible: string,
    startDate: string,
    expectedEndDate: string,
    totalBudget: real,
    profitMargin: real,
    status: ProjectStatus)

  /** The summary the aggregator returns for one project.  The declared
      `totalExpenses` field is never filled in by the aggregator, so it is
      not part of this record. */
  datatype ProjectFinancials = ProjectFinancials(
    totalMaterials: real,
    totalLabor: real,
    totalCost: real,
    projectedProfit: real,
    realMargin: real,
    budgetUtilization: real,
    isOverBudget: bool,
    isRisk: bool)

  function MaterialCost(m: Material): real
  {
    m.quantity * m.unitPrice
  }

  function LaborCost(l: Labor): real
  {
    l.hourlyRate * l.hoursWorked
  }
}
