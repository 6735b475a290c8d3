# Construction dashboard cost bookkeeping, in Dafny

This project models the cost bookkeeping of a construction-project dashboard,
a React single-page app. The app keeps four in-memory collections: projects,
work stages, materials and labor entries. From them it derives:

- a per-project financial summary (`calculateFinancials`);
- a dictionary of summaries keyed by project id (`allFinancials`);
- the views of the project detail screen: per-stage actual cost and variance,
  and the remaining balance;
- the portfolio dashboard: total budget, total spend, profit, an overall risk
  flag and the rows of the budget-versus-spend bar chart.

Modules:

- `Types` (`types.dfy`): the records of `types.ts` as datatypes. Money is `real`.
- `Records` (`records.dfy`): a JavaScript `Record<string, V>` as an
  insertion-ordered list of entries. Assigning to a present key replaces its
  value where it stands. A new key goes at the end.
- `Financials` (`financials.dfy`):
  - `calculateFinancials` as a pure function of one snapshot (`Db`) of the store;
  - the filtered views App.tsx hands to the detail screen;
  - `FinancialsRecord`, the dictionary `allFinancials` ends with.
- `FinancialsProps` (`financials_props.dfy`): what the aggregator guarantees:
  - the ratio and flag formulas;
  - the two filter styles select the same entries;
  - the effect of each add handler on a summary;
  - the keys, values and order of `allFinancials`.
- `AppStore` (`app_store.dfy`):
  - the component state of App.tsx as a class `Store` with four `seq` fields;
  - the handlers, which replace those fields;
  - the `forEach` loop of `allFinancials`, proved equal to `FinancialsRecord`;
  - the mock data the app starts with.
- `ProjectDetail` (`project_detail.dfy`): the detail screen of
  `components/ProjectDetail.tsx`:
  - the records its forms build;
  - the stage table;
  - the remaining balance.
- `Dashboard` (`dashboard.dfy`): the figures and bar rows of `components/Dashboard.tsx`.

Every `reduce` and `filter` is a left fold that peels the last element, as
JavaScript evaluates them. Ids, timestamps and parsed numbers are parameters:
`crypto.randomUUID()`, `new Date().toISOString()` and `parseFloat` are host
calls outside the model.

`types.ts` declares an `Expense` record (`types.ts:35-42`) and a
`totalExpenses` field of the summary (`types.ts:77`). App.tsx keeps no expense
collection, and the object `calculateFinancials` returns (App.tsx:60-69) never
sets that field. So in the model `totalCost` is materials plus labor, and the
summary has no `totalExpenses` field.

## Model

| member | source | states |
|---|---|---|
| Records.Keys | App.tsx:73-76 | the keys of a dictionary, one per entry, in entry order |
| Records.Values | components/Dashboard.tsx:20 | `Object.values`: one value per entry, in entry order |
| Records.Lookup | App.tsx:157 | reading a key gives a value exactly when the key is present |
| Records.LookupAt | App.tsx:157 | with no key repeated, reading an entry's key gives that entry's value |
| Records.Put | App.tsx:75 | assigning a present key keeps the key list unchanged; a new key is appended with its value at the end |
| Records.PutLookup | App.tsx:75 | after `r[k] = v`, `k` reads `v` and every other key reads as before |
| Records.PutKeepsKeysDistinct | App.tsx:75 | assignment never creates a second entry for a key |
| Records.PutAllKeepsKeysDistinct | App.tsx:74-76 | a run of assignments never repeats a key |
| Records.PutAllKeys | App.tsx:73-76 | starting from `{}`, the keys present are exactly the assigned keys |
| Records.PutAllLookup | App.tsx:73-76 | when all assignments to a key carry one value, the key reads that value afterwards |
| Records.PutAllFreshKeys | App.tsx:73-76 | assignments to distinct keys produce exactly those entries, in order |
| Financials.SumMaterialCostAppend | App.tsx:53 | one more material adds `quantity * unitPrice` to the material sum |
| Financials.SumLaborCostAppend | App.tsx:54 | one more labor entry adds `hourlyRate * hoursWorked` to the labor sum |
| Financials.StagesOfProject | App.tsx:47 | a stage is kept exactly when it is in the input and has the project's id |
| Financials.StageIds | App.tsx:48 | one id per stage, the i-th id being the i-th stage's |
| Financials.MaterialsOfStages | App.tsx:50 | a material is kept exactly when its stage id is in the list; the result is no longer than the input |
| Financials.LaborOfStages | App.tsx:51 | a labor entry is kept exactly when its stage id is in the list; the result is no longer than the input |
| Financials.FindProject | App.tsx:57 | None exactly when no project has the id; otherwise the first project with that id |
| Financials.CalculateFinancials | App.tsx:46-70 | total cost is materials plus labor; projected profit is the budget minus the cost; over budget exactly when the profit is negative |
| Financials.DetailMaterials | App.tsx:155 | a material is shown exactly when some stage of the project has its stage id |
| Financials.MaterialsOnProject | App.tsx:155 | the same membership fact over any stage list |
| Financials.DetailLabor | App.tsx:156 | a labor entry is shown exactly when some stage of the project has its stage id |
| Financials.LaborOnProject | App.tsx:156 | the same membership fact over any stage list |
| Financials.FinancialsEntries | App.tsx:74-76 | one assignment per project, in order, of that project's summary under its id |
| FinancialsProps.InProjectStageIds | App.tsx:47-48 | an id is among the project's stage ids exactly when some stage has that id and the project's id |
| FinancialsProps.MaterialFiltersAgree | App.tsx:50 | the detail filter and the aggregator's filter select the same materials, in the same order |
| FinancialsProps.LaborFiltersAgree | App.tsx:51 | the detail filter and the aggregator's filter select the same labor entries, in the same order |
| FinancialsProps.TotalsOverDetailEntries | App.tsx:50-54 | the summary's totals are the sums over the entries the detail screen shows |
| FinancialsProps.SummarizeRatiosAndFlags | App.tsx:55-68 | over budget iff cost > budget; at risk iff cost > 80% of budget; for a positive budget, margin and utilization are the stated ratios, add up to 100, and risk and overrun match utilization above 80 and 100; otherwise both are 0; with a budget of at least 0, over budget implies at risk |
| FinancialsProps.RatioArithmetic | App.tsx:65-68 | for a positive budget, margin plus utilization is 100, and cost above 80% of the budget matches utilization above 80, and cost above the budget matches utilization above 100 |
| FinancialsProps.RatiosAndFlags | App.tsx:57-68 | the same ratio and flag facts for a project's summary, against the budget `find` yields |
| FinancialsProps.UnknownProject | App.tsx:57-68 | an id no project has gets budget 0, both ratios 0, and is over budget and at risk exactly when its cost is positive |
| FinancialsProps.MaterialsOfStagesAppend | App.tsx:50 | one more material is kept at the end exactly when its stage id is listed |
| FinancialsProps.LaborOfStagesAppend | App.tsx:51 | one more labor entry is kept at the end exactly when its stage id is listed |
| FinancialsProps.AddMaterialEffect | App.tsx:84 | a material on one of the project's stages raises its material total and total cost by `quantity * unitPrice` and keeps labor; any other material leaves the summary unchanged |
| FinancialsProps.AddLaborEffect | App.tsx:85 | a labor entry on one of the project's stages raises its labor total and total cost by `hourlyRate * hoursWorked` and keeps materials; any other entry leaves the summary unchanged |
| FinancialsProps.FindProjectAppend | App.tsx:57 | after appending a project, `find` returns the earlier match if there was one, else the new project if its id matches |
| FinancialsProps.AddProjectEffect | App.tsx:82 | appending a project changes no summary of an id that already had a project or differs from the new one |
| FinancialsProps.StageIdsAppend | App.tsx:48 | the ids of one more stage are the old ids plus its id |
| FinancialsProps.MaterialsOfStagesUnusedId | App.tsx:50 | listing an id that no material refers to selects the same materials |
| FinancialsProps.LaborOfStagesUnusedId | App.tsx:51 | listing an id that no labor entry refers to selects the same entries |
| FinancialsProps.StagesOfProjectAppend | App.tsx:47 | one more stage joins the project's stage list at the end exactly when it has the project's id |
| FinancialsProps.AddStageEffect | App.tsx:83 | appending a stage that no entry refers to leaves every project's summary unchanged |
| FinancialsProps.FinancialsRecordEntries | App.tsx:72-78 | `allFinancials` repeats no key, has a key exactly for each project id, and maps each project's id to that project's summary |
| FinancialsProps.Summaries | App.tsx:74-76 | one summary per project, in project order |
| FinancialsProps.FinancialsRecordInOrder | App.tsx:72-78 | with distinct project ids, the values of `allFinancials` are the projects' summaries in project order |
| AppStore.WithStageStatus | App.tsx:87 | length and order kept; a stage with the id gets the new status and nothing else changes; every other stage is unchanged |
| AppStore.StatusUpdateKeepsProjectStageIds | App.tsx:87 | a status change keeps every project's stage id list |
| AppStore.StatusUpdateKeepsFinancials | App.tsx:86-88 | a status change leaves every project's summary unchanged |
| AppStore.StatusUpdateIdempotent | App.tsx:87 | setting the same status twice equals setting it once |
| AppStore.MockFirstProjectStageIds | App.tsx:11-31 | in the mock data, project "1" has stages s1 and s2 |
| AppStore.MockFirstProjectMaterials | App.tsx:11-31 | the mock materials of project "1" cost 39500 |
| AppStore.MockFirstProjectLabor | App.tsx:11-31 | the mock labor of project "1" costs 7200 |
| AppStore.MockFirstProject | App.tsx:11-31 | project "1" of the mock data: materials 39500, labor 7200, cost 46700, profit 203300, utilization 18.68, neither over budget nor at risk |
| AppStore.Store.constructor | App.tsx:39-42 | the store starts with the mock data |
| AppStore.Store.AddProject | App.tsx:82 | the project list gains the project at its end; the other collections are unchanged |
| AppStore.Store.AddStage | App.tsx:83 | the stage list gains the stage at its end; the other collections are unchanged |
| AppStore.Store.AddMaterial | App.tsx:84 | the material list gains the entry at its end; the other collections are unchanged |
| AppStore.Store.AddLabor | App.tsx:85 | the labor list gains the entry at its end; the other collections are unchanged |
| AppStore.Store.UpdateStageStatus | App.tsx:86-88 | the stages become the status-updated list, the other collections are unchanged, and no summary changes |
| AppStore.Store.AllFinancials | App.tsx:72-78 | the loop builds exactly `FinancialsRecord`: no repeated key, a key exactly for each project id, each mapped to its project's summary |
| ProjectDetail.SubmitStage | components/ProjectDetail.tsx:55-67 | the new stage belongs to the shown project, is pending, is owned by "Eu" and carries the entered name, estimate, id and date |
| ProjectDetail.SubmitMaterial | components/ProjectDetail.tsx:69-82 | the unit is "un" when the field is empty and the entered unit otherwise; quantity and price are the entered ones, so the cost is their product; supplier "Fornecedor Padrão" |
| ProjectDetail.SubmitLabor | components/ProjectDetail.tsx:84-96 | the name field is the role, the cost field the hourly rate and the quantity field the hours, so the cost is their product; worker "Trabalhador" |
| ProjectDetail.MaterialsOfStage | components/ProjectDetail.tsx:228 | a material is kept exactly when its stage id is the stage's id |
| ProjectDetail.LaborOfStage | components/ProjectDetail.tsx:229 | a labor entry is kept exactly when its stage id is the stage's id |
| ProjectDetail.OverrunIffOverEstimate | components/ProjectDetail.tsx:251-252 | the red "+" overrun marker appears exactly when the stage's actual cost exceeds its estimate; the actual cost is the estimate plus the variance |
| ProjectDetail.MaterialsOfStageAppend | components/ProjectDetail.tsx:228 | one more material is kept at the end exactly when it is on the stage |
| ProjectDetail.LaborOfStageAppend | components/ProjectDetail.tsx:229 | one more labor entry is kept at the end exactly when it is on the stage |
| ProjectDetail.TotalRealAppend | components/ProjectDetail.tsx:228-230 | an entry on the stage raises its actual cost by the entry's cost; an entry on another stage leaves it unchanged |
| ProjectDetail.MaterialsOfNoStages | App.tsx:50 | no listed stage ids select no materials |
| ProjectDetail.LaborOfNoStages | App.tsx:51 | no listed stage ids select no labor |
| ProjectDetail.MaterialSumSplit | components/ProjectDetail.tsx:228 | listing one more, new stage id adds that stage's material cost to the aggregated material cost |
| ProjectDetail.LaborSumSplit | components/ProjectDetail.tsx:229 | listing one more, new stage id adds that stage's labor cost to the aggregated labor cost |
| ProjectDetail.SumTotalRealIsFilteredSum | components/ProjectDetail.tsx:227-230 | over stages with distinct ids, the stages' actual costs add up to the cost of all entries on those stages |
| ProjectDetail.MaterialsOfStagesIdempotent | App.tsx:50 | filtering the filtered materials again by the same ids changes nothing |
| ProjectDetail.LaborOfStagesIdempotent | App.tsx:51 | filtering the filtered labor again by the same ids changes nothing |
| ProjectDetail.StageTotalsSumToProjectCost | components/ProjectDetail.tsx:227-231 | with distinct stage ids, the stage table's actual costs add up to the project's total cost |
| ProjectDetail.RemainingBalanceIsProjectedProfit | components/ProjectDetail.tsx:151 | the shown project has an entry in `allFinancials`, and its remaining balance is that entry's projected profit |
| ProjectDetail.SubmittedMaterialRaisesTotals | components/ProjectDetail.tsx:69-82 | a material entered for one of the project's stages raises its material total and total cost by quantity times cost |
| ProjectDetail.SubmittedLaborRaisesTotals | components/ProjectDetail.tsx:84-96 | a labor entry entered for one of the project's stages raises its labor total and total cost by cost times quantity |
| ProjectDetail.SubmittedStageJoinsProject | components/ProjectDetail.tsx:55-67 | a new stage joins the end of the project's stage list; while nothing refers to its id, the summary is unchanged |
| Dashboard.BarLabel | components/Dashboard.tsx:37 | the label is the first min(10, length) characters of the name followed by "..." |
| Dashboard.BarData | components/Dashboard.tsx:36-40 | one row per project in project order, carrying its label, its budget, and its summary's cost or 0 when it has no entry |
| Dashboard.SpendSplit | components/Dashboard.tsx:22-24 | when every summary splits its cost into materials and labor, the summed spend is summed materials plus summed labor |
| Dashboard.RecordValuesAreSummaries | App.tsx:72-78 | every value in `allFinancials` is the summary of the project stored under its key |
| Dashboard.PortfolioSpendSplit | components/Dashboard.tsx:22-24 | the dashboard's total spend is its total materials plus its total labor |
| Dashboard.BarSpendIsProjectCost | components/Dashboard.tsx:39 | each project's bar shows that project's total cost |
| Dashboard.BarBudgetSum | components/Dashboard.tsx:17 | rows carrying the projects' budgets add up to the total budget |
| Dashboard.BarSpendSum | components/Dashboard.tsx:22 | rows carrying the summaries' costs add up to the total spend |
| Dashboard.BarBudgetsAddUp | components/Dashboard.tsx:17 | the bars' budgets add up to the total budget card |
| Dashboard.BarSpendsAddUp | components/Dashboard.tsx:20-22 | with distinct project ids, the bars' spends add up to the total spend card |
| Dashboard.FindProjectDistinct | App.tsx:57 | with distinct ids, finding a project's id returns that project |
| Dashboard.DistinctIdsBudgetsMatch | App.tsx:57-58 | with distinct ids, every project is summarized against its own budget |
| Dashboard.ProfitSum | components/Dashboard.tsx:26 | when each summary's profit is its project's budget minus its cost, the summed profit is the total budget minus the total spend |
| Dashboard.NoRiskyProjectBound | components/Dashboard.tsx:27 | when no project's cost exceeds 80% of its budget, the total spend does not exceed 80% of the total budget |
| Dashboard.RiskThreshold | App.tsx:68 | a project is at risk exactly when its cost exceeds 80% of the budget it is summarized against |
| Dashboard.PortfolioProfit | components/Dashboard.tsx:26 | with distinct ids, the overall profit is the sum of the projects' projected profits |
| Dashboard.PortfolioRisk | components/Dashboard.tsx:27 | with distinct ids, the portfolio is at risk only when some project is |

## Left out

- Expenses: App.tsx keeps no collection of the `Expense` records that
  `types.ts:35-42` declares, so no expense enters any total.
- Deletion: App.tsx has no delete handler, so records are only ever added.
- Form validation: the forms only use the HTML attributes `required` and
  `type="number"`.
- The AI risk summary (`services/gemini.ts`) and its fallback in
  `components/ProjectDetail.tsx`: an outbound call to an external service.
- `components/Login.tsx`, `components/ProjectList.tsx`,
  `components/Subscription.tsx`, `components/Logo.tsx`: markup, a hardcoded
  credential check behind a timer, a static page and an image.
- Host calls become inputs or are left out. The record builders take ids, dates
  and numbers as parameters. These are not modelled:
  - `parseFloat`, `crypto.randomUUID()` and `new Date().toISOString()`;
  - `Intl.NumberFormat`, `window.print()` and chart rendering;
  - the pie chart's two data points.
- React state, `useMemo` caching, navigation and form-field state. The store
  is one object whose handlers run one at a time.
- IEEE-754 number behaviour is not modelled: amounts are exact reals, so
  there is no rounding and no NaN from an empty field.
- `Object.values` ordering is not modelled. JavaScript lists integer-like
  keys first; the model keeps insertion order. Only the order-insensitive
  sums of the dashboard consume that list.
- Dashboard.BarLabel: counts characters, not the UTF-16 code units that
  `substring` counts.
- Dashboard.BarSpendsAddUp, Dashboard.PortfolioProfit and Dashboard.PortfolioRisk: hold only
  under distinct project ids. With a repeated id, `allFinancials` keeps one
  entry for both projects. Ids come from `crypto.randomUUID()`.
- ProjectDetail.StageTotalsSumToProjectCost: holds only under distinct stage
  ids. The stage table shows one row per stage, and each row counts every
  entry with that stage id (components/ProjectDetail.tsx:227-229). Two stages
  sharing an id would count such an entry twice. The aggregator's
  `stageIds.includes` (App.tsx:50-51) counts it once.
