# Defect cost calculator — a verified Dafny model

This project models the core of a small web application that puts a price on software
defects. A defect is described by a list of role-hours lines (a role, a number of hours and
the hourly rate captured for that role), an impact class and the lifecycle phase in which it
was found. The cost engine turns that into:

- a technical cost (the sum of hours times rate) and an equal paid cost;
- an impact-adjusted cost;
- a projected cost for each of the four phases (development, test, staging, production);
- a map of savings, keyed by the phases earlier than the one where the defect was found;
- a single potential-saving figure.

Around the engine sit four pieces of bookkeeping, and the model covers each of them:

- The hourly-rate resolver and the default configuration: work settings, twelve job roles, and
  the phase and impact multipliers.
- The simulator page: its role-hours list (add, increment, set, remove), its hours text field,
  the validation step before a simulation, and the save that appends the defect.
- The dashboard: the three filters with their `todos` wildcard, the module options, the
  selection list, and the totals overall and per phase.
- The configuration page: field edits on a local copy, the salary-precedence recomputation of
  hourly rates on edit and on save, the restore of the defaults, and the fallbacks of the
  numeric inputs.

## Layout

| file | module | contents |
|---|---|---|
| `types.dfy` | `DefectTypes` | records and enumerations; `PerPhase` is the four-phase record shared by the multipliers and the projections |
| `folds.dfy` | `Folds` | order-preserving `Filter` and the left-fold `Sum`, the `filter` and `reduce` idioms the code uses, with their lemmas |
| `default_data.dfy` | `DefaultData` | `CostPerHour` and the default configuration |
| `defect_calculations.dfy` | `DefectCalculations` | `CalculateDefectCosts` and the helpers it is built from |
| `simulator.dfy` | `Simulator` | the role-hours list, the hours field, the simulation gate and the `SimulatorPage` class |
| `dashboard.dfy` | `Dashboard` | filtering, module options, selection, totals and the `DashboardPage` class |
| `configuration.dfy` | `Configuration` | the configuration edits, recomputation, input fallbacks and the `ConfigurationPage` class |

Money, multipliers and hours are `real`. An optional field, or a number parse that failed
(`NaN`), is `Option`'s `None`. JavaScript truthiness of an optional number is `Truthy`:
present and not 0. Each page component is a class. Its fields are the component's state,
and each handler is a method whose `ensures` gives the new state as a pure function of the
old one. The properties are proved about those pure functions.

### Where the documentation and the code disagree

The system's documentation describes a later variant of the cost function. In that variant
every defect is taken as found in production, the default phase is production, and the phase
costs are derived backward from the production figure. The code in
`src/lib/defectCalculations.ts` does none of this, and the model follows the code:

- every phase's projection is the base cost times that phase's multiplier;
- a missing phase defaults to development;
- only the simulator forces production, as a choice made by the caller.

The documentation also asks for the rates to be recomputed whenever work settings change. In
the code, editing a work setting recomputes nothing. Rates are recomputed only by a salary edit
and by saving, and the model does the same.

Two behaviours of the code, modelled as written:

- A saving is the technical cost minus the earlier phase's projection, without a floor. When
  the technical cost is non-negative, the phase multipliers never decrease from development to
  production, and the development multiplier is at least 1, every saving is zero or negative
  (`SavingsNeverPositive`). The configuration page accepts multipliers that break the middle
  condition (a test multiplier of 0.5 under a development multiplier of 1), and then a saving
  can be positive.
- The dashboard's "all selected" checkbox compares only lengths. It can show checked for a
  selection that repeats one id and misses another (`AllSelectedCountsOnly`). Through the
  page, the usual way to get there is a filter change: the selection is kept, so it can have
  the right length but name defects that are no longer shown (`StaleSelectionLooksComplete`).

## Model

| member | source | states |
|---|---|---|
| `DefectTypes.PerPhase.With` | src/pages/Configuration.tsx:69-77 | the object spread: the named phase takes the value, every other phase keeps its own |
| `DefectTypes.PerPhase.Plus` | src/pages/Dashboard.tsx:98-103 | field-wise sum of two phase records |
| `Folds.Filter` | src/pages/Dashboard.tsx:62-67 | `Array.prototype.filter`: an element is kept exactly when it is in the input and passes; every kept element passes; never longer than the input |
| `Folds.FilterMultiset` | src/pages/Dashboard.tsx:88 | `filter` keeps every occurrence of a passing element and no occurrence of a failing one |
| `Folds.Sum` | src/lib/defectCalculations.ts:19-21 | `reduce((acc, x) => acc + f(x), 0)`: 0 for no elements, the element's value for one |
| `Folds.SumAppend` | src/lib/defectCalculations.ts:19-21 | the fold over a concatenation is the sum of the folds over the parts |
| `DefectTypes.EarlierThanProduction` | src/lib/defectCalculations.ts:54-58 | the phases before production are exactly development, test and staging |
| `DefectTypes.KeysDistinct` | src/pages/Dashboard.tsx:63-64 | different phases store different keys, and so do different severities, so a phase or severity filter names one value |
| `DefaultData.CostPerHour` | src/lib/defaultData.ts:148-150 | the rate times the month's hours gives back the salary; defined only for a non-zero hours product |
| `DefaultData.CostPerHourUnique` | src/lib/defaultData.ts:148-150 | the rate is the only number whose product with the month's hours is the salary |
| `DefaultData.CostPerHourNonNegative` | src/lib/defaultData.ts:148-150 | a non-negative salary over positive work settings gives a non-negative rate |
| `DefaultData.CostPerHourLinear` | src/lib/defaultData.ts:148-150 | the rate is linear in the salary |
| `DefaultData.CostPerHourMonotone` | src/lib/defaultData.ts:148-150 | with positive work settings a higher salary never gives a lower rate |
| `DefaultData.DefaultWorkSettingsValues` | src/lib/defaultData.ts:4-7 | default work settings are 8 hours a day and 22 days a month, 176 hours a month |
| `DefaultData.DefaultPhaseMultipliersIncreasing` | src/lib/defaultData.ts:134-139 | default phase multipliers are positive and strictly increasing from development to production |
| `DefaultData.DefaultImpactMultipliersValues` | src/lib/defaultData.ts:140-145 | no impact has multiplier 0; every other impact class has a positive one |
| `DefaultData.DefaultRolesWellFormed` | src/lib/defaultData.ts:8-133 | twelve roles, each with minimum ≤ market average ≤ maximum, no salary override, and distinct ids |
| `DefaultData.DefaultRatesRounded` | src/lib/defaultData.ts:8-133 | every stored default rate is within half a cent of the market average over 8 × 22 hours |
| `DefectCalculations.TechnicalCost` | src/lib/defectCalculations.ts:19-21 | `custoBase`, the sum of hours × rate over the lines; 0 for an empty list |
| `DefectCalculations.TechnicalCostNonNegative` | src/lib/defectCalculations.ts:19-21 | non-negative hours at non-negative rates give a non-negative technical cost |
| `DefectCalculations.TechnicalCostAppend` | src/lib/defectCalculations.ts:19-21 | appending a line adds exactly its hours × rate |
| `DefectCalculations.Savings` | src/lib/defectCalculations.ts:47-58 | keys are exactly the phases earlier than the found phase; each value is technical cost minus that phase's projection, not clamped |
| `DefectCalculations.PhaseCosts` | src/lib/defectCalculations.ts:36-42 | each phase's projection is the base cost times that phase's multiplier |
| `DefectCalculations.ImpactCost` | src/lib/defectCalculations.ts:29-45 | 0 without impact whatever its multiplier; otherwise technical cost × the impact's multiplier |
| `DefectCalculations.PotentialSaving` | src/lib/defectCalculations.ts:60-62 | never negative, at least the found-phase projection less the development one, equal to one of the two, and 0 for a defect found in development |
| `DefectCalculations.CalculateDefectCosts` | src/lib/defectCalculations.ts:3-79 | missing fields take the defaults (`""`, 0, medium, no impact, development, `""`, no lines) and supplied ones are copied; paid cost equals technical cost; projections, impact cost, savings and potential saving are derived from the technical cost as above |
| `DefectCalculations.AtLeastDevelopment` | src/lib/defectCalculations.ts:61-62 | under non-decreasing multipliers no phase's multiplier is below development's |
| `DefectCalculations.PhaseCostsMonotone` | src/lib/defectCalculations.ts:37-42 | a non-negative cost and non-decreasing multipliers give non-decreasing projections |
| `DefectCalculations.PotentialSavingClosedForm` | src/lib/defectCalculations.ts:60-62 | under the same conditions the floor never applies: potential saving = cost × (found-phase multiplier − development multiplier) |
| `DefectCalculations.SavingsNeverPositive` | src/lib/defectCalculations.ts:47-58 | with a non-negative cost, non-decreasing multipliers and a development multiplier ≥ 1, every recorded saving is ≤ 0 |
| `DefectCalculations.CalculatedTechnicalCostNonNegative` | src/lib/defectCalculations.ts:19-24 | a calculated defect with non-negative lines has a non-negative technical cost |
| `DefectCalculations.CalculatedPhaseCostsMonotone` | src/lib/defectCalculations.ts:37-42 | a calculated defect's projections never fall from development to production, given non-negative lines and non-decreasing multipliers |
| `DefectCalculations.CalculatedPotentialSaving` | src/lib/defectCalculations.ts:60-62 | under the same conditions a calculated defect's potential saving is its found-phase projection less its development projection |
| `DefectCalculations.ImpactCostIgnoresNoImpactMultiplier` | src/lib/defectCalculations.ts:45 | the impact cost does not depend on the no-impact multiplier |
| `DefectCalculations.ProductionExample` | src/lib/defectCalculations.ts:3-79 | 20 h at 48.30 found in production with the default multipliers: 966 technical, 1159.2 impact, projections 966/4830/9660/28980, savings 0/−3864/−8694, potential 28014 |
| `Simulator.FindRole` | src/pages/Simulator.tsx:46-47 | `find`: absent exactly when no role has the id; otherwise the first role with the id |
| `Simulator.RateFor` | src/pages/Simulator.tsx:60-62 | a new line's rate: a truthy actual salary over the month's hours, otherwise the role's stored rate; the month's hours must be non-zero only in the first case |
| `Simulator.NewEntry` | src/pages/Simulator.tsx:55-63 | a new line carries the role's id, name and level, 1 hour and the captured rate |
| `Simulator.HasRole` | src/pages/Simulator.tsx:49-50 | the `find` over the lines succeeds exactly when some line carries the role's id |
| `Simulator.UpdateRole` | src/pages/Simulator.tsx:73-77 | same length; lines with the id take the hours, all other lines are unchanged |
| `Simulator.IncrementRole` | src/pages/Simulator.tsx:51-53 | same length; lines with the id get one more hour, all other lines are unchanged |
| `Simulator.AddRole` | src/pages/Simulator.tsx:45-65 | unknown role: list unchanged; listed role: its hours +1, all else unchanged; new role: exactly one line appended after the old list |
| `Simulator.RemoveRole` | src/pages/Simulator.tsx:68-70 | a line survives exactly when its id differs; no line with the id remains |
| `Simulator.RemoveRoleKeepsOrder` | src/pages/Simulator.tsx:68-70 | removal distributes over concatenation, so the survivors keep their order |
| `Simulator.RemoveAbsentRole` | src/pages/Simulator.tsx:68-70 | removing a role that is not listed leaves the list unchanged |
| `Simulator.AddRoleKeepsDistinct` | src/pages/Simulator.tsx:45-65 | adding keeps role ids pairwise distinct |
| `Simulator.UpdateRoleKeepsDistinct` | src/pages/Simulator.tsx:73-77 | setting hours keeps role ids pairwise distinct |
| `Simulator.RemoveRoleKeepsDistinct` | src/pages/Simulator.tsx:68-70 | removing keeps role ids pairwise distinct |
| `Simulator.UpdateRoleIsPointUpdate` | src/pages/Simulator.tsx:73-77 | on a distinct list, setting the hours of one listed role replaces exactly that line |
| `Simulator.UpdateRoleCost` | src/pages/Simulator.tsx:73-77 | setting a listed role's hours replaces that line's cost in the technical cost and nothing else |
| `Simulator.EntryCostOneMore` | src/pages/Simulator.tsx:52 | one more hour on a line adds exactly its rate to its cost |
| `Simulator.AddListedRoleIsUpdate` | src/pages/Simulator.tsx:49-53 | adding a listed known role is incrementing its hours |
| `Simulator.AddListedRoleCost` | src/pages/Simulator.tsx:49-53 | adding a listed role raises the technical cost by exactly that line's rate |
| `Simulator.IncrementRoleCost` | src/pages/Simulator.tsx:51-53 | one more hour on a listed role raises the technical cost by exactly that line's rate |
| `Simulator.IncrementIsUpdate` | src/pages/Simulator.tsx:51-53 | on a distinct list, incrementing is setting the hours to one more |
| `Simulator.AddNewRoleCost` | src/pages/Simulator.tsx:54-63 | adding a new known role raises the technical cost by exactly its captured rate |
| `Simulator.RemoveRoleIsPointRemoval` | src/pages/Simulator.tsx:68-70 | on a distinct list, removing a listed role removes exactly its line |
| `Simulator.RemoveRoleCost` | src/pages/Simulator.tsx:68-70 | removing a listed role lowers the technical cost by exactly that line's cost |
| `Simulator.IsDigits` | src/pages/Simulator.tsx:316 | `/^\d+$/`: a non-empty text of ASCII digits only |
| `Simulator.DigitsValue` | src/pages/Simulator.tsx:317 | `parseInt` of a digit string; it is 0 exactly when every digit is 0 |
| `Simulator.DigitsValueLeadingDigit` | src/pages/Simulator.tsx:317 | `parseInt` is positional, most significant digit first: a leading digit d before k more digits adds d × 10^k |
| `Simulator.AcceptHoursInputExamples` | src/pages/Simulator.tsx:314-318 | typing "12" stores 12 hours, "007" stores 7, and "1a" is ignored |
| `Simulator.HoursText` | src/pages/Simulator.tsx:313 | the field shows nothing exactly for 0 hours, and a digit string otherwise |
| `Simulator.DecimalText` | src/pages/Simulator.tsx:313 | the shown text of a number of hours is a digit string |
| `Simulator.AcceptHoursInput` | src/pages/Simulator.tsx:314-318 | the field accepts exactly the empty text (stored as 0) and digit strings; what it stores is a non-negative whole number |
| `Simulator.DigitsValueOfDecimalText` | src/pages/Simulator.tsx:313-317 | parsing the decimal text of n gives n |
| `Simulator.HoursTextRoundTrip` | src/pages/Simulator.tsx:313-317 | typing back what the field shows for n hours stores n hours, 0 included |
| `Simulator.AddRoleKeepsWholeHours` | src/pages/Simulator.tsx:45-65 | adding keeps every line at a non-negative whole number of hours |
| `Simulator.AcceptedInputKeepsWholeHours` | src/pages/Simulator.tsx:314-318 | an accepted text keeps every line at a non-negative whole number of hours |
| `Simulator.RemoveRoleKeepsWholeHours` | src/pages/Simulator.tsx:68-70 | removing keeps every line at a non-negative whole number of hours |
| `Simulator.SimulationInput` | src/pages/Simulator.tsx:80-108 | an input exists exactly when the title is non-empty, an impact is chosen and a line exists; it is in production, its severity defaults to medium, and the form values and lines are passed as is |
| `Simulator.SimulationIsInProduction` | src/pages/Simulator.tsx:100-114 | a simulated defect is in production with savings for all three earlier phases; with non-negative lines and non-decreasing multipliers its projections rise and its potential saving is production less development |
| `Simulator.SimulatorPage.constructor` | src/pages/Simulator.tsx:31-42 | empty form, no lines and no result, with the stored defects |
| `Simulator.SimulatorPage.AddRoleHours` | src/pages/Simulator.tsx:45-65 | the list becomes `AddRole` of the old list; ids stay distinct and hours stay whole; a non-zero month of hours is needed only when a new line captures an actual salary |
| `Simulator.SimulatorPage.RemoveRoleHours` | src/pages/Simulator.tsx:68-70 | the list becomes `RemoveRole` of the old list; ids stay distinct and hours stay whole |
| `Simulator.SimulatorPage.UpdateRoleHours` | src/pages/Simulator.tsx:73-77 | the list becomes `UpdateRole` of the old list; ids stay distinct |
| `Simulator.SimulatorPage.OnHoursInput` | src/pages/Simulator.tsx:314-318 | an accepted text sets the hours and any other text changes nothing; hours stay whole |
| `Simulator.SimulatorPage.SimulateDefect` | src/pages/Simulator.tsx:80-117 | a rejected form keeps the old result; otherwise the result is the calculator's output on the assembled input |
| `Simulator.SimulatorPage.SaveDefect` | src/pages/Simulator.tsx:120-149 | without a result nothing changes; otherwise exactly one defect is appended after the existing ones and the form, lines and result are cleared |
| `Dashboard.FilterDefects` | src/pages/Dashboard.tsx:61-68 | a defect is shown exactly when it is listed and passes all three filters, each either `todos` or equal to the field |
| `Dashboard.Matches` | src/pages/Dashboard.tsx:63-66 | a defect passes exactly when each filter is `todos` or equals the defect's field: a passing defect has the field each non-wildcard filter names, and a defect whose fields equal the non-wildcard filters passes |
| `Dashboard.AllFiltersShowEverything` | src/pages/Dashboard.tsx:61-68 | with every filter on `todos` the whole list is shown |
| `Dashboard.FilterDefectsKeepsOrder` | src/pages/Dashboard.tsx:61-68 | filtering distributes over concatenation, so the shown defects keep the list order |
| `Dashboard.FilterDefectsIdempotent` | src/pages/Dashboard.tsx:61-68 | filtering the shown list again changes nothing |
| `Dashboard.Dedup` | src/pages/Dashboard.tsx:72 | `new Set`: the same values, each once |
| `Dashboard.FilterKeepsDistinct` | src/pages/Dashboard.tsx:72 | dropping the empty name keeps the options distinct |
| `Dashboard.UniqueModules` | src/pages/Dashboard.tsx:71-73 | each non-empty module of some defect appears exactly once, and nothing else appears |
| `Dashboard.SelectAll` | src/pages/Dashboard.tsx:76-82 | checking selects the shown defects' ids in order; unchecking clears the selection |
| `Dashboard.SelectDefect` | src/pages/Dashboard.tsx:84-90 | checking appends the id after the old selection, repeats allowed; unchecking drops every occurrence of the id and keeps every occurrence of every other id |
| `Dashboard.DeselectKeepsOrder` | src/pages/Dashboard.tsx:88 | unchecking works part by part on a concatenation, so the remaining ids keep their order |
| `Dashboard.IsAllSelected` | src/pages/Dashboard.tsx:92 | checked only when something is shown and the selection has as many ids as the shown list; checked whenever the selection holds exactly the shown ids |
| `Dashboard.SelectAllSelectsAll` | src/pages/Dashboard.tsx:76-92 | after selecting all, the checkbox is checked exactly when something is shown; after clearing, it is unchecked |
| `Dashboard.SelectThenDeselect` | src/pages/Dashboard.tsx:84-90 | checking then unchecking an id gives the same selection as unchecking it at once |
| `Dashboard.AllSelectedCountsOnly` | src/pages/Dashboard.tsx:92 | the checkbox is checked for a selection of the right length that misses a shown defect |
| `Dashboard.StaleSelectionLooksComplete` | src/pages/Dashboard.tsx:53-92 | selecting all development defects and then switching the phase filter to production leaves the checkbox checked while the shown defect is not selected |
| `Dashboard.TotalCustoPago` | src/pages/Dashboard.tsx:96 | the paid total of no defects is 0 |
| `Dashboard.TotalCustoComImpacto` | src/pages/Dashboard.tsx:97 | the impact total of no defects is 0 |
| `Dashboard.TotalEconomiaPotencial` | src/pages/Dashboard.tsx:105 | the potential-saving total of no defects is 0 |
| `Dashboard.TotalCustoPorFase` | src/pages/Dashboard.tsx:98-103 | the per-phase total of no defects is all zeros |
| `Dashboard.TotalCustoPorFaseIsSum` | src/pages/Dashboard.tsx:98-103 | each phase's total is the plain sum of that phase's projection over the defects |
| `Dashboard.TotalCustoPorFaseMonotone` | src/pages/Dashboard.tsx:98-103 | if every defect's projections rise phase by phase, so do the totals |
| `Dashboard.TotalEconomiaPotencialNonNegative` | src/pages/Dashboard.tsx:105 | non-negative potential savings give a non-negative total |
| `Dashboard.TotalCustoComImpactoNonNegative` | src/pages/Dashboard.tsx:97 | non-negative impact costs give a non-negative total |
| `Dashboard.TotalCustoPagoIsTechnical` | src/pages/Dashboard.tsx:96 | when each paid cost equals the technical cost, the paid total is the technical total |
| `Dashboard.FilteredTotalAtMostAll` | src/pages/Dashboard.tsx:61-96 | with non-negative paid costs, the shown paid total is at most the total over every defect |
| `Dashboard.DashboardPage.constructor` | src/pages/Dashboard.tsx:53-58 | every filter starts on `todos` and the selection is empty |
| `Dashboard.DashboardPage.FilteredDefects` | src/pages/Dashboard.tsx:61-68 | the shown list under the current filters |
| `Dashboard.DashboardPage.AllSelected` | src/pages/Dashboard.tsx:92 | the header checkbox: checked only when something is shown and the selection has as many ids as the shown list, and checked whenever the selection holds exactly the shown ids |
| `Dashboard.DashboardPage.SetAmbienteFilter` | src/pages/Dashboard.tsx:53 | the phase filter takes the chosen value; the selection stays as it was |
| `Dashboard.DashboardPage.SetSeveridadeFilter` | src/pages/Dashboard.tsx:54 | the severity filter takes the chosen value; the selection stays as it was |
| `Dashboard.DashboardPage.SetModuloFilter` | src/pages/Dashboard.tsx:55 | the module filter takes the chosen value; the selection stays as it was |
| `Dashboard.DashboardPage.HandleSelectAll` | src/pages/Dashboard.tsx:76-82 | the selection becomes `SelectAll` of the shown list |
| `Dashboard.DashboardPage.HandleSelectDefect` | src/pages/Dashboard.tsx:84-90 | the selection becomes `SelectDefect` of the old one |
| `Configuration.UpdateWorkSettings` | src/pages/Configuration.tsx:33-41 | the named work setting takes the value; the other setting, the roles and both multiplier tables are unchanged |
| `Configuration.SalaryToUse` | src/pages/Configuration.tsx:53-87 | a truthy actual salary wins; 0 or absent falls back to the market average |
| `Configuration.PrecedenceRate` | src/pages/Configuration.tsx:53-58 | the precedence-rule rate times the month's hours is the salary that rule picks |
| `Configuration.SetField` | src/pages/Configuration.tsx:49 | the spread `{ ...role, [field]: value }`: the edited salary takes the value and every other field, the rate included, keeps its own |
| `Configuration.ApplyEdit` | src/pages/Configuration.tsx:48-61 | only the edited field changes among the salaries and identity fields; a market-average or actual-salary edit makes the rate the precedence-rule rate; a band edit leaves the rate |
| `Configuration.UpdateJobRole` | src/pages/Configuration.tsx:44-66 | roles with the id get the edit, all other roles are untouched, length and order are kept, and the rest of the configuration is unchanged |
| `Configuration.UpdatePhaseMultiplier` | src/pages/Configuration.tsx:69-77 | the named phase's multiplier takes the value; every other multiplier and the rest of the configuration are unchanged |
| `Configuration.RecomputeRates` | src/pages/Configuration.tsx:80-92 | every role keeps all its fields except the rate, which becomes the precedence-rule rate under the current work settings |
| `Configuration.RecomputeConsistentIsIdentity` | src/pages/Configuration.tsx:80-92 | saving a configuration whose rates already follow the rule changes nothing |
| `Configuration.RecomputeRatesIdempotent` | src/pages/Configuration.tsx:80-95 | saving twice gives the same configuration as saving once |
| `Configuration.SavedRatesMatchSimulator` | src/pages/Configuration.tsx:84-91 | after saving, the rate a simulator line captures for a role is that role's precedence-rule rate |
| `Configuration.EditKeepsRatesConsistent` | src/pages/Configuration.tsx:52-59 | a salary edit that recomputes keeps a consistent configuration consistent |
| `Configuration.BandEditKeepsRatesConsistent` | src/pages/Configuration.tsx:49-52 | a band edit keeps a consistent configuration consistent |
| `Configuration.WholeOr` | src/pages/Configuration.tsx:166-181 | a failed parse or 0 gives the fallback, any other whole number is kept; a non-zero fallback means 0 is never stored |
| `Configuration.NumberOr` | src/pages/Configuration.tsx:291-336 | a failed parse or 0 gives the fallback, any other number is kept; a non-zero fallback means 0 is never stored |
| `Configuration.WorkFallback` | src/pages/Configuration.tsx:166-181 | the work-settings fallbacks are the default 8 hours and 22 days, both positive |
| `Configuration.PhaseFallback` | src/pages/Configuration.tsx:291-336 | each phase input's fallback is that phase's default multiplier, and it is positive |
| `Configuration.FallbacksAreDefaults` | src/pages/Configuration.tsx:166-336 | the input fallbacks are the defaults 8, 22 and 1, 5, 10, 30, none of them 0 |
| `Configuration.NegativeMultiplierAccepted` | src/pages/Configuration.tsx:291-306 | a negative multiplier is stored as typed |
| `Configuration.SalaryEdit` | src/pages/Configuration.tsx:223-251 | each band input edits its own field with the parse, or 0 when the parse fails or is 0; the actual-salary input stores a parsed number and is cleared by an empty text or a failed parse |
| `Configuration.ConfigurationPage.constructor` | src/pages/Configuration.tsx:27-30 | the local copy starts as the stored configuration |
| `Configuration.ConfigurationPage.SetWorkSetting` | src/pages/Configuration.tsx:33-41 | the local copy becomes `UpdateWorkSettings` of the old one |
| `Configuration.ConfigurationPage.OnWorkSettingInput` | src/pages/Configuration.tsx:166-181 | the parse or its fallback is stored; neither work setting becomes 0 |
| `Configuration.ConfigurationPage.EditJobRole` | src/pages/Configuration.tsx:44-66 | the local copy becomes `UpdateJobRole` of the old one |
| `Configuration.ConfigurationPage.OnSalaryInput` | src/pages/Configuration.tsx:223-251 | the local copy becomes `UpdateJobRole` with the edit the input produces |
| `Configuration.ConfigurationPage.SetPhaseMultiplier` | src/pages/Configuration.tsx:69-77 | the local copy becomes `UpdatePhaseMultiplier` of the old one |
| `Configuration.ConfigurationPage.OnPhaseMultiplierInput` | src/pages/Configuration.tsx:291-336 | the parse or its fallback is stored, and that multiplier is not 0 |
| `Configuration.ConfigurationPage.SaveConfiguration` | src/pages/Configuration.tsx:80-101 | the stored and the local configuration both become `RecomputeRates` of the local copy |
| `Configuration.ConfigurationPage.RestoreDefaults` | src/pages/Configuration.tsx:104-110 | the local copy becomes the default configuration; the stored one is kept |

## Left out

- `formatCurrency` and `formatPercentage`: thin wrappers over `Intl.NumberFormat`, which is not part of this model.
- IEEE-754 arithmetic: every number is an exact `real`. Rounding, overflow and `NaN` propagation are not modelled, except that a failed parse (`NaN`) is `None`.
- Persistence through `useLocalStorage`, toasts, navigation, and the clock-derived defect ids and timestamps: these are I/O. `SaveDefect` takes the id and the timestamp as parameters.
- The dashboard's sample-data bootstrap effect and `src/lib/sampleData.ts`: these are fixtures and a window reload.
- `monthlyTrend`: date parsing and locale formatting.
- JSX rendering, the charts, the details modal, `rolesByCategory` and the other display-only grouping. `src/components/` and `src/App.tsx` are not part of this model.
- The simulator form's field setters: the form is a `FormData` value. Its total-hours text is taken as already parsed; a failed parse is `None` there, where the code would pass `NaN` on.
- `updateJobRole` accepts any role field, but the page only edits the four salaries; `RoleEdit` has those four cases.
- A saved defect spreads the calculator's record together with the id and timestamp. Here `Defect` wraps the record, with the same content.
- `economias` is a JavaScript object with optional keys; here it is a `map<Phase, real>` whose key set is what is proved.
- `DefaultData.CostPerHour`: requires a non-zero product of hours per day and days per month. The code divides unguarded and would produce `Infinity` or `NaN`.
- `Simulator.RateFor`, `Simulator.NewEntry`, `Simulator.AddRole` and `Simulator.SimulatorPage.AddRoleHours`: require a non-zero month of hours, for the same division. They require it only when the new line's rate is a truthy actual salary over the month's hours, which is the one case in which the code divides.
- `Configuration.PrecedenceRate`, `Configuration.ApplyEdit`, `Configuration.UpdateJobRole` and `Configuration.RecomputeRates`: require a non-zero month of hours when they divide, for the same reason.
- `Configuration.ConfigurationPage.constructor`: requires a stored configuration whose work settings are not 0. The page's own inputs keep them non-zero afterwards.
- `Configuration.SalaryEdit`: an actual salary whose parse fails is stored as absent rather than as `NaN`. Both are falsy, so every rate computation and display treats them alike. The member requires that an empty text comes with no parse, because `parseInt` of an empty text is always `NaN`.
- `Folds.Sum`: its own contract states the empty and one-element cases only. `Folds.SumAppend` states how the fold splits.
- `Dashboard.TotalCustoPago`, `Dashboard.TotalCustoComImpacto`, `Dashboard.TotalEconomiaPotencial` and `Dashboard.TotalCustoPorFase`: their own contracts state only the empty case. Each is a `Folds.Sum` (or, for the phases, a field-wise fold), and the lemmas beside them state what the totals satisfy: non-negativity, the per-phase sum, monotonicity and the filtered bound.
- The dashboard does not reset the selection when a filter changes, and the model does not either. A selection can therefore name defects that are no longer shown (`StaleSelectionLooksComplete`).
