# Hospital visit dataset simulator — a Dafny model

`dataset-simulator.py` generates a synthetic dataset of hospital visits. Each
of `n` loop iterations draws one patient visit and turns it into a row:
- a patient id, the visit date, and the arrival and departure timestamps;
- the patient's age and sex, and the triage level;
- the department the patient is routed to;
- wait, consultation and lab-turnaround minutes, and the lab tests ordered;
- diagnosis and outcome, the total visit minutes, and a risk score drawn from
  a band chosen by the triage level.

This model keeps the rules that decide each field. It leaves out the
probabilities. Every random result a record depends on becomes an input of
the model, and a precondition puts that input in the set of values its call
can return (its support). Each helper is then a total function of its inputs and its draws.

The modules follow the script's structure:

- `RandomSource` (`random_source.dfy`) holds the supports of the library
  calls. `HalfOpen` is `range(lo, hi)` and `np.random.randint(lo, hi)`, with
  the upper end excluded. `Closed` is `random.randint(lo, hi)`, with both
  ends included. `Sample` is `random.sample`: the pool-based algorithm CPython
  uses for a pool this small, with the index draws as input.
  `SampleReachesEverySelection` proves that every ordered selection without
  repeats can be drawn.
- `Catalog` (`catalog.dfy`) turns each constant list (`SEX`, `DIAGNOSES`,
  `TRIAGE`, `DEPARTMENTS`, `LAB_TESTS`, `OUTCOMES`) into a datatype, a
  sequence in source order, and the string the script writes.
- `Helpers` (`helpers.dfy`) models `generate_age`, `rand_time`,
  `simulate_wait_time`, `simulate_consultation_time`, `simulate_lab_turnaround`
  with the sum over the selected tests, `route_patient`, and the risk-score
  table.
- `Simulation` (`simulation.dfy`) bundles one iteration's draws
  (`VisitDraws`) and defines the row (`VisitRecord`). `WellFormed` is the
  invariant every row satisfies. `Assemble` is the value-level definition of
  one iteration. `SimulateVisit` and `SimulateDataset` are the loop body and
  the loop.

Times are whole minutes counted from 2024-01-01 00:00. A visit date is the
number of days after 2024-01-01, and a timestamp is
`day * 1440 + minutes after midnight`. A risk score is a whole number of
thousandths, because the script rounds it to three decimals.

What is proved:
- Every assembled record is `WellFormed`.
- Conversely, every `WellFormed` record is produced by some fitting draws
  (`WellFormedRecordsAreGenerated`). So the invariant is exactly the set of
  rows the generator can emit: it is neither too weak nor too strong.

## Model

| member | source | states |
|---|---|---|
| `Catalog.CataloguesListEveryValueOnce` | dataset-simulator.py:14-30 | each catalogue has the source's length, lists no value twice, and lists every value of its datatype |
| `Catalog.LabTestNamesAreCommaFree` | dataset-simulator.py:27 | lab test names are nonempty, contain no comma and are pairwise distinct, which is what splitting the comma-joined `lab_tests` column back into tests relies on |
| `Helpers.GenerateAge` | dataset-simulator.py:37-43 | the age is one of `range(0, 95)`, i.e. between 0 and 94 |
| `Helpers.RandTime` | dataset-simulator.py:46-50 | the time of day is between 07:00 (420) and 20:59 (1259); hour and minute are recovered from it by division and remainder |
| `Helpers.RandTimeReachesEveryMinute` | dataset-simulator.py:46-50 | every minute from 07:00 to 20:59 is produced by some hour and minute draw |
| `Helpers.SimulateWaitTime` | dataset-simulator.py:53-57 | Critical waits 1–4 minutes, High 5–14, Medium 10–39, Low 20–119 |
| `Helpers.SimulateConsultationTime` | dataset-simulator.py:60-65 | under 5: 8–19 minutes; 5–17: 6–14; 18–54: 6–17; 55 and over: 12–24 |
| `Helpers.SimulateLabTurnaround` | dataset-simulator.py:68-77 | each test's turnaround lies in its table range, upper end excluded (CBC 30–89, Malaria RDT 10–19, Blood Glucose 5–14, Urinalysis 20–39, Chest Xray 25–59, COVID PCR 180–479) |
| `Helpers.LabLowSum` | dataset-simulator.py:68-77 | the sum of the tests' lower ends is at least five minutes per test |
| `Helpers.LabHighSum` | dataset-simulator.py:68-77 | the sum of the excluded upper ends exceeds the lower sum by at least one per test |
| `Helpers.LabTurnaround` | dataset-simulator.py:119 | the summed turnaround is at least the sum of the lower ends and at most the sum of the upper ends less one per test |
| `Helpers.LabTurnaroundReachesEveryTotal` | dataset-simulator.py:119 | every total within those bounds is produced by some per-test draws, so the bounds are exactly the support of the sum |
| `Helpers.RoutePatient` | dataset-simulator.py:80-89 | Critical goes to Emergency; any other triage under 12 goes to Pediatrics; High from 12 on goes to Emergency or Surgery; Low or Medium over 60 goes to OPD; the result is always a listed department |
| `Helpers.RoutingConsistentIsReachable` | dataset-simulator.py:80-89 | a department obeys those rules if and only if some choice draws make `route_patient` return it |
| `Helpers.RiskScore` | dataset-simulator.py:134-139 | the rounded score lies in its triage's band: Low 0–0.300, Medium 0.300–0.600, High 0.600–0.850, Critical 0.850–1.000 |
| `Helpers.RiskBandsTileUnitInterval` | dataset-simulator.py:134-139 | in triage order the bands are nonempty and contiguous, start at 0, end at 1, and every score in [0, 1] lies in some band |
| `RandomSource.SwapRemove` | dataset-simulator.py:118 | the unselected part of the pool after one pick: one element shorter, with the last unselected element moved into the vacancy and every other position unchanged |
| `RandomSource.Sample` | dataset-simulator.py:118 | `random.sample` returns as many elements as draws were made, each from the pool, and none twice when the pool has no repeats |
| `RandomSource.SampleReachesEverySelection` | dataset-simulator.py:118 | every ordered selection of distinct pool elements, up to the pool size, is returned by some index draws |
| `Simulation.PatientId` | dataset-simulator.py:101 | the id is a prefix of the uuid string of length eight, or the whole string when it is shorter (a fitting uuid string has 36 characters, so every generated id has exactly eight) |
| `Simulation.ArrivalMinute` | dataset-simulator.py:104-106 | the arrival timestamp determines the visit date (by division by 1440) and the time of day (by remainder) |
| `Simulation.Assemble` | dataset-simulator.py:99-158 | every record built from fitting draws is well-formed: every field is in range, there are one to three distinct tests, routing follows the rules, and departure = arrival + wait + consultation + lab with total = departure − arrival |
| `Simulation.DepartureFollowsArrival` | dataset-simulator.py:125-127 | in a well-formed record the departure is at least 12 minutes after the arrival, and the total visit minutes are wait + consultation + lab |
| `Simulation.RecordDraws` | dataset-simulator.py:99-158 | the inverse of one iteration: from a well-formed record and draws for its lab columns it builds fitting draws, including a 36-character uuid string, that assemble exactly that record |
| `Simulation.WellFormedRecordsAreGenerated` | dataset-simulator.py:99-158 | every well-formed record is the one some fitting draws produce |
| `Simulation.SimulateVisit` | dataset-simulator.py:101-158 | the loop body, with the departure computed through the start and end of the consultation, builds exactly the record `Assemble` defines |
| `Simulation.Dataset` | dataset-simulator.py:96-99 | the rows number exactly the iterations |
| `Simulation.DatasetAt` | dataset-simulator.py:141-158 | row k is the record built from the draws of iteration k, and it is well-formed |
| `Simulation.DatasetOnlyAppends` | dataset-simulator.py:141 | the rows built from a prefix of the draws are a prefix of the rows built from all of them |
| `Simulation.SimulateDataset` | dataset-simulator.py:96-160 | `simulate_dataset(n)` runs max(n, 0) iterations and appends, in order, the record each iteration's draws determine |

## Left out

- `app.py` is not part of this model.
- Probability weights are left out: the skewed age weights, `TRIAGE_PROB`, `OUTCOME_PROB`, and the uniform choices. Only supports are modelled. Every weight is positive, so each value of a support can occur.
- The order in which the random number generators are consumed is left out, as is the split of draws between numpy's and Python's generators. Each result a record depends on is an input of its own; draws whose results are discarded have no input.
- The risk dictionary (dataset-simulator.py:134-139) is built eagerly, so each iteration calls `np.random.uniform` four times, once per band, and keeps only the triage's result. The model has one input, `riskScore`, for the kept result; the other three draws are not modelled.
- `route_patient` makes at most one `random.choice` call, but `Simulation.VisitDraws` carries an input for each of its two call sites, `highPick` and `anyPick`. The input of the call the taken branch does not make is ignored.
- `uuid.uuid4()` is left out. Its string is an opaque input token of 36 characters, of which the first eight are kept; its hexadecimal digits, hyphens and version bits are not modelled.
- Calendar arithmetic in `datetime` and `timedelta` is left out. Timestamps are minutes from 2024-01-01 00:00, and dates are day offsets. `np.random.randint(0, 365)` gives offsets 0–364. 2024 is a leap year, so December 31, 2024 (offset 365) is never generated.
- Floating point in the risk score is left out. `round(np.random.uniform(lo, hi), 3)` is modelled as a whole number of thousandths in the closed band. Rounding can reach the upper end, so neighbouring bands share their common end point. Described as intervals, the bands do not overlap; as rounded scores, they share those end points.
- `Simulation.VisitRecord` keeps `lab_tests` as the sequence of selected tests, not their `",".join` rendering. `Catalog.LabTestNamesAreCommaFree` proves the names are nonempty, comma-free and distinct, which is what splitting the joined string relies on; no join or split function is modelled. The `Name` functions of the other catalogue datatypes record the strings the CSV rendering writes and are not used elsewhere.
- Building the pandas DataFrame, `print` and the module-level run are I/O and are left out. The default count `N = 5000` of `simulate_dataset(n=N)` belongs to that run; `Simulation.SimulateDataset` takes `n` as a parameter.
- `total_visit_minutes` is `int((departure_dt - arrival_dt).total_seconds() / 60)` in the source (dataset-simulator.py:156); the model uses integer subtraction of minutes. Every component is a whole number of minutes and totals stay under 800, so the float division and truncation give the same value.
- `RandomSource.Sample` follows CPython's pool-based selection, which applies to a pool of six. CPython's `random` module itself is not part of this model. The set-based branch CPython uses for larger samples is left out; `RandomSource.SampleReachesEverySelection` shows the support is every selection of distinct elements either way.
