# Operational digital twin — a Dafny model

The system simulates a small fleet of analytical instruments and shows their
telemetry on a dashboard. Each instrument is a state machine with three live
statuses: IDLE, RUNNING and ERROR. One tick applies at most one random status
transition. It then recomputes vibration, throughput and a hidden temperature
target from the new status, and moves the temperature a tenth of the way
toward that target. After every tick the instrument reports a telemetry
record: `device_id`, `timestamp`, `status`, a nested `metrics` dictionary and
a nested `meta` dictionary.

The dashboard flattens these records into table rows, or makes up fifty mock
rows when no store is connected. It then computes four figures:

- active devices out of total devices;
- utilisation;
- critical alerts;
- estimated revenue.

The model has seven modules, one per file:

- `Records` (records.dfy): the dictionary-shaped documents and rows, with
  Option and Result.
- `Text` (text.dfy): Python's `str(n)`, `f"{n:03d}"` and string ordering, as
  far as the ids need them.
- `Instrument` (instrument.dfy):
  - the state value `OpState`;
  - the four transitions and the tick as pure specification functions;
  - the class `AnalyticalInstrument`, whose methods update its fields in
    place and are each proved equal to the corresponding function;
  - the telemetry record with its encoding and decoding.
- `Fleet` (fleet.dfy): building the fleet with sequential ids, one cycle
  (tick every device once, in fleet order) and a bounded run of cycles.
- `Frames` (frames.dfy): the part of a pandas DataFrame the dashboard relies
  on, meaning rows plus the set of column names.
- `MockData` (mockdata.dfy): `get_mock_data` and its sort by timestamp.
- `Dashboard` (dashboard.dfy): record flattening, `fetch_data` and the KPI
  block.

Every random draw is an explicit input:

- a `real` in [0, 1) for each `random.random()`;
- `random.uniform(a, b)` is `a + (b - a) * u`, as CPython computes it;
- the chosen value for each `randint` and `choice`.

Temperatures and vibrations are `real`. Timestamps are integers (seconds).

Where the code and its description differ, the model follows the code:

- `trigger_error` and `resolve_error` leave `operator_id` as it was. So a
  RUNNING instrument always has an operator, but an instrument with an
  operator need not be RUNNING. `Instrument.OperatorOutlivesRun` reaches
  such a state in two ticks from the initial state.
- The revenue estimate multiplies the summed throughput by 10, not by the
  100 its comment mentions.
- MAINTENANCE is declared but never assigned. It is kept as a constructor so
  that `Instrument.TicksPreserveInv` can prove it unreachable.

## Model

| member | source | states |
|---|---|---|
| Text.DecimalString | simulator.py:65 | `str(n)`: at least one digit, all digits, a single digit exactly below 10, no leading zero otherwise |
| Text.DecimalStringRoundTrip | simulator.py:65 | reading the decimal string back gives the number again |
| Text.ZeroPad3Digits | simulator.py:112 | `f"{i:03d}"` below 1000 is the hundreds, tens and units digits |
| Text.ZeroPad3Ordered | simulator.py:112 | below 1000, padded forms are ordered like the numbers under Python string order |
| Text.ZeroPad3Injective | simulator.py:112 | below 1000, distinct numbers have distinct padded forms |
| Instrument.InitialInv | simulator.py:20-29 | the initial state (IDLE, 25.0, no error, no operator) satisfies the state invariant |
| Instrument.OperatorIdShape | simulator.py:65 | an operator number drawn from [10, 99] gives "OP-" and two digits that read back as that number |
| Instrument.Started | simulator.py:63-67 | start_run: RUNNING, no error code, and with a valid draw the invariant holds whatever the old state |
| Instrument.Finished | simulator.py:69-72 | finish_run: IDLE, operator cleared, error code kept, invariant kept from RUNNING |
| Instrument.Errored | simulator.py:74-77 | trigger_error: ERROR with a code, operator kept, invariant holds |
| Instrument.Resolved | simulator.py:79-82 | resolve_error: IDLE, error code cleared, operator kept, invariant holds |
| Instrument.Uniform | simulator.py:49-53 | `random.uniform(lo, hi)` lies in [lo, hi] for a draw in [0, 1) |
| Instrument.StepPreservesInv | simulator.py:31-82 | a tick keeps the invariant: never MAINTENANCE, error code exactly in ERROR, RUNNING has a well-formed operator |
| Instrument.StepStatusEdges | simulator.py:35-45 | at most one transition per tick, along IDLE→RUNNING, RUNNING→IDLE, RUNNING→ERROR or ERROR→IDLE; finishing is tested before failing; each transition fires if and only if its draw is below its threshold (RUNNING→ERROR: the first draw is not below the finish chance and the second is below the fail chance) |
| Instrument.StepMetrics | simulator.py:47-58 | after a tick, RUNNING has vibration in [0.1, 0.4], throughput in [10, 20] and target in [55, 65]; ERROR has vibration in [0.5, 1.2], throughput 0 and the old target; otherwise target 22.0, vibration 0.01, throughput 0 |
| Instrument.StepTemperature | simulator.py:60-61 | the new temperature is old + 0.1·(target − old), lies between old and target, and the gap to the target shrinks to 0.9 of itself |
| Instrument.RunningTickApproachesBand | simulator.py:48-61 | a tick ending RUNNING shrinks the distance to the band [55, 65] to at most 0.9 of what it was |
| Instrument.RunningTicksConverge | simulator.py:31-61 | n ticks that all end RUNNING bring the temperature within 0.9^n of its initial distance from [55, 65] |
| Instrument.TicksPreserveInv | simulator.py:31-82 | any number of ticks keeps the invariant, so MAINTENANCE is never reached |
| Instrument.OperatorOutlivesRun | simulator.py:35-77 | two ticks from the initial state, the first starting a run by OP-42 and the second failing it, leave the instrument in ERROR, still holding OP-42, with the invariant intact |
| Instrument.FirstRunningTick | simulator.py:49-61 | a tick that starts a run at 25.0 with target 60.0 gives 28.5 |
| Instrument.EncodeDecode | simulator.py:84-101 | every field of a telemetry record reads back from the nested document as written |
| Instrument.AnalyticalInstrument.constructor | simulator.py:14-29 | fields as chosen (model from the three models, location "Lab-n"), initial state, invariant holds |
| Instrument.AnalyticalInstrument.StartRun | simulator.py:63-67 | the new state is `Started` of the old one |
| Instrument.AnalyticalInstrument.FinishRun | simulator.py:69-72 | the new state is `Finished` of the old one |
| Instrument.AnalyticalInstrument.TriggerError | simulator.py:74-77 | the new state is `Errored` of the old one |
| Instrument.AnalyticalInstrument.ResolveError | simulator.py:79-82 | the new state is `Resolved` of the old one |
| Instrument.AnalyticalInstrument.Tick | simulator.py:31-61 | the in-place tick leaves the state `Step` gives, the function about which the properties above are proved |
| Instrument.AnalyticalInstrument.Report | simulator.py:84-101 | the record of a given state decodes to the device's id, model and location, that state's status, metrics, operator and error code, and the clock reading |
| Instrument.AnalyticalInstrument.GetTelemetry | simulator.py:84-101 | the record decodes to the current device id, status, metrics, operator, error code, model and location, stamped with the clock reading |
| Fleet.DeviceIdsOrdered | simulator.py:112 | ids of numbers below 1000 are ordered like the numbers and distinct |
| Fleet.FleetIdsSpelledOut | simulator.py:112 | the fleet ids are INST-001 … INST-005 |
| Fleet.FleetIdsIncreasing | simulator.py:112 | the fleet ids are strictly increasing and pairwise distinct |
| Fleet.BuildFleet | simulator.py:112 | five fresh, distinct instruments in the initial state, with ids in fleet order |
| Fleet.RunCycle | simulator.py:134-136 | each device ticks exactly once with its own draws (the states become `StepAll` of the old ones), and the records come out in fleet order, each the device's telemetry after its tick: the records are `Reports` of the new states |
| Fleet.TelemetryReports | simulator.py:135-136 | records that are each device's telemetry, in fleet order, are exactly the reports of the fleet's current states |
| Fleet.RunAllTicks | simulator.py:133-136 | after a run of cycles each device is in the state its own column of draws, applied tick by tick, leads to |
| Fleet.FleetRunKeepsInv | simulator.py:133-136 | any run of cycles with valid draws keeps every device's invariant |
| Fleet.RunCycles | simulator.py:133-136 | after n cycles the fleet's states are `RunAll` of the old ones; the records, one per device per cycle, are `AllRecords`: cycle after cycle, each cycle's reports in fleet order, taken after that cycle's ticks |
| Fleet.AllRecordsAt | simulator.py:133-136 | a run of n cycles yields n·(fleet size) records, and record c·(fleet size)+k is device k's report of the state its first c+1 draws lead it to, stamped with cycle c's clock reading for it |
| Fleet.SnapshotsAt | simulator.py:133-136 | the c-th snapshot of a run is the fleet's state after its first c+1 cycles |
| Fleet.ConcatAt | simulator.py:133-136 | with every cycle yielding one record per device, element k of cycle c's block sits at c·n+k of the concatenated records |
| Frames.KeysOf | main.py:92 | a column exists exactly when some row has that key |
| Frames.MakeTable | main.py:92 | the table keeps the rows and has exactly the keys of the rows as columns |
| MockData.MockRowPlausible | main.py:49-59 | a mock row has a fleet id, a live status, throughput in [10, 20] exactly when RUNNING (else 0), temperature in [20, 80], and vibration in [0.01, 0.4] (up to 1.5 in ERROR) |
| MockData.MockRows | main.py:47-59 | one row per draw, in loop order |
| MockData.Insert | main.py:60 | insertion adds the row to the multiset of rows |
| MockData.InsertSorted | main.py:60 | inserting into a timestamp-sorted list keeps it sorted |
| MockData.SortByTime | main.py:60 | the result is a permutation of the rows, sorted by timestamp |
| MockData.PermutationPlausible | main.py:60 | reordering keeps every row plausible |
| MockData.MockRowsPlausible | main.py:47-59 | every generated row is plausible |
| MockData.MockRowsColumns | main.py:52-60 | the mock table has exactly the six mock columns |
| MockData.GetMockData | main.py:43-60 | fifty plausible rows, a permutation of the generated ones, sorted by timestamp, with the six columns |
| Dashboard.FlattenedShape | main.py:78-87 | flattening fails exactly on a non-dictionary metrics; it copies temperature, vibration and throughput up (None when missing), drops metrics and meta, and passes every other key through |
| Dashboard.FlattenRecord | main.py:77-87 | the in-place edit of the copied record gives the row `Flattened` describes |
| Dashboard.TelemetryFlattens | main.py:78-87 | a record get_telemetry writes flattens to six columns whose temperature, vibration and throughput are the record's metrics |
| Dashboard.FetchRows | main.py:75-87 | the rows are the flattened records in order, or the first failure |
| Dashboard.FetchData | main.py:64-94 | mock data when no store is connected; the empty table with the five fixed columns for no records; otherwise the table of the flattened rows, or a failure when one record's metrics is not a dictionary or no row has a timestamp |
| Dashboard.Filter | main.py:168 | the kept rows are exactly those with the given status |
| Dashboard.FilterCount | main.py:168-171 | as multisets, the filter keeps each row with the status as often as it occurs and no other row, so `len` of the filtered frame counts matching rows with repetitions |
| Dashboard.DeviceIds | main.py:168-169 | the distinct non-missing device ids, no more of them than rows |
| Dashboard.Percent | main.py:170 | the share in percent lies in [0, 100], times the whole is 100·part, is 100 exactly when part is whole and 0 exactly when part is 0 |
| Dashboard.ComputeKpis | main.py:167-187 | fails exactly when status is missing while device_id is present in a non-empty table; otherwise active ≤ total ≤ rows, critical ≤ rows, utilisation in [0, 100]; all zero without rows or device_id |
| Dashboard.KpiCounts | main.py:168-181 | active devices are the distinct ids among RUNNING rows and total devices the distinct ids among all rows; utilisation is the percentage of RUNNING rows (100 exactly when all run, 0 exactly when none does); critical alerts is the number of ERROR rows; RUNNING plus ERROR rows fit in the row count; revenue is 10 × summed throughput, or 0 without the column |
| Dashboard.StatusCounts | main.py:168-171 | RUNNING rows and ERROR rows together are at most all rows |
| Dashboard.FilterAll | main.py:170 | the filter keeps every row exactly when every row has the status |
| Dashboard.FilterNone | main.py:170 | the filter is empty exactly when no row has the status |
| Dashboard.MockThroughput | main.py:58 | over mock rows the summed throughput lies between 10 and 20 per RUNNING row |
| Dashboard.FleetDeviceIds | main.py:46-50 | rows naming only fleet devices count only fleet device ids |
| Dashboard.MockKpis | main.py:167-181 | on mock data every figure is computed, at most five devices are counted, and revenue lies between 100 and 200 per RUNNING row |

## Left out

- Firestore: the registry batch write, the per-tick `add` and `update`, and
  the query in `fetch_data` are not modelled. `FetchData` receives the
  query's result as a parameter, so its descending order and 200-record
  limit are not modelled either. firebase_config.py is not part of this
  model.
- The endless simulator loop, `time.sleep` and the `KeyboardInterrupt` exit
  are out; `Fleet.RunCycles` models a bounded number of cycles instead.
- Console output (`print`, status icons), Faker and the wall clock are out.
  The commissioning date and every timestamp are parameters. Timestamps are
  integer seconds rather than ISO strings, so `pd.to_datetime` is the
  identity here.
- Instrument.AnalyticalInstrument.GetTelemetry: does not round temperature
  to 2 places or vibration to 4, because the model uses exact reals.
- Floating point in general: every metric is an exact real.
- Fleet.RunCycle: its contract states the new state of each device but not
  that the invariant is kept. That follows from the contract together with
  `Fleet.FleetRunKeepsInv`.
- Column order of a pandas DataFrame is not modelled: a table's columns are
  a set.
- MockData.SortByTime: `sort_values` is modelled as a stable insertion sort.
  pandas' default sort is not stable, so among rows with equal timestamps
  the order may differ.
- Dashboard.ThroughputSum counts a throughput cell that is not a number as
  0, where pandas would concatenate strings or raise. The model only sums
  numbers and skips missing values.
- Dashboard.DeviceIds treats a nested (dictionary) device id as an ordinary
  value, where pandas' `nunique` would raise on it.
- The Streamlit page is out: layout, charts, the alert feed, the text, the
  caching, and the random deltas shown next to the KPIs.
