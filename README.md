# OptiX digital twin backend — a Dafny model

This project models the computational core of the OptiX digital-twin
backend, a FastAPI service that steps a renewable-energy investment
environment and analyses its data. Five pieces are modelled:

- **Merit-order dispatcher** (`backend/optimizer.py`). It turns a PV series
  and a load series (MW per step) into seven energy series (MWh per step)
  and a set of KPIs. Each step moves energy in seven flows, in a fixed
  order: PV to load, PV into the DSM (demand-side management) store, PV
  into the battery, export, DSM to load, battery to load, then grid
  import. The
  battery and the DSM store carry their state of charge from one step to
  the next. `build_config_from_overrides` reads a scenario's overrides
  into the dispatcher's configuration.
- **Data loader** (`backend/data_loader.py`):
  - it rejects a table that lacks one of the five required columns;
  - it drops rows with a missing required value;
  - it scales capacity-factor data to raw MW when no magnitude column
    exceeds 2.0.
- **Simulation manager** (`backend/simulation_manager.py`). This is the
  registry of sessions. Each session drives the fallback `_MinimalEnv`:
  - `step` books net generation times price and moves a cursor that
    stops at the end of the data;
  - `step_session` repeats `step` with default zero actions, and resets
    the environment and stops early once every agent is done;
  - `build_state_snapshot` reports the session. Its values go through
    `_to_serializable` and `_safe_float`.
- **Route arithmetic** (`backend/routes.py`):
  - the history limit clamp;
  - the PED (positive energy district) report over the rows up to the
    cursor;
  - the energy-series window;
  - the optimizer endpoint, with its time-step inference and its MWh to
    MW conversion;
  - the command loop of the WebSocket stream;
  - the refresh that marks runs with a vanished session as completed.
- **Start-up seeding** (`backend/main.py`). This is an upsert of five
  predefined scenarios keyed by name:
  - a missing preset is inserted;
  - an existing row gets its empty details filled in;
  - a description still equal to the earlier short text is replaced.

Python floats are modelled as Dafny `real`s. The 1e-9 and 1e-12 guards of
the source are named constants (`Eps9`, `Eps12`).

Modules:
- `Wrappers`: `Option` and `Result`.
- `Numeric`: min, max and numpy's sum, with its algebra.
- `Strings`: Python's `str.strip`, and `float()` and `int()` of a text.
- `DataLoader`.
- `Optimizer`: the dispatcher as pure step functions. There is also a
  `Run` method that builds the series with loops.
- `DispatchProperties`: what a run guarantees.
- `Simulation`: the environment, session and manager classes.
- `Routes`.
- `Seeding`: the generic upsert.
- `ScenarioPresets`: the five presets and the store that seeds them.

Where the code does something other than a natural reading of the
service's description, the model follows the code:
- **Capacity-factor test.** It is one global test. Any of wind, solar,
  hydro or load with a maximum above 2.0 disables scaling of every column.
  It is not a per-column range check to [0, 1].
- **Revenue.** The fallback environment's revenue has no time-step
  factor. There is no budget or NAV accounting: `equity` and `budget`
  stay `None`.
- **Stepping.** `step_session` resets the environment when the data runs
  out and stops there. So `step(a)` followed by `step(b)` is in general
  not `step(a + b)` (see `Simulation.SplitStepsDiffer`).
- **PED ratio.** The ratio divides by the demand plus 1e-9, so it is
  defined at zero demand. It fails only where that divisor is exactly zero.
- **Optimizer PV input.** The optimizer endpoint feeds the solar column
  alone as PV, not wind plus solar plus hydro.

## Model

| member | source | states |
|---|---|---|
| Numeric.SumAppend | backend/optimizer.py:115-118 | numpy's sum of a concatenation is the sum of the parts |
| Numeric.SumPermutation | backend/optimizer.py:135-138 | a KPI sum does not depend on the order of the series |
| Numeric.SumAddSeq | backend/routes.py:246-250 | summing an element-wise sum of columns equals adding the column sums |
| Numeric.SumScale | backend/optimizer.py:115-116 | a sum times the step length equals the sum of per-step energies |
| Numeric.SumMonotone | backend/optimizer.py:135-138 | a sum grows with its terms |
| Numeric.SumNonNegative | backend/optimizer.py:135-138 | a sum of non-negative flows is non-negative |
| DataLoader.Filter | backend/data_loader.py:47 | the list comprehension keeps exactly the elements satisfying the test, in order |
| DataLoader.FilterAppend | backend/data_loader.py:47 | filtering distributes over concatenation |
| DataLoader.FilterIdempotent | backend/data_loader.py:47 | filtering twice equals filtering once |
| DataLoader.MissingColumns | backend/data_loader.py:47-48 | a name is reported missing iff it is required and absent; the list is empty iff every required column is present |
| DataLoader.MissingColumnsInOrder | backend/data_loader.py:11 | the missing names come out in the order of the required list |
| DataLoader.DropNa | backend/data_loader.py:67 | a row is kept iff it was there and has every required value; the columns are unchanged |
| DataLoader.DropNaWellFormed | backend/data_loader.py:67 | dropping rows keeps every row's column set |
| DataLoader.DropNaAppend | backend/data_loader.py:67 | dropping rows distributes over concatenated tables |
| DataLoader.ColumnMax | backend/data_loader.py:16 | the maximum is one of the column's present values and bounds all of them; an all-missing column has none |
| DataLoader.IsCapacityFactorData | backend/data_loader.py:14-18 | true iff no present magnitude column has a maximum above 2.0 |
| DataLoader.ScanForRawMwSound | backend/data_loader.py:15-17 | the early-returning scan finds a column iff one of the scanned columns exceeds 2.0 |
| DataLoader.PriceIgnored | backend/data_loader.py:15 | two tables that agree on wind, solar, hydro and load get the same verdict, whatever their prices |
| DataLoader.ConvertToRawMw | backend/data_loader.py:21-32 | wind, solar, hydro and load are multiplied by 1103, 100, 534 and 2999 MW; other columns, missing values and the shape are unchanged |
| DataLoader.ConvertKeepsShape | backend/data_loader.py:28-32 | scaling keeps the table well formed and every complete row complete |
| DataLoader.LoadEnergyFrame | backend/data_loader.py:35-72 | fails iff a required column is absent, with the missing names; otherwise it returns the cleaned table, scaled exactly when asked for and the data is capacity factors |
| DataLoader.ColumnOrZeros | backend/simulation_manager.py:331-335 | a required column of a loaded table, one value per row |
| Optimizer.FloatOr | backend/optimizer.py:148-149 | `float(overrides.get(k, d) or d)`: the default for an absent or falsy value, the value's float otherwise |
| Optimizer.BuildConfigFromOverrides | backend/optimizer.py:142-157 | no or empty overrides give the defaults with the given dt; it fails iff some key's `float()` raises, and then names the first such key in reading order; otherwise battery energy and C-rate are `float(value or default)`, each present efficiency, share and shift key sets its field to its float, and absent keys keep the defaults |
| Optimizer.ConfigRoundTrip | backend/optimizer.py:142-157 | a configuration written out as overrides reads back as itself, unless its C-rate is zero |
| Optimizer.ZeroCRateFallsBack | backend/optimizer.py:147 | a zero C-rate override is falsy and gives the 0.25 default |
| Optimizer.MaxOf | backend/optimizer.py:56 | `np.max`: an element of the series bounding all of them |
| Optimizer.FlexShare | backend/optimizer.py:55 | the flexible share clamped into [0, 1] |
| Optimizer.DeriveLimits | backend/optimizer.py:37-58 | fails iff a DSM share is set and the load is empty (numpy's max of an empty array); otherwise it gives the battery and DSM capacities and powers |
| Optimizer.StagesPvSide | backend/optimizer.py:64-92 | the PV-side flows of a step are the amounts of its first four stages |
| Optimizer.StagesLoadSide | backend/optimizer.py:94-113 | the load-side flows of a step are the amounts of its last stages |
| Optimizer.StagesStores | backend/optimizer.py:85-108 | the stores after a step are those left by the two discharge stages |
| Optimizer.DispatchStepStages | backend/optimizer.py:60-113 | one step is PV to load followed by the four storage stages, with export and import the remainders |
| Optimizer.StepStages | backend/optimizer.py:60-113 | every step decomposes into its stages |
| Optimizer.RunPrefix | backend/optimizer.py:60 | the loop over the first k steps yields k flow records |
| Optimizer.RunPrefixNext | backend/optimizer.py:60-113 | one more loop pass appends that step's flows and updates the stores |
| Optimizer.Series | backend/optimizer.py:46-52 | the seven arrays hold the step flows in order, all of the same length |
| Optimizer.ComputeKpis | backend/optimizer.py:115-139 | generation and demand are the series totals; self-consumption, export and import are the sums of their series; the ratio is generation over demand + 1e-9 and fails only where that divisor is zero |
| Optimizer.MeritOrder | backend/optimizer.py:33-141 | shape mismatch, empty load with a DSM share and a zero ratio divisor are the only errors, each exactly when its condition holds; a result has series of the input's length, the configured dt, and the KPIs of those series |
| Optimizer.ChargeDsm | backend/optimizer.py:70-76 | the DSM charge block computes DsmChargeStage |
| Optimizer.ChargeBattery | backend/optimizer.py:78-87 | the battery charge block computes BatteryChargeStage |
| Optimizer.DischargeDsm | backend/optimizer.py:94-100 | the DSM dispatch block computes DsmDischargeStage |
| Optimizer.DischargeBattery | backend/optimizer.py:102-109 | the battery-to-load block computes BatteryDischargeStage |
| Optimizer.DispatchOne | backend/optimizer.py:60-113 | one pass of the loop body equals DispatchStep |
| Optimizer.DispatchAll | backend/optimizer.py:44-113 | the loop filling seven arrays gives the series of RunPrefix over the whole input |
| Optimizer.Run | backend/optimizer.py:33-141 | `MeritOrderOptimizer.run` returns exactly MeritOrder |
| Numeric.MulMonotone | backend/optimizer.py:105 | a smaller quantity times a non-negative factor stays smaller |
| DispatchProperties.ChargeFitsRoom | backend/optimizer.py:81-85 | an input within room / max(eta, 1e-9) adds at most the room |
| DispatchProperties.DrainFitsStore | backend/optimizer.py:105-108 | an output within soc * eta drains at most soc |
| DispatchProperties.DsmChargeStageSound | backend/optimizer.py:71-76 | DSM charge is non-negative, within the surplus, the DSM power and the room; the store stays within capacity |
| DispatchProperties.BatteryChargeStageSound | backend/optimizer.py:79-87 | battery charge is non-negative, within the surplus and the battery power; the charge stays within capacity; nothing moves without power |
| DispatchProperties.DsmDischargeStageSound | backend/optimizer.py:95-100 | DSM dispatch is within the load, the DSM power and the store |
| DispatchProperties.BatteryDischargeStageSound | backend/optimizer.py:103-109 | battery output is within the load and the battery power and never drains the battery below empty |
| DispatchProperties.StepKeepsStoresWithin | backend/optimizer.py:60-113 | a step keeps both stores between empty and their capacities |
| DispatchProperties.StepPvBalance | backend/optimizer.py:61-92 | the PV energy of a step is split exactly into load, DSM, battery and export, all non-negative |
| DispatchProperties.StepLoadBalance | backend/optimizer.py:62-113 | the load energy of a step is served exactly by PV, DSM, battery and import, all non-negative |
| DispatchProperties.StepMeritOrder | backend/optimizer.py:64-113 | PV serves the load first: a step that charges or exports leaves no load to the stores or the grid |
| DispatchProperties.StepPowerLimits | backend/optimizer.py:72-105 | each flow of a step stays within its power over the step |
| DispatchProperties.RunPrefixAt | backend/optimizer.py:60-113 | entry i of a run is step i from the stores the first i steps left |
| DispatchProperties.RunKeepsStoresWithin | backend/optimizer.py:44-113 | the stores stay within their capacities over the whole run |
| DispatchProperties.ConfiguredStoresWithin | backend/optimizer.py:37-113 | the same for the limits derived from a configuration |
| DispatchProperties.MeritOrderAt | backend/optimizer.py:60-113 | step i of a successful run is DispatchStep on the derived limits |
| DispatchProperties.MeritOrderPvBalance | backend/optimizer.py:61-92 | every step of a run accounts for its PV |
| DispatchProperties.MeritOrderLoadBalance | backend/optimizer.py:62-113 | every step of a run accounts for its load |
| DispatchProperties.SeriesTotalsBounded | backend/optimizer.py:115-138 | summed over a balanced series, self-consumption plus export is at most generation, and self-consumption and import are each at most demand |
| DispatchProperties.MeritOrderKpiBounds | backend/optimizer.py:115-138 | for non-negative input, the self-consumption, export and import KPIs are non-negative and bounded by the generation and demand KPIs |
| DispatchProperties.MeritOrderWithoutBattery | backend/optimizer.py:39-40 | with no battery energy or a zero C-rate the battery flows are all zero |
| DispatchProperties.MeritOrderWithoutDsm | backend/optimizer.py:55-57 | with no flexible share the DSM flows are all zero |
| Simulation.ZeroAction | backend/simulation_manager.py:257-270 | 0 for a discrete space, zeros of the shape for a box, else the sample, else 0 |
| Simulation.DefaultActions | backend/simulation_manager.py:249-254 | one zero action for every agent and for nothing else |
| Simulation.AllDone | backend/simulation_manager.py:198 | true iff every agent is terminated or truncated, missing entries counting as False |
| Simulation.NoAgentsAllDone | backend/simulation_manager.py:198 | `all` over no agents is true |
| Simulation.MinimalEnv.RevenueAt | backend/simulation_manager.py:351-356 | past the end of the data the booked revenue is zero |
| Simulation.MinimalEnv.BuildObs | backend/simulation_manager.py:367-376 | the observed row is the cursor clamped into [0, n-1] (0 for no data); wind, solar, hydro, load and price are that row's values, or 0.0 past a column's end |
| Simulation.MinimalEnv.Reset | backend/simulation_manager.py:344-348 | the cursor returns to 0 and the observation is row 0 |
| Simulation.MinimalEnv.Step | backend/simulation_manager.py:350-365 | books the revenue at the old cursor, moves it to min(t+1, n) and reports termination iff the data is exhausted |
| Simulation.Session.StepOnce | backend/simulation_manager.py:187-205 | one loop pass: counts a step and resets and stops iff that step exhausted the data |
| Simulation.Session.Advance | backend/simulation_manager.py:187-205 | max(1, steps) passes or fewer: the count, the last revenue, and a reset exactly when the data ran out |
| Simulation.StepCalls | backend/simulation_manager.py:187-205 | the number of env steps is between 1 and max(1, steps), and falls short only when the data runs out |
| Simulation.Stepped | backend/simulation_manager.py:187-205 | the cursor after stepping is 0 exactly when the data ran out and the environment was reset, and otherwise the start plus the steps taken |
| Simulation.SplitStepsDiffer | backend/simulation_manager.py:198-205 | stepping 3 from a two-row start resets after 2, so it differs from stepping 1 then 2 |
| Simulation.ToSerializable | backend/simulation_manager.py:273-282 | a numpy scalar becomes its serialised item; arrays, lists and tuples become lists of their serialised elements; dictionaries keep their keys in order with serialised values; anything else is returned as is |
| Simulation.SerializeEntries | backend/simulation_manager.py:279 | entries keep their keys and order |
| Simulation.SerializablePlain | backend/simulation_manager.py:273-282 | the result contains no numpy values and no tuples |
| Simulation.PlainSerializesToItself | backend/simulation_manager.py:273-282 | plain values pass through unchanged |
| Simulation.SerializeIdempotent | backend/simulation_manager.py:273-282 | serialising twice equals serialising once |
| Simulation.SafeFloat | backend/simulation_manager.py:285-291 | None for None and containers; numbers and booleans become their float; a text converts as `float()` reads it; a numpy scalar or a one-element array converts as its item, a larger array not at all |
| Simulation.SnapshotMetrics | backend/simulation_manager.py:216-222 | the timestep is the env's t, else the step count; fund NAV, budget and last revenue are SafeFloat of the env's equity, budget and last revenue |
| Simulation.BuildStateSnapshot | backend/simulation_manager.py:209-232 | the snapshot carries the session's id, observation, per-step dictionaries and metrics |
| Simulation.SimulationManager.CreateSession | backend/simulation_manager.py:94-163 | a load failure adds nothing; otherwise a fresh session over a fresh reset env is filed under the new id; the env holds the loaded table's five columns (zeros for a missing one), the investment frequency and a zero last revenue |
| Simulation.SimulationManager.CloseSession | backend/simulation_manager.py:165-170 | removes the id if present, else changes nothing |
| Simulation.SimulationManager.CloseAll | backend/simulation_manager.py:172-176 | the registry ends empty |
| Simulation.SimulationManager.GetSession | backend/simulation_manager.py:178-181 | the session under the id, or KeyError iff it is unknown |
| Simulation.SimulationManager.StepSession | backend/simulation_manager.py:183-207 | an unknown id is KeyError; otherwise the session advances as Advance states and its snapshot is returned |
| Routes.Slice | backend/routes.py:289-292 | Python slicing with clipped bounds |
| Routes.Take | backend/routes.py:353-354 | `s[:k]` is the first min(k, n) elements |
| Routes.TakeAppend | backend/routes.py:245-247 | a longer prefix is the shorter one followed by the rows between |
| Routes.HistoryLimit | backend/routes.py:205 | the limit clamped into [1, 1000] |
| Routes.PedWindow | backend/routes.py:245 | max(1, min(t, n)) rows: the cursor when within the data |
| Routes.Generation | backend/routes.py:246 | generation per row is wind + solar + hydro |
| Routes.Ped | backend/routes.py:245-261 | the totals over the window at 10-minute steps, their difference, and a ratio that times (demand + 1e-9) gives generation; fails iff that divisor is zero |
| Routes.RowEnergies | backend/routes.py:249-250 | each row's energy is its power over one sixth of an hour |
| Routes.TotalEnergyByRows | backend/routes.py:249-251 | summing then scaling equals summing per-row energies |
| Routes.PedTotalsGrow | backend/routes.py:245-251 | with non-negative data the PED totals are non-negative and only grow as the cursor advances |
| Routes.SessionPed | backend/routes.py:233-261 | a session's PED covers at least one row, at most the data, and exactly the cursor when within it |
| Routes.SeriesWindow | backend/routes.py:287-288 | the window ends at max(1, t) and spans min(end, max(1, min(limit, 50000))) rows |
| Routes.Range | backend/routes.py:309 | `range(lo, hi)` |
| Routes.GetEnergySeries | backend/routes.py:286-313 | the payload's window, its step numbers, generation and load row by row over the clipped slice, and the timestamps over the same slice exactly when the table has a timestamp column |
| Routes.EmptyTableSeries | backend/routes.py:287-309 | before any step on an empty table the steps list [0] while the data lists are empty |
| Routes.InferDt | backend/routes.py:357-366 | 10 minutes unless t > 1 and the first two timestamps parse; then exactly their gap in hours when that gap is positive |
| Routes.PerHour | backend/routes.py:390 | each MW value times max(dt, 1e-9) gives back the MWh value |
| Routes.ToMw | backend/routes.py:388-390 | all seven series are scaled back this way |
| Routes.Optimize | backend/routes.py:341-397 | the configuration is BuildConfigFromOverrides with the inferred dt; the report is one merit-order run on the solar and load columns up to t, with series of length min(t, n), and its MW series are ToMw of that run; it fails iff the configuration or the dispatch fails; equal columns never give a shape error |
| Routes.LowerChar | backend/routes.py:523 | upper-case ASCII letters map to lower case, other characters are kept |
| Routes.Lower | backend/routes.py:523 | `str.lower` character by character |
| Routes.LowerIdempotent | backend/routes.py:523 | lower-casing twice equals lower-casing once |
| Routes.ClassifyNames | backend/routes.py:523-541 | ping, step and state are each recognised exactly when the lower-cased command is that word; anything else is unknown |
| Routes.ToInt | backend/routes.py:530 | `int()`: integers kept, floats truncated toward zero, texts read as decimal integers, other values rejected |
| Routes.FirstMalformed | backend/routes.py:520-547 | the first message that is not a JSON object or is a step command whose count `int()` rejects, or the count of messages |
| Routes.TextStepCount | backend/routes.py:529-530 | a step count sent as the decimal text of n is well formed and asks for n steps |
| Routes.Advanced | backend/routes.py:528-532 | a message leaves the cursor within the data; only a well-formed step command moves it |
| Routes.Replay | backend/routes.py:521-541 | after a run of messages the cursor stays within the data and the count never falls |
| Routes.ReplayNext | backend/routes.py:521-541 | answering one more message moves the session on from where the earlier ones left it |
| Routes.ReplayWithoutSteps | backend/routes.py:523-541 | messages that never step leave the cursor and the count unchanged |
| Routes.ReplayCountsSteps | backend/routes.py:528-532 | the count grows by at least one per step command and by at most max(1, steps) for each |
| Routes.Answer | backend/routes.py:522-541 | the reply to a well-formed message (pong, a state or the unknown-command error), None for a malformed message; a step moves the session as StepSession does and replies with its snapshot; state replies with the current snapshot; every other message changes nothing; a state reply reports the session's new cursor and count |
| Routes.Serve | backend/routes.py:519-547 | the command loop (`Outcome`): one answer per message up to the first malformed one, a fatal reply and code 1011 there, else a disconnect; `Tracks`: the session and every state reply follow Replay |
| Routes.RunStream | backend/routes.py:496-547 | codes 4400 and 4404 for no or unknown session; otherwise the initial state followed by the `Outcome` and `Tracks` of the command loop: one reply per message, and close 1011 at the first malformed step; the session ends where Replay of the answered messages puts it, and each state reply reports Replay of the messages up to it |
| Routes.Refreshed | backend/routes.py:54-63 | a run whose non-empty session id is no longer live becomes completed with no session; the result is never stale |
| Routes.RefreshIdempotent | backend/routes.py:50-63 | refreshing twice equals refreshing once |
| Routes.RefreshRunStatusIfNeeded | backend/routes.py:50-63 | the run's status and session id become their refreshed values |
| Strings.StripLeft | backend/main.py:168 | drops exactly the leading whitespace: a suffix of the text, everything removed is whitespace, and the rest does not start with it |
| Strings.StripRight | backend/main.py:168 | drops exactly the trailing whitespace: a prefix of the text, everything removed is whitespace, and the rest does not end with it |
| Strings.Strip | backend/main.py:168 | `str.strip`: a slice of the text with whitespace only before and after it, and no whitespace at its own ends |
| Strings.StripTrimmed | backend/main.py:168 | text without whitespace at its ends strips to itself |
| Strings.StripIdempotent | backend/main.py:168 | stripping twice equals stripping once |
| Strings.ParseUnsignedDigits | backend/optimizer.py:146-157 | a string of digits reads as its decimal value |
| Strings.ParseFloatNat | backend/optimizer.py:146-157 | `float()` of a natural number's decimal text gives that number back |
| Strings.ParseFloatNegativeNat | backend/optimizer.py:146-157 | the same with a leading minus |
| Strings.ParseFloatPoint | backend/optimizer.py:146-157 | `float("w.f")` is the whole part plus the fraction digits over 10 to their count |
| Strings.ParseFloatBlank | backend/optimizer.py:146-157 | an empty or all-whitespace text is rejected |
| Strings.ParseIntNat | backend/routes.py:530 | `int()` of a natural number's decimal text gives that number back |
| Strings.ParseIntNegativeNat | backend/routes.py:530 | the same with a leading minus |
| Strings.ParseIntAsFloat | backend/routes.py:530 | every text `int()` accepts, `float()` accepts with the same value |
| Strings.ParseIntPoint | backend/routes.py:530 | `int()` rejects a text with a decimal point |
| Seeding.Fresh | backend/main.py:158-159 | a missing preset is inserted with its description, details, overrides and the new id |
| Seeding.Upgrade | backend/main.py:160-172 | empty details are filled in and an outdated description replaced; id, overrides and other texts are unchanged |
| Seeding.SeedOne | backend/main.py:156-172 | the upsert of one preset touches its own name only |
| Seeding.UpgradeIdempotent | backend/main.py:160-172 | upgrading twice equals upgrading once, and a freshly inserted row needs no upgrade |
| Seeding.Names | backend/main.py:156 | every preset's name is among the names |
| Seeding.NameIndex | backend/main.py:156 | every name is the name of some preset |
| Seeding.LastNameNew | backend/main.py:144-157 | with distinct names, a later preset's name is not among the earlier ones |
| Seeding.Seed | backend/main.py:156-172 | after seeding the table has its old names plus every preset name |
| Seeding.Seeded | backend/main.py:157-172 | a preset's row is its upgrade if it existed before, else its fresh row |
| Seeding.SeedUntouched | backend/main.py:156-172 | rows with other names are left alone |
| Seeding.SeedLast | backend/main.py:157-172 | the last preset's row is decided by the rows that existed before |
| Seeding.SeedEarlier | backend/main.py:156-172 | a later preset does not touch an earlier preset's row |
| Seeding.SeedAt | backend/main.py:156-172 | each preset's row ends as its upgraded old row or its fresh row |
| Seeding.SeedStep | backend/main.py:156-172 | each loop pass sets exactly that preset's row from the rows read at the start |
| Seeding.SeedIdempotent | backend/main.py:156-172 | seeding twice gives the same table as seeding once, whatever ids the second run draws |
| Seeding.SeedGuarantees | backend/main.py:156-172 | every preset is present; ids, overrides and non-empty details of existing rows never change; a description changes only when it was outdated |
| ScenarioPresets.PresetsDistinct | backend/main.py:58-139 | the five preset names are distinct |
| ScenarioPresets.PresetSeedingIdempotent | backend/main.py:52-174 | running the start-up seeding twice leaves the same table as running it once |
| ScenarioPresets.ScenarioStore.SeedPredefinedScenarios | backend/main.py:141-174 | the store's rows become Seed of the rows read at the start |

## Left out

- Reading the CSV file, parsing timestamps and `pd.to_numeric` coercion are not modelled. The loader starts from a table whose cells are already numbers or missing (`None`).
- Python floats are modelled as exact reals. Rounding, NaN and infinities are not modelled, so the 1e-9 and 1e-12 guards are compared exactly.
- Optimizer.DispatchAll: the source fills seven numpy arrays in place. The model collects one record per step in a sequence and splits it into the seven series afterwards.
- The external `RenewableMultiAgentEnv`, `EnhancedConfig`, the forecast generator and its wrapper are code this model cannot see. Only the fallback `_MinimalEnv` is modelled, and a session's `wrapper` is always `None`.
- `SimulationSettings.resolve`, the global manager singleton, `_safe_close` and the session `info` dictionaries are not modelled. Closing releases nothing observable in the model.
- Simulation.ToSerializable: an `NdArray` holds only nested arrays and numpy scalars, as numeric arrays do. An object array holding tuples or dictionaries, which `tolist()` would pass through unconverted, is not modelled.
- Routes.Lower: only ASCII upper-case letters are mapped. Unicode case mapping is not modelled.
- Strings.ParseFloat: exponents, `inf`, `nan`, underscores between digits and non-ASCII digits are treated as unconvertible. Python's `float()` accepts them.
- Strings.ParseInt: underscores between digits and non-ASCII digits are treated as unconvertible. Python's `int()` accepts them.
- Routes.Replay: the session state it follows is the cursor and the step count. The last revenue and the per-step dictionaries of each state reply are stated per message by Answer, not over a whole stream.
- Session ids are uuid4 strings in the source. In the model the caller passes them in as fresh ids.
- Database access is not modelled: sessions, `db.add`, `db.flush`, snapshot persistence, `session_scope` and the 404/409/410/500 HTTP errors of the routes. The route models take the values the database would supply as parameters.
- FastAPI and WebSocket transport are not modelled. The stream's incoming messages are a finite sequence, and running out of messages stands for the disconnect.
- Seeding.SeedOne: the `updated` flag only decides whether to call `db.add`, so it has no counterpart.
- Seeding.Seed: the table is a map from name to row. Two database rows sharing a name are not modelled.
- Seeding.Preset: the earlier short descriptions are stored on each preset rather than in a separate name-keyed dictionary. The two are equivalent because the names are distinct.
- Routes.InferDt: timestamps are given as seconds, and an unparsable one is `None`.
- Routes.Serve: the generic exception handler of `run_stream` is the `Fatal` reply followed by close code 1011. It is reached by a message that is not JSON or not a JSON object, and by a step count `int()` rejects. The text of the exception in its error message is not modelled. A `KeyError` from a session closed concurrently during a stream is not modelled either: the session stays open for the whole stream.
- Routes.Optimize: the route's snapshot persistence and its `config` dictionary are not modelled.
- The HTTP endpoints that only read or write database rows (runs and scenarios CRUD) are not modelled.
